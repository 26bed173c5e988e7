/**
  * The genre join that `initFilm` runs on every film of a delivered batch: each
  * genre id is replaced by the first entry of the genre table with that id. A
  * missing id is not dropped: `findFirst().get()` throws, and reading the
  * `lateinit` table before the genre fetch has set it throws too.
  */
module GenreJoin {
  import opened Wrappers
  import opened Domain

  /** Why the join throws on one genre id. */
  datatype JoinError =
    | GenresUninitialized    // the `lateinit` genre table was read before it was set
    | NoSuchElement(id: int) // `get()` on the empty `Optional` of an id with no entry

  /** Index of the first entry of `table` whose id is `id`, or `|table|` when there is none. */
  function FirstIndex(table: seq<Category>, id: int): (k: nat)
    ensures k <= |table|
    ensures forall j :: 0 <= j < k ==> table[j].id != id
    ensures k < |table| ==> table[k].id == id
  {
    if table == [] || table[0].id == id then 0 else 1 + FirstIndex(table[1..], id)
  }

  /** `table.stream().filter { it.id == id }.findFirst()`. */
  function FindFirst(table: seq<Category>, id: int): (r: Option<Category>)
    ensures r.None? <==> forall j :: 0 <= j < |table| ==> table[j].id != id
    ensures r.Some? ==> r.value.id == id && r.value in table
    ensures r.Some? ==>
      exists k :: 0 <= k < |table| && table[k] == r.value && forall j :: 0 <= j < k ==> table[j].id != id
  {
    var k := FirstIndex(table, id);
    if k < |table| then Some(table[k]) else None
  }

  /** Resolving one id against the (possibly unset) genre table. */
  function Lookup(genres: Option<seq<Category>>, id: int): (r: Result<Category, JoinError>)
    ensures genres.None? ==> r == Failure(GenresUninitialized)
    ensures r.Success? ==> genres.Some? && r.value in genres.value && r.value.id == id
    ensures genres.Some? && r.Failure? ==>
      r.error == NoSuchElement(id) && forall j :: 0 <= j < |genres.value| ==> genres.value[j].id != id
  {
    match genres
    case None => Failure(GenresUninitialized)
    case Some(table) =>
      match FindFirst(table, id)
      case None => Failure(NoSuchElement(id))
      case Some(c) => Success(c)
  }

  /** Every id of `ids` resolves: the inner loop of `initFilm` runs to its end. */
  predicate Joinable(genres: Option<seq<Category>>, ids: seq<int>)
  {
    forall i :: 0 <= i < |ids| ==> Lookup(genres, ids[i]).Success?
  }

  /**
    * The list `initFilm` leaves in a film's `genres` once its inner loop stops:
    * the resolved ids up to, not including, the first one that throws.
    */
  function Joined(genres: Option<seq<Category>>, ids: seq<int>): (r: seq<Category>)
    ensures |r| <= |ids|
  {
    if ids == [] then []
    else
      match Lookup(genres, ids[0])
      case Failure(_) => []
      case Success(c) => [c] + Joined(genres, ids[1..])
  }

  /**
    * What `Joined` holds: entry `i` is the resolution of `ids[i]`, and when the
    * list is shorter than `ids` the next id is the one that throws.
    */
  lemma {:induction false} JoinedSpec(genres: Option<seq<Category>>, ids: seq<int>)
    ensures forall i :: 0 <= i < |Joined(genres, ids)| ==> Lookup(genres, ids[i]) == Success(Joined(genres, ids)[i])
    ensures |Joined(genres, ids)| < |ids| ==> Lookup(genres, ids[|Joined(genres, ids)|]).Failure?
  {
    if ids != [] && Lookup(genres, ids[0]).Success? {
      JoinedSpec(genres, ids[1..]);
    }
  }

  /** The exception the join of `ids` throws: the one of its first unresolvable id. */
  function FailureOf(genres: Option<seq<Category>>, ids: seq<int>): (e: JoinError)
    requires !Joinable(genres, ids)
    ensures exists i :: 0 <= i < |ids| && Lookup(genres, ids[i]) == Failure(e) &&
                        forall j :: 0 <= j < i ==> Lookup(genres, ids[j]).Success?
  {
    JoinedSpec(genres, ids);
    var k := |Joined(genres, ids)|;
    assert k < |ids|;
    Lookup(genres, ids[k]).error
  }

  /** Every film of the batch joins: the outer loop of `initFilm` runs to its end. */
  predicate BatchJoinable(genres: Option<seq<Category>>, films: seq<Film>)
  {
    forall j :: 0 <= j < |films| ==> Joinable(genres, films[j].genresId)
  }

  /** Index of the first film whose join throws, or `|films|` when every film joins. */
  function FirstBadFilm(genres: Option<seq<Category>>, films: seq<Film>): (k: nat)
    ensures k <= |films|
    ensures forall j :: 0 <= j < k ==> Joinable(genres, films[j].genresId)
    ensures k < |films| ==> !Joinable(genres, films[k].genresId)
  {
    if films == [] || !Joinable(genres, films[0].genresId) then 0
    else 1 + FirstBadFilm(genres, films[1..])
  }

  /**
    * One step of the join loop at position `i`: a resolved id extends the list
    * by its entry; an id that throws is exactly where the list stops.
    */
  lemma JoinStep(genres: Option<seq<Category>>, ids: seq<int>, i: nat)
    requires i < |ids| && i <= |Joined(genres, ids)|
    ensures Lookup(genres, ids[i]).Success? ==>
      i < |Joined(genres, ids)| &&
      Joined(genres, ids)[..i + 1] == Joined(genres, ids)[..i] + [Lookup(genres, ids[i]).value]
    ensures Lookup(genres, ids[i]).Failure? ==> Joined(genres, ids)[..i] == Joined(genres, ids)
  {
    var r := Joined(genres, ids);
    JoinedSpec(genres, ids);
    if Lookup(genres, ids[i]).Success? {
      assert i < |r|;
      assert r[..i + 1] == r[..i] + [r[i]];
    } else {
      assert i == |r|;
    }
  }

  /** A film that does not join, with every film before it joining, is the first bad film. */
  lemma FirstBadFilmAt(genres: Option<seq<Category>>, films: seq<Film>, k: nat)
    requires k < |films| && k <= FirstBadFilm(genres, films)
    requires !Joinable(genres, films[k].genresId)
    ensures FirstBadFilm(genres, films) == k
    ensures !BatchJoinable(genres, films)
  {
  }

  /** The batch joins exactly when no film is bad. */
  lemma BatchJoinableIffNoBadFilm(genres: Option<seq<Category>>, films: seq<Film>)
    ensures BatchJoinable(genres, films) <==> FirstBadFilm(genres, films) == |films|
  {
    var k := FirstBadFilm(genres, films);
    if k < |films| {
      assert !Joinable(genres, films[k].genresId);
    }
  }

  /** The join runs to completion exactly when it resolves every id. */
  lemma JoinableIffComplete(genres: Option<seq<Category>>, ids: seq<int>)
    ensures Joinable(genres, ids) <==> |Joined(genres, ids)| == |ids|
  {
    var r := Joined(genres, ids);
    JoinedSpec(genres, ids);
    if |r| < |ids| {
      assert !Lookup(genres, ids[|r|]).Success?;
    }
  }

  /**
    * When every id resolves, the join keeps length and positions: entry `i` is
    * the first table entry whose id is `ids[i]`.
    */
  lemma JoinKeepsPositions(table: seq<Category>, ids: seq<int>)
    requires Joinable(Some(table), ids)
    ensures |Joined(Some(table), ids)| == |ids|
    ensures forall i :: 0 <= i < |ids| ==>
      FirstIndex(table, ids[i]) < |table| && Joined(Some(table), ids)[i] == table[FirstIndex(table, ids[i])]
    ensures forall i :: 0 <= i < |ids| ==> Joined(Some(table), ids)[i].id == ids[i]
  {
    var r := Joined(Some(table), ids);
    JoinableIffComplete(Some(table), ids);
    JoinedSpec(Some(table), ids);
    forall i | 0 <= i < |ids|
      ensures FirstIndex(table, ids[i]) < |table| && r[i] == table[FirstIndex(table, ids[i])]
    {
      assert Lookup(Some(table), ids[i]) == Success(r[i]);
      assert FindFirst(table, ids[i]) == Some(r[i]);
    }
  }

  /** An id with no entry in the table makes the join throw, and it throws at or before that id. */
  lemma MissingIdFails(table: seq<Category>, ids: seq<int>, i: nat)
    requires i < |ids|
    requires forall c :: c in table ==> c.id != ids[i]
    ensures !Joinable(Some(table), ids)
    ensures |Joined(Some(table), ids)| <= i
  {
    assert Lookup(Some(table), ids[i]).Failure?;
    JoinedSpec(Some(table), ids);
  }

  /** Before the genre fetch has set the table, any film with a genre id makes the join throw at once. */
  lemma UnsetTableFails(ids: seq<int>)
    requires ids != []
    ensures !Joinable(None, ids)
    ensures Joined(None, ids) == []
    ensures FailureOf(None, ids) == GenresUninitialized
  {
    assert !Lookup(None, ids[0]).Success?;
  }

  /** A film without genre ids always joins, even against an unset table, and gets an empty list. */
  lemma NoIdsAlwaysJoin(genres: Option<seq<Category>>)
    ensures Joinable(genres, []) && Joined(genres, []) == []
  {
  }

  /** The join yields only table entries whose ids the film lists, and no duplicates when its ids are distinct. */
  lemma JoinedGenresAreListed(genres: Option<seq<Category>>, ids: seq<int>)
    ensures genres.Some? ==> forall c :: c in Joined(genres, ids) ==> c in genres.value && c.id in ids
    ensures (forall i, j :: 0 <= i < j < |ids| ==> ids[i] != ids[j]) ==>
      forall i, j :: 0 <= i < j < |Joined(genres, ids)| ==> Joined(genres, ids)[i] != Joined(genres, ids)[j]
  {
    var r := Joined(genres, ids);
    JoinedSpec(genres, ids);
    forall i | 0 <= i < |r|
      ensures genres.Some? && r[i] in genres.value && r[i].id == ids[i]
    {
      assert Lookup(genres, ids[i]) == Success(r[i]);
    }
  }

  /**
    * A table holding only id 1 and a film with ids [1, 2]: the join keeps id 1,
    * then throws `NoSuchElement(2)` instead of dropping id 2.
    */
  lemma MissingSecondIdThrows()
    ensures Joined(Some([Category(1, "Action")]), [1, 2]) == [Category(1, "Action")]
    ensures !Joinable(Some([Category(1, "Action")]), [1, 2])
    ensures FailureOf(Some([Category(1, "Action")]), [1, 2]) == NoSuchElement(2)
  {
    var table := [Category(1, "Action")];
    assert FirstIndex(table, 1) == 0;
    assert FirstIndex(table, 2) == 1;
    assert Lookup(Some(table), 2).Failure?;
    assert Joined(Some(table), [2]) == [];
    assert [1, 2][1..] == [2];
  }
}
