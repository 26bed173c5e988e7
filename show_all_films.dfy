/**
  * The catalogue screen itself: an object whose listeners and completion
  * handlers update its four fields in place. Each handler issues at most one
  * call and is specified by `Controller.Step`; `InitFilm` also overwrites the
  * `genres` list of every film of the batch it is handed.
  */
module ShowAllFilms {
  import opened Wrappers
  import opened Domain
  import opened GenreJoin
  import opened Controller

  /** An element left out of the first `k + 1` films is left out of the first `k` and is not film `k`. */
  lemma SliceMembership(films: seq<Film>, k: nat)
    requires k < |films|
    ensures forall j :: 0 <= j < |films| && films[j] !in films[..k + 1] ==> films[j] !in films[..k] && films[j] != films[k]
  {
    assert films[..k + 1] == films[..k] + [films[k]];
  }

  class ShowAllFilmsActivity {
    var loading: bool
    var page: Int32
    var films: seq<Film>
    var genres: Option<seq<Category>>
    /** The list last handed to the film adapter; `None` until this screen hands it one. */
    var shown: Option<seq<Film>>

    /** The screen's fields as a controller state. */
    function AsState(): State
      reads this
    {
      State(loading, page, films, genres)
    }

    /** The field initialisers. */
    constructor ()
      ensures AsState() == Initial && shown.None?
    {
      loading, page, films, genres := true, 1, [], None;
      shown := None;
    }

    /** The search view's close listener: page 1 of the full listing, from an empty list. */
    method OnClose() returns (request: Request, consumed: bool)
      modifies this
      ensures page == 1 && films == [] && loading == old(loading) && genres == old(genres) && shown == old(shown)
      ensures request == GetAllFilms(1) && !consumed
      ensures Step(old(AsState()), SearchClosed) == Reaction(AsState(), Some(request), None)
    {
      page := 1;
      films := [];
      request := GetAllFilms(page);
      consumed := false;
    }

    /** Submitted search text: page 1, an empty list, and a search for exactly that text. */
    method OnQueryTextSubmit(query: string) returns (request: Request, consumed: bool)
      modifies this
      ensures page == 1 && films == [] && loading == old(loading) && genres == old(genres) && shown == old(shown)
      ensures request == GetFilmsBySearch(query) && !consumed
      ensures Step(old(AsState()), QueryTextSubmit(query)) == Reaction(AsState(), Some(request), None)
    {
      page := 1;
      films := [];
      request := GetFilmsBySearch(query);
      consumed := false;
    }

    /** Changed search text, the empty text included: page 1, an empty list, and a search for that text. */
    method OnQueryTextChange(newText: string) returns (request: Request, consumed: bool)
      modifies this
      ensures page == 1 && films == [] && loading == old(loading) && genres == old(genres) && shown == old(shown)
      ensures request == GetFilmsBySearch(newText) && consumed
      ensures Step(old(AsState()), QueryTextChange(newText)) == Reaction(AsState(), Some(request), None)
    {
      page := 1;
      films := [];
      request := GetFilmsBySearch(newText);
      consumed := true;
    }

    /** The scroll listener: at the bottom and not loading, advance one page and ask for it. */
    method OnScrollStateChanged(atBottom: bool) returns (request: Option<Request>)
      modifies this
      ensures atBottom && !old(loading) ==> page == Inc(old(page)) && request == Some(GetAllFilms(page))
      ensures !(atBottom && !old(loading)) ==> page == old(page) && request.None?
      ensures films == old(films) && loading == old(loading) && genres == old(genres) && shown == old(shown)
      ensures Step(old(AsState()), ScrollStateChanged(atBottom)) == Reaction(AsState(), request, None)
    {
      request := None;
      if atBottom {
        if !loading {
          page := Inc(page);
          request := Some(GetAllFilms(page));
        }
      }
    }

    /** The genre call answered: keep the table (empty for a null body), then ask for the current page. */
    method OnGenresResponse(body: Option<seq<Category>>) returns (request: Request)
      modifies this
      ensures genres == Some(body.GetOr([]))
      ensures page == old(page) && films == old(films) && loading == old(loading) && shown == old(shown)
      ensures request == GetAllFilms(page)
      ensures Step(old(AsState()), GenresResponse(body)) == Reaction(AsState(), Some(request), None)
    {
      genres := Some(body.GetOr([]));
      request := GetAllFilms(page);
    }

    /** The genre call failed at transport level: it is only logged; no field changes and no film call is issued. */
    method OnGenresFailure() returns (request: Option<Request>)
      ensures request.None?
      ensures Step(AsState(), GenresFailure) == Reaction(AsState(), request, None)
    {
      request := None;
    }

    /**
      * `initFilm`: give every film of the batch a fresh genre list holding the
      * table entry of each of its genre ids, then append the batch, hand the
      * adapter the new list and clear `loading`. `ok` is false when the join
      * throws; the fields are then as before.
      */
    method InitFilm(newFilms: seq<Film>) returns (ok: bool)
      modifies this, newFilms
      ensures ok == BatchJoinable(genres, newFilms)
      ensures genres == old(genres) && page == old(page)
      ensures ok ==> films == old(films) + newFilms && !loading && shown == Some(films)
      ensures !ok ==> films == old(films) && loading == old(loading) && shown == old(shown)
      ensures Deliver(old(AsState()), newFilms) ==
        if ok then Reaction(AsState(), None, shown)
        else Crash(JoinFailed(FailureOf(genres, newFilms[FirstBadFilm(genres, newFilms)].genresId)))
      ensures forall j :: 0 <= j < |newFilms| && j <= FirstBadFilm(genres, newFilms) ==>
        newFilms[j].genres == Joined(genres, newFilms[j].genresId)
      ensures forall j :: FirstBadFilm(genres, newFilms) < j < |newFilms| &&
                          newFilms[j] !in newFilms[..FirstBadFilm(genres, newFilms) + 1] ==>
        newFilms[j].genres == old(newFilms[j].genres)
    {
      ok := JoinBatch(newFilms);
      if ok {
        films := films + newFilms;
        shown := Some(films);
        loading := false;
      }
    }

    /**
      * The two loops of `initFilm`: join the films one after the other, stopping
      * at the first one that throws. The films up to and including that one carry
      * the genres resolved so far; a film after it is untouched unless the same
      * film object also appears at or before that one.
      */
    method JoinBatch(newFilms: seq<Film>) returns (ok: bool)
      modifies newFilms
      ensures ok == BatchJoinable(genres, newFilms)
      ensures forall j :: 0 <= j < |newFilms| && j <= FirstBadFilm(genres, newFilms) ==>
        newFilms[j].genres == Joined(genres, newFilms[j].genresId)
      ensures forall j :: FirstBadFilm(genres, newFilms) < j < |newFilms| &&
                          newFilms[j] !in newFilms[..FirstBadFilm(genres, newFilms) + 1] ==>
        newFilms[j].genres == old(newFilms[j].genres)
    {
      ghost var bad := FirstBadFilm(genres, newFilms);
      BatchJoinableIffNoBadFilm(genres, newFilms);
      var idx := 0;
      while idx < |newFilms|
        invariant idx <= bad
        invariant forall j :: 0 <= j < idx ==> newFilms[j].genres == Joined(genres, newFilms[j].genresId)
        invariant forall j :: idx <= j < |newFilms| && newFilms[j] !in newFilms[..idx] ==>
          newFilms[j].genres == old(newFilms[j].genres)
      {
        var f := newFilms[idx];
        SliceMembership(newFilms, idx);
        var joined := JoinGenres(f);
        assert forall j :: 0 <= j <= idx ==> newFilms[j].genres == Joined(genres, newFilms[j].genresId);
        if !joined {
          // the exception escapes `initFilm`
          FirstBadFilmAt(genres, newFilms, idx);
          ok := false;
          return;
        }
        idx := idx + 1;
      }
      ok := true;
    }

    /**
      * The inner loop of `initFilm` on one film: a fresh genre list, then the
      * table entry of each genre id appended in turn. `ok` is false when a
      * lookup throws; the list then holds the entries resolved before it.
      */
    method JoinGenres(f: Film) returns (ok: bool)
      modifies f
      ensures ok == Joinable(genres, f.genresId)
      ensures f.genres == Joined(genres, f.genresId)
    {
      f.genres := [];
      var i := 0;
      while i < |f.genresId|
        invariant i <= |Joined(genres, f.genresId)|
        invariant f.genres == Joined(genres, f.genresId)[..i]
      {
        var found := Lookup(genres, f.genresId[i]);
        JoinStep(genres, f.genresId, i);
        if found.Failure? {
          ok := false;
          return;
        }
        f.genres := f.genres + [found.value];
        i := i + 1;
      }
      JoinableIffComplete(genres, f.genresId);
      ok := true;
    }

    /** A film listing or search stream emitted: a null page is an empty batch. */
    method OnFilmsEmitted(body: Option<seq<Film>>) returns (ok: bool)
      modifies this, body.GetOr([])
      ensures ok == BatchJoinable(genres, body.GetOr([]))
      ensures ok ==> Step(old(AsState()), FilmsEmitted(body)) == Reaction(AsState(), None, shown)
      ensures !ok ==> Step(old(AsState()), FilmsEmitted(body)).Crash? && AsState() == old(AsState()) && shown == old(shown)
    {
      ok := InitFilm(body.GetOr([]));
    }
  }
}
