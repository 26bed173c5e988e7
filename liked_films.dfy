/**
  * The favourites screen: read every favourite record of the realtime database,
  * keep the current user's, show the empty-state label when none remain, ask
  * the catalogue for each remaining film and append each answer to the list.
  */
module LikedFilms {
  import opened Wrappers
  import opened Domain

  /** The signed-in user as the authentication service reports it. */
  datatype User = User(email: Option<string>)

  /**
    * `currentUser?.email.toString()`: the user's email, or the text "null" when
    * there is no user or the user has no email.
    */
  function EmailText(user: Option<User>): string
  {
    match user
    case Some(User(Some(email))) => email
    case _ => "null"
  }

  /** `favoris.stream().filter { it.userEmail == email }.collect(...)`: the user's records, in order. */
  function ForUser(favoris: seq<Favori>, email: string): (r: seq<Favori>)
    ensures |r| <= |favoris|
    ensures forall x :: x in r <==> x in favoris && x.userEmail == email
  {
    if favoris == [] then []
    else if favoris[0].userEmail == email then [favoris[0]] + ForUser(favoris[1..], email)
    else ForUser(favoris[1..], email)
  }

  /** Filtering keeps the order: the filter of two parts one after the other is the two filters one after the other. */
  lemma {:induction false} ForUserDistributes(a: seq<Favori>, b: seq<Favori>, email: string)
    ensures ForUser(a + b, email) == ForUser(a, email) + ForUser(b, email)
  {
    if a == [] {
      assert a + b == b;
    } else {
      assert (a + b)[1..] == a[1..] + b;
      ForUserDistributes(a[1..], b, email);
    }
  }

  /** Records of the user are all kept, in order; nothing of another user is kept. */
  lemma {:induction false} ForUserKeepsMatching(favoris: seq<Favori>, email: string)
    ensures (forall i :: 0 <= i < |favoris| ==> favoris[i].userEmail == email) ==> ForUser(favoris, email) == favoris
    ensures (forall i :: 0 <= i < |favoris| ==> favoris[i].userEmail != email) ==> ForUser(favoris, email) == []
  {
    if favoris != [] {
      ForUserKeepsMatching(favoris[1..], email);
    }
  }

  /** Filtering twice is filtering once. */
  lemma {:induction false} ForUserIdempotent(favoris: seq<Favori>, email: string)
    ensures ForUser(ForUser(favoris, email), email) == ForUser(favoris, email)
  {
    var r := ForUser(favoris, email);
    forall i | 0 <= i < |r| ensures r[i].userEmail == email {
      assert r[i] in r;
    }
    ForUserKeepsMatching(r, email);
  }

  /** Without a signed-in user, only the records whose email is the text "null" are kept. */
  lemma NoUserKeepsNullEmails(favoris: seq<Favori>)
    ensures ForUser(favoris, EmailText(None)) == ForUser(favoris, "null")
    ensures forall x :: x in ForUser(favoris, EmailText(None)) <==> x in favoris && x.userEmail == "null"
  {
  }

  /**
    * `toString` of a missing email gives the same text as a real email "null": a
    * user without an email, a user whose email is "null" and no user at all keep
    * the same records.
    */
  lemma NullEmailTextsCoincide(favoris: seq<Favori>)
    ensures ForUser(favoris, EmailText(Some(User(None)))) == ForUser(favoris, EmailText(None))
    ensures ForUser(favoris, EmailText(Some(User(Some("null"))))) == ForUser(favoris, EmailText(None))
  {
  }

  /** The values of the snapshot's children up to, not including, the first null one. */
  function Unwrapped(children: seq<Option<Favori>>): (r: seq<Favori>)
    ensures |r| <= |children|
  {
    if children == [] || children[0].None? then []
    else [children[0].value] + Unwrapped(children[1..])
  }

  /** The collected records are the children's values, in order, and the child just past them is null. */
  lemma {:induction false} UnwrappedSpec(children: seq<Option<Favori>>)
    ensures forall i :: 0 <= i < |Unwrapped(children)| ==> children[i] == Some(Unwrapped(children)[i])
    ensures |Unwrapped(children)| < |children| ==> children[|Unwrapped(children)|].None?
  {
    if children != [] && children[0].Some? {
      UnwrappedSpec(children[1..]);
    }
  }

  /** One step of the collecting loop at position `k`: a present value extends the prefix; a null one ends it. */
  lemma UnwrappedStep(children: seq<Option<Favori>>, k: nat)
    requires k < |children| && k <= |Unwrapped(children)|
    ensures children[k].Some? ==>
      k < |Unwrapped(children)| && Unwrapped(children)[..k + 1] == Unwrapped(children)[..k] + [children[k].value]
    ensures children[k].None? ==> Unwrapped(children)[..k] == Unwrapped(children)
  {
    var r := Unwrapped(children);
    UnwrappedSpec(children);
    if k < |r| {
      assert children[k] == Some(r[k]);
      assert r[..k + 1] == r[..k] + [r[k]];
    } else {
      assert children[k].None?;
    }
  }

  class LikedFilmsActivity {
    /** The email read when the screen is created. */
    const userEmail: string
    var favoris: seq<Favori>
    var films: seq<Film>
    /** Whether the empty-state label is visible. */
    var labelVisible: bool
    /** The list last handed to the film adapter; `None` until this screen hands it one. */
    var shown: Option<seq<Film>>

    /** `onCreate` up to registering the listener; the label starts as the layout has it. */
    constructor (user: Option<User>, labelVisible: bool)
      ensures userEmail == EmailText(user) && favoris == [] && films == []
      ensures this.labelVisible == labelVisible && shown.None?
    {
      userEmail := EmailText(user);
      favoris := [];
      films := [];
      this.labelVisible := labelVisible;
      shown := None;
    }

    /**
      * `onDataChange` with the children of the "favoris" node: collect them, keep
      * the user's, show the label if none remain, then ask for each remaining
      * film, in order. `ok` is false when a child's value is null (`!!` throws);
      * the records before it have been collected and nothing was asked for.
      */
    method OnDataChange(children: seq<Option<Favori>>) returns (ok: bool, fetches: seq<int>)
      modifies this
      ensures ok <==> forall i :: 0 <= i < |children| ==> children[i].Some?
      ensures films == old(films) && shown == old(shown)
      ensures !ok ==> favoris == old(favoris) + Unwrapped(children) && labelVisible == old(labelVisible) && fetches == []
      ensures ok ==> favoris == ForUser(old(favoris) + Unwrapped(children), userEmail)
      ensures ok ==> labelVisible == (old(labelVisible) || favoris == [])
      ensures ok ==> |fetches| == |favoris| && forall i :: 0 <= i < |favoris| ==> fetches[i] == favoris[i].filmId
    {
      var k := 0;
      while k < |children|
        invariant k <= |Unwrapped(children)|
        invariant favoris == old(favoris) + Unwrapped(children)[..k]
        invariant films == old(films) && shown == old(shown) && labelVisible == old(labelVisible)
      {
        UnwrappedStep(children, k);
        if children[k].None? {
          ok, fetches := false, [];
          return;
        }
        favoris := favoris + [children[k].value];
        k := k + 1;
      }
      assert Unwrapped(children)[..k] == Unwrapped(children);
      UnwrappedSpec(children);
      favoris := ForUser(favoris, userEmail);
      if |favoris| == 0 {
        labelVisible := true;
      }
      fetches := [];
      for i := 0 to |favoris|
        invariant |fetches| == i
        invariant forall j :: 0 <= j < i ==> fetches[j] == favoris[j].filmId
      {
        fetches := fetches + [favoris[i].filmId];
      }
      ok := true;
    }

    /**
      * A film call answered: append its body to the list in place and hand the
      * adapter the list. `ok` is false for a null body (`!!` throws): nothing changes.
      */
    method OnFilmResponse(body: Option<Film>) returns (ok: bool)
      modifies this
      ensures ok == body.Some?
      ensures ok ==> films == old(films) + [body.value] && shown == Some(films)
      ensures !ok ==> films == old(films) && shown == old(shown)
      ensures favoris == old(favoris) && labelVisible == old(labelVisible)
    {
      if body.None? {
        ok := false;
        return;
      }
      films := films + [body.value];
      shown := Some(films);
      ok := true;
    }

    /** A film call failed: it is only logged. */
    method OnFilmFailure()
      ensures films == old(films) && shown == old(shown)
    {
    }
  }
}
