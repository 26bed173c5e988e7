/**
  * The film-browsing controller of the catalogue screen as a state machine.
  * Its state is the four fields of the screen (`loading`, `page`, `films`,
  * `genres`); the listeners and the network completions are events. Network
  * calls are outputs (`Request`) and their completions are later input events,
  * which may arrive in any order: nothing ties a completion to the request that
  * caused it.
  */
module Controller {
  import opened Wrappers
  import opened Domain
  import opened GenreJoin

  /** The screen's fields. `genres` is `None` while the `lateinit` table is unset. */
  datatype State = State(loading: bool, page: Int32, films: seq<Film>, genres: Option<seq<Category>>)

  /** The field initialisers: loading, on page 1, with no films and no genre table. */
  const Initial: State := State(true, 1, [], None)

  /** A call issued on the catalogue service. */
  datatype Request =
    | GetGenres
    | GetAllFilms(page: Int32)
    | GetFilmsBySearch(query: string)

  /** What drives the screen: its listeners and the completions of its calls. */
  datatype Event =
    | SearchClosed                                  // the search view's close listener
    | QueryTextSubmit(query: string)                // search text submitted
    | QueryTextChange(newText: string)              // search text changed
    | ScrollStateChanged(atBottom: bool)            // scroll listener; `atBottom` is "cannot scroll further down"
    | GenresResponse(table: Option<seq<Category>>)  // the genre call answered (any HTTP status)
    | GenresFailure                                 // the genre call failed at transport level
    | FilmsEmitted(batch: Option<seq<Film>>)        // a film listing or search stream emitted a page
    | FilmsError                                    // a film listing or search stream signalled an error
  {
    /** The events that start a new query: page 1, no films. */
    predicate IsReset()
    {
      SearchClosed? || QueryTextSubmit? || QueryTextChange?
    }
  }

  /** Why the screen stops: an exception escapes a handler. */
  datatype Fault =
    | JoinFailed(error: JoinError) // thrown by the genre join in `initFilm`
    | UnhandledError               // the film stream's subscription has no error consumer

  /**
    * The result of one event: the new state, the call issued (if any) and the
    * list handed to the adapter (if any), or the exception that ends the screen.
    */
  datatype Reaction =
    | Reaction(next: State, request: Option<Request>, shown: Option<seq<Film>>)
    | Crash(fault: Fault)

  /** `initFilm` on a delivered batch: join every film, then append the batch and clear `loading`. */
  function Deliver(s: State, batch: seq<Film>): Reaction
  {
    var bad := FirstBadFilm(s.genres, batch);
    if bad < |batch| then
      Crash(JoinFailed(FailureOf(s.genres, batch[bad].genresId)))
    else
      var films := s.films + batch;
      Reaction(s.(films := films, loading := false), None, Some(films))
  }

  /** One event handled by the screen. */
  function Step(s: State, e: Event): Reaction
  {
    match e
    case SearchClosed =>
      Reaction(s.(page := 1, films := []), Some(GetAllFilms(1)), None)
    case QueryTextSubmit(query) =>
      Reaction(s.(page := 1, films := []), Some(GetFilmsBySearch(query)), None)
    case QueryTextChange(newText) =>
      Reaction(s.(page := 1, films := []), Some(GetFilmsBySearch(newText)), None)
    case ScrollStateChanged(atBottom) =>
      if atBottom && !s.loading then
        Reaction(s.(page := Inc(s.page)), Some(GetAllFilms(Inc(s.page))), None)
      else
        Reaction(s, None, None)
    case GenresResponse(body) =>
      Reaction(s.(genres := Some(body.GetOr([]))), Some(GetAllFilms(s.page)), None)
    case GenresFailure =>
      Reaction(s, None, None)
    case FilmsEmitted(body) =>
      Deliver(s, body.GetOr([]))
    case FilmsError =>
      Crash(UnhandledError)
  }

  /** How a run of events ends: still running in some state, or stopped by an exception. */
  datatype End = Live(state: State) | Halted(fault: Fault)

  /** The calls issued along a run, in order, and how the run ends. */
  datatype Trace = Trace(requests: seq<Request>, end: End)

  function Issued(request: Option<Request>): seq<Request>
  {
    if request.Some? then [request.value] else []
  }

  /** The events `es` handled one after the other from `s`; an exception ends the run. */
  function Run(s: State, es: seq<Event>): Trace
    decreases |es|
  {
    if es == [] then Trace([], Live(s))
    else
      match Step(s, es[0])
      case Crash(fault) => Trace([], Halted(fault))
      case Reaction(next, request, _) =>
        var rest := Run(next, es[1..]);
        Trace(Issued(request) + rest.requests, rest.end)
  }

  /** The events delivering the batches `batches`, one emission each. */
  function Emissions(batches: seq<seq<Film>>): (es: seq<Event>)
  {
    if batches == [] then [] else [FilmsEmitted(Some(batches[0]))] + Emissions(batches[1..])
  }

  /** A run goes on from the state its first event leads to. */
  lemma RunFirst(s: State, e: Event, es: seq<Event>)
    requires Step(s, e).Reaction?
    ensures Run(s, [e] + es) ==
      Trace(Issued(Step(s, e).request) + Run(Step(s, e).next, es).requests, Run(Step(s, e).next, es).end)
  {
    assert ([e] + es)[1..] == es;
  }

  /** The batches one after the other. */
  function Concat(batches: seq<seq<Film>>): seq<Film>
  {
    if batches == [] then [] else batches[0] + Concat(batches[1..])
  }

  /** The number of films in all batches together. */
  function TotalSize(batches: seq<seq<Film>>): nat
  {
    if batches == [] then 0 else |batches[0]| + TotalSize(batches[1..])
  }

  lemma {:induction false} ConcatSize(batches: seq<seq<Film>>)
    ensures |Concat(batches)| == TotalSize(batches)
  {
    if batches != [] {
      ConcatSize(batches[1..]);
    }
  }

  // ---------------------------------------------------------------------------
  // Single events
  // ---------------------------------------------------------------------------

  /**
    * Closing the search, submitting text or changing text (to anything, the empty
    * text included) goes back to page 1 with no films; closing asks for page 1 of
    * the full listing, the other two search for exactly that text. Nothing else changes.
    */
  lemma ResetStartsOver(s: State, e: Event)
    requires e.IsReset()
    ensures Step(s, e).Reaction?
    ensures Step(s, e).next == State(s.loading, 1, [], s.genres)
    ensures Step(s, e).shown.None?
    ensures e.SearchClosed? ==> Step(s, e).request == Some(GetAllFilms(1))
    ensures e.QueryTextSubmit? ==> Step(s, e).request == Some(GetFilmsBySearch(e.query))
    ensures e.QueryTextChange? ==> Step(s, e).request == Some(GetFilmsBySearch(e.newText))
  {
  }

  /** An empty search text still calls the search endpoint; it does not switch to the full listing. */
  lemma EmptyTextStillSearches(s: State)
    ensures Step(s, QueryTextChange("")).request == Some(GetFilmsBySearch(""))
    ensures Step(s, QueryTextSubmit("")).request == Some(GetFilmsBySearch(""))
  {
  }

  /** Reaching the bottom while not loading moves to the next page and asks for it; nothing else changes. */
  lemma ScrollAdvancesOnePage(s: State)
    requires !s.loading
    ensures Step(s, ScrollStateChanged(true)).Reaction?
    ensures s.page < MaxInt32 ==> Step(s, ScrollStateChanged(true)).next.page as int == s.page as int + 1
    ensures Step(s, ScrollStateChanged(true)).next.(page := s.page) == s
    ensures Step(s, ScrollStateChanged(true)).request == Some(GetAllFilms(Step(s, ScrollStateChanged(true)).next.page))
  {
  }

  /** While loading, or when not at the bottom, a scroll changes nothing and asks for nothing. */
  lemma ScrollIgnored(s: State, atBottom: bool)
    requires s.loading || !atBottom
    ensures Step(s, ScrollStateChanged(atBottom)) == Reaction(s, None, None)
  {
  }

  /** An answered genre call sets the table (empty for a null body) and asks for the current page. */
  lemma GenresResponseFetchesPage(s: State, body: Option<seq<Category>>)
    ensures Step(s, GenresResponse(body)).Reaction?
    ensures Step(s, GenresResponse(body)).next == s.(genres := Some(if body.Some? then body.value else []))
    ensures Step(s, GenresResponse(body)).request == Some(GetAllFilms(s.page))
  {
  }

  /** A failed genre call leaves the table unset and issues no film call. */
  lemma GenresFailureIsSilent(s: State)
    ensures Step(s, GenresFailure) == Reaction(s, None, None)
  {
  }

  /**
    * A batch whose films all join is appended after the films already shown, in
    * order; the adapter receives that same list and `loading` is cleared.
    */
  lemma DeliveryAppends(s: State, batch: seq<Film>)
    requires BatchJoinable(s.genres, batch)
    ensures Step(s, FilmsEmitted(Some(batch))).Reaction?
    ensures Step(s, FilmsEmitted(Some(batch))).next.films == s.films + batch
    ensures |Step(s, FilmsEmitted(Some(batch))).next.films| == |s.films| + |batch|
    ensures Step(s, FilmsEmitted(Some(batch))).shown == Some(s.films + batch)
    ensures !Step(s, FilmsEmitted(Some(batch))).next.loading
    ensures Step(s, FilmsEmitted(Some(batch))).next.page == s.page
    ensures Step(s, FilmsEmitted(Some(batch))).request.None?
  {
    assert FirstBadFilm(s.genres, batch) == |batch|;
  }

  /** A null emission counts as an empty batch: nothing is appended, but `loading` is cleared. */
  lemma NullBatchClearsLoading(s: State)
    ensures Step(s, FilmsEmitted(None)) == Reaction(s.(loading := false), None, Some(s.films))
  {
    assert s.films + [] == s.films;
  }

  /** One film with an unresolvable genre id makes the whole delivery throw. */
  lemma DeliveryThrowsOnMissingId(s: State, batch: seq<Film>, j: nat, i: nat)
    requires j < |batch| && i < |batch[j].genresId|
    requires Lookup(s.genres, batch[j].genresId[i]).Failure?
    ensures Step(s, FilmsEmitted(Some(batch))).Crash?
    ensures Step(s, FilmsEmitted(Some(batch))).fault.JoinFailed?
  {
    assert !Joinable(s.genres, batch[j].genresId);
    assert FirstBadFilm(s.genres, batch) <= j;
  }

  /** No event ever sets `loading` back to true. */
  lemma LoadingNeverRaised(s: State, e: Event)
    requires Step(s, e).Reaction?
    ensures Step(s, e).next.loading ==> s.loading
  {
  }

  // ---------------------------------------------------------------------------
  // Runs of events
  // ---------------------------------------------------------------------------

  /** Once `loading` is false it stays false, whatever events follow. */
  lemma {:induction false} LoadingStaysCleared(s: State, es: seq<Event>)
    requires !s.loading
    requires Run(s, es).end.Live?
    ensures !Run(s, es).end.state.loading
    decreases |es|
  {
    if es != [] {
      LoadingNeverRaised(s, es[0]);
      LoadingStaysCleared(Step(s, es[0]).next, es[1..]);
    }
  }

  /** Once any batch has arrived, every later scroll to the bottom asks for another page. */
  lemma {:induction false} ScrollNeverGatedAgain(s: State, batch: seq<Film>, es: seq<Event>)
    requires BatchJoinable(s.genres, batch)
    requires Run(s, [FilmsEmitted(Some(batch))] + es).end.Live?
    ensures Step(Run(s, [FilmsEmitted(Some(batch))] + es).end.state, ScrollStateChanged(true)).request.Some?
  {
    var all := [FilmsEmitted(Some(batch))] + es;
    DeliveryAppends(s, batch);
    var after := Step(s, FilmsEmitted(Some(batch))).next;
    assert all[1..] == es;
    assert Run(s, all).end == Run(after, es).end;
    LoadingStaysCleared(after, es);
  }

  /** The films delivered by the emissions among `es`, one batch after the other; a null page delivers none. */
  function Delivered(es: seq<Event>): seq<Film>
    decreases |es|
  {
    if es == [] then []
    else (if es[0].FilmsEmitted? then es[0].batch.GetOr([]) else []) + Delivered(es[1..])
  }

  /**
    * Without a reset, a run only appends: the films at the end are the films at
    * the start followed by every delivered batch, in arrival order, whatever
    * scrolls and genre answers come in between.
    */
  lemma {:induction false} AppendOnlyWithinQuery(s: State, es: seq<Event>)
    requires forall i :: 0 <= i < |es| ==> !es[i].IsReset()
    requires Run(s, es).end.Live?
    ensures Run(s, es).end.state.films == s.films + Delivered(es)
    ensures s.films <= Run(s, es).end.state.films
    ensures |Run(s, es).end.state.films| == |s.films| + |Delivered(es)|
    decreases |es|
  {
    if es != [] {
      var next := Step(s, es[0]).next;
      var d := if es[0].FilmsEmitted? then es[0].batch.GetOr([]) else [];
      assert next.films == s.films + d;
      AppendOnlyWithinQuery(next, es[1..]);
      assert Run(s, es).end == Run(next, es[1..]).end;
      assert s.films + (d + Delivered(es[1..])) == (s.films + d) + Delivered(es[1..]);
    }
  }

  /**
    * Batches that all join are accumulated in arrival order: after them the films
    * are the old films followed by every batch. No call is issued; the page and
    * the table stay the same.
    */
  lemma {:induction false} BatchesAccumulate(s: State, batches: seq<seq<Film>>)
    requires forall i :: 0 <= i < |batches| ==> BatchJoinable(s.genres, batches[i])
    ensures Run(s, Emissions(batches)) ==
      Trace([], Live(s.(films := s.films + Concat(batches), loading := s.loading && batches == [])))
    decreases |batches|
  {
    if batches == [] {
      assert s.films + [] == s.films;
    } else {
      var e, rest := FilmsEmitted(Some(batches[0])), Emissions(batches[1..]);
      var next := s.(films := s.films + batches[0], loading := false);
      assert Run(s, Emissions(batches)) == Trace([] + Run(next, rest).requests, Run(next, rest).end) by {
        DeliveryAppends(s, batches[0]);
        assert Step(s, e) == Reaction(next, None, Some(next.films));
        RunFirst(s, e, rest);
      }
      assert Run(next, rest) ==
        Trace([], Live(next.(films := next.films + Concat(batches[1..]), loading := false))) by {
        assert forall i :: 0 <= i < |batches[1..]| ==> batches[1..][i] == batches[i + 1];
        BatchesAccumulate(next, batches[1..]);
      }
      assert (s.films + batches[0]) + Concat(batches[1..]) == s.films + (batches[0] + Concat(batches[1..]));
    }
  }

  /** After batches that all join, the number of films is the old number plus the sum of the batch sizes. */
  lemma AccumulatedCount(s: State, batches: seq<seq<Film>>)
    requires forall i :: 0 <= i < |batches| ==> BatchJoinable(s.genres, batches[i])
    ensures Run(s, Emissions(batches)).end.Live?
    ensures |Run(s, Emissions(batches)).end.state.films| == |s.films| + TotalSize(batches)
  {
    BatchesAccumulate(s, batches);
    ConcatSize(batches);
  }

  // ---------------------------------------------------------------------------
  // Scenarios
  // ---------------------------------------------------------------------------

  /**
    * Start-up: the genre table arrives, page 1 is fetched and delivered, the user
    * scrolls to the bottom, page 2 is fetched and appended after page 1.
    */
  lemma BrowseTwoPages(table: seq<Category>, page1: seq<Film>, page2: seq<Film>)
    requires BatchJoinable(Some(table), page1) && BatchJoinable(Some(table), page2)
    ensures Run(Initial, [GenresResponse(Some(table)), FilmsEmitted(Some(page1)),
                          ScrollStateChanged(true), FilmsEmitted(Some(page2))])
         == Trace([GetAllFilms(1), GetAllFilms(2)], Live(State(false, 2, page1 + page2, Some(table))))
  {
    var s1 := Initial.(genres := Some(table));
    var s2 := s1.(films := page1, loading := false);
    var e1, e2, e3, e4 := GenresResponse(Some(table)), FilmsEmitted(Some(page1)),
                          ScrollStateChanged(true), FilmsEmitted(Some(page2));
    ScrollThenDeliver(s2, page2);
    assert Inc(s2.page) == 2;
    assert Run(s1, [e2, e3, e4]) == Trace([GetAllFilms(2)], Live(State(false, 2, page1 + page2, Some(table)))) by {
      DeliveryAppends(s1, page1);
      assert s1.films + page1 == page1;
      RunFirst(s1, e2, [e3, e4]);
      assert [e2, e3, e4] == [e2] + [e3, e4];
    }
    RunFirst(Initial, e1, [e2, e3, e4]);
    assert [e1, e2, e3, e4] == [e1] + [e2, e3, e4];
  }

  /** Scrolling to the bottom once not loading, then receiving a batch that joins, appends that next page. */
  lemma ScrollThenDeliver(s: State, batch: seq<Film>)
    requires !s.loading && BatchJoinable(s.genres, batch)
    ensures Run(s, [ScrollStateChanged(true), FilmsEmitted(Some(batch))])
         == Trace([GetAllFilms(Inc(s.page))], Live(s.(page := Inc(s.page), films := s.films + batch)))
  {
    var s1 := s.(page := Inc(s.page));
    var s2 := s1.(films := s.films + batch);
    var e1, e2 := ScrollStateChanged(true), FilmsEmitted(Some(batch));
    assert Run(s1, [e2]) == Trace([], Live(s2)) by {
      DeliveryAppends(s1, batch);
      RunFirst(s1, e2, []);
      assert [e2] == [e2] + [];
    }
    RunFirst(s, e1, [e2]);
    assert [e1, e2] == [e1] + [e2];
  }

  /** Scrolling before the first batch has arrived does nothing: `loading` starts true. */
  lemma ScrollBeforeFirstBatchIgnored()
    ensures Run(Initial, [ScrollStateChanged(true)]) == Trace([], Live(Initial))
  {
  }

  /** Searching, then closing the search, leaves page 1, no films, and a call for page 1 of the full listing. */
  lemma CloseAfterSearch(s: State, query: string)
    ensures Run(s, [QueryTextChange(query), SearchClosed])
         == Trace([GetFilmsBySearch(query), GetAllFilms(1)], Live(s.(page := 1, films := [])))
  {
    var r := s.(page := 1, films := []);
    assert Run(r, [SearchClosed]) == Trace([GetAllFilms(1)], Live(r));
    assert [QueryTextChange(query), SearchClosed][1..] == [SearchClosed];
  }

  /**
    * Superseded searches are not discarded: after two text changes, a late answer
    * to the first one is shown before the answer to the second.
    */
  lemma StaleAnswerIsAppended(s: State, first: string, second: string, answer1: seq<Film>, answer2: seq<Film>)
    requires BatchJoinable(s.genres, answer1) && BatchJoinable(s.genres, answer2)
    ensures Run(s, [QueryTextChange(first), QueryTextChange(second),
                    FilmsEmitted(Some(answer1)), FilmsEmitted(Some(answer2))])
         == Trace([GetFilmsBySearch(first), GetFilmsBySearch(second)],
                  Live(s.(page := 1, films := answer1 + answer2, loading := false)))
  {
    var r := s.(page := 1, films := []);
    var e1, e2, e3, e4 := QueryTextChange(first), QueryTextChange(second),
                          FilmsEmitted(Some(answer1)), FilmsEmitted(Some(answer2));
    TwoBatchesAppend(r, answer1, answer2);
    assert r.films + answer1 == answer1;
    RunFirst(r, e2, [e3, e4]);
    RunFirst(s, e1, [e2, e3, e4]);
    assert [e1, e2, e3, e4] == [e1] + [e2, e3, e4];
    assert [e2, e3, e4] == [e2] + [e3, e4];
  }

  /**
    * The race of superseded searches: after two text changes, the answer to the
    * second search arrives first and the late answer to the first one is then
    * appended after it, so the stale results end up below the newer ones.
    */
  lemma LateAnswerLandsAfterNewer(s: State, first: string, second: string, answer1: seq<Film>, answer2: seq<Film>)
    requires BatchJoinable(s.genres, answer1) && BatchJoinable(s.genres, answer2)
    ensures Run(s, [QueryTextChange(first), QueryTextChange(second),
                    FilmsEmitted(Some(answer2)), FilmsEmitted(Some(answer1))])
         == Trace([GetFilmsBySearch(first), GetFilmsBySearch(second)],
                  Live(s.(page := 1, films := answer2 + answer1, loading := false)))
  {
    var r := s.(page := 1, films := []);
    var e1, e2, e3, e4 := QueryTextChange(first), QueryTextChange(second),
                          FilmsEmitted(Some(answer2)), FilmsEmitted(Some(answer1));
    TwoBatchesAppend(r, answer2, answer1);
    assert r.films + answer2 == answer2;
    RunFirst(r, e2, [e3, e4]);
    RunFirst(s, e1, [e2, e3, e4]);
    assert [e1, e2, e3, e4] == [e1] + [e2, e3, e4];
    assert [e2, e3, e4] == [e2] + [e3, e4];
  }

  /** Two batches that join, delivered one after the other, are appended in that order. */
  lemma TwoBatchesAppend(s: State, batch1: seq<Film>, batch2: seq<Film>)
    requires BatchJoinable(s.genres, batch1) && BatchJoinable(s.genres, batch2)
    ensures Run(s, [FilmsEmitted(Some(batch1)), FilmsEmitted(Some(batch2))])
         == Trace([], Live(s.(films := s.films + batch1 + batch2, loading := false)))
  {
    var batches := [batch1, batch2];
    var none: seq<seq<Film>> := [];
    assert batches[1..] == [batch2] && batches[1..][1..] == none;
    assert Emissions(batches) == [FilmsEmitted(Some(batch1)), FilmsEmitted(Some(batch2))] by {
      assert Emissions(batches[1..]) == [FilmsEmitted(Some(batch2))] + Emissions(none);
    }
    assert Concat(batches) == batch1 + batch2 by {
      assert Concat(batches[1..]) == batch2 + Concat(none);
      assert batch2 + [] == batch2;
    }
    BatchesAccumulate(s, batches);
    assert s.films + (batch1 + batch2) == s.films + batch1 + batch2;
  }

  /**
    * A search answered before the genre table has arrived throws as soon as one
    * of its films carries a genre id.
    */
  lemma SearchBeforeGenresThrows(query: string, batch: seq<Film>, j: nat)
    requires j < |batch| && batch[j].genresId != []
    ensures Run(Initial, [QueryTextChange(query), FilmsEmitted(Some(batch))])
         == Trace([GetFilmsBySearch(query)], Halted(JoinFailed(GenresUninitialized)))
  {
    UnsetTableFails(batch[j].genresId);
    var bad := FirstBadFilm(None, batch);
    assert bad <= j;
    UnsetTableFails(batch[bad].genresId);
    var es := [QueryTextChange(query), FilmsEmitted(Some(batch))];
    assert es[1..][1..] == [];
  }

  /** A film stream that signals an error ends the screen, whatever the state. */
  lemma StreamErrorIsUnhandled(s: State)
    ensures Step(s, FilmsError) == Crash(UnhandledError)
  {
  }
}
