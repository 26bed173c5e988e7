# Film catalogue screens of the FilmsChecker Android app

FilmsChecker is an Android app that shows films from a movie catalogue. This
project models the logic of two of its screens.

**The catalogue screen** (`ShowAllFilmsActivity`) keeps four fields:

- `loading`: true until the first page arrives;
- `page`: a Kotlin `Int`;
- `films`: the list shown so far;
- `genres`: the genre table, a `lateinit` list.

Its listeners (close search, submit text, change text, scroll) and the
completions of its network calls (the genre table, a film page or search
stream) update these fields. Each delivered batch goes through `initFilm`.
That function resolves every film's genre ids against the genre table. Each
id gets the first table entry with that id; if an id has no entry,
`findFirst().get()` throws. The batch is then appended to the shown list.

**The favourites screen** (`LikedFilmsActivity`) does five things:

- reads the favourite records of the realtime database;
- keeps the current user's records, in snapshot order;
- shows an empty-state label when none remain;
- asks the catalogue once per remaining record;
- appends each answered film to an in-place list.

The project is arranged as follows:

- `wrappers.dfy`: `Option` (Kotlin's nullable values and the elvis operator) and `Result`.
- `domain.dfy`: 32-bit `Int` with its wrapping `page++`. Also the records `Category` and `Favori`, and the `Film` class whose `genres` list is overwritten in place.
- `genre_join.dfy`: the genre join of `initFilm` as pure functions. `Lookup` reproduces `filter`/`findFirst`/`get`, including the unset `lateinit` table. `Joined` is what a film's list holds when the loop stops, and `FailureOf` is the exception it throws.
- `controller.dfy`: the catalogue screen as a state machine.
  - `Step` handles one event and gives the new state, the call issued and the list handed to the adapter, or the exception that ends the screen.
  - `Run` folds `Step` over a sequence of events.
  - Network completions are input events that may come in any order. Nothing ties an answer to the request that caused it.
- `show_all_films.dfy`: the catalogue screen as a class with those fields.
  - Each handler is a method that updates the fields in place and is tied to `Step` by its postcondition.
  - `InitFilm` runs the two nested loops of `initFilm` over the `Film` objects and overwrites their `genres`.
- `liked_films.dfy`: the favourites screen as a class.
  - The collecting loop, the email filter (`ForUser`), the label and the per-record fetches are in `OnDataChange`.
  - The completion handlers of the film calls are methods of the same class.

`onCreate` changes none of the modelled fields. It ends with `getCategories()`, which requests the genre table (`GetGenres`). That request starts every session, and the genre events of `Step` are its completions.

An exception that escapes a handler is modelled as an outcome: `Crash` in `Step`, `Halted` at the end of a `Run`, and `ok == false` from a class method. The Dafny functions `Step`, `Deliver` and `Run` have no contract of their own. They are the reference definitions that the lemmas below and the class methods' postconditions are stated against.

In these points the model follows the code as written:

- A genre id with no entry in the table throws (`NoSuchElement`). It is not dropped.
- The genre table is read only when a film has at least one genre id. Before the genre call has answered, such a film throws (`GenresUninitialized`); a film without ids joins.
- `loading` starts true and is only ever set to false.
- An empty search text still calls the search endpoint.
- A failed genre call is only logged. No film call is issued from that path.
- The film streams are subscribed without an error consumer, so a stream error ends the screen.
- Answers to superseded searches are not discarded. A late answer to an older search is appended after the newer results when it arrives after them (`Controller.LateAnswerLandsAfterNewer`), and before them when it arrives first (`Controller.StaleAnswerIsAppended`).
- With no signed-in user, or a user without an email, the compared email is the text `"null"`.

## Model

| member | source | states |
|---|---|---|
| `Domain.Inc` | app/src/main/java/com/example/filmschecker/ShowAllFilmsActivity.kt:101 | `page++` on a 32-bit `Int` adds exactly one below the maximum and is always the successor modulo 2^32 |
| `GenreJoin.FirstIndex` | app/src/main/java/com/example/filmschecker/ShowAllFilmsActivity.kt:151 | the index found has the id and no earlier entry has it; it is the table length when no entry has the id |
| `GenreJoin.FindFirst` | app/src/main/java/com/example/filmschecker/ShowAllFilmsActivity.kt:151 | `filter { it.id == id }.findFirst()` is empty exactly when no entry has the id; otherwise it is a table entry with that id, and no earlier entry has that id |
| `GenreJoin.Lookup` | app/src/main/java/com/example/filmschecker/ShowAllFilmsActivity.kt:151 | an unset table throws `GenresUninitialized`; a success is a table entry with the id; a failure on a set table is `NoSuchElement(id)`, and then no entry has the id |
| `GenreJoin.Joined` | app/src/main/java/com/example/filmschecker/ShowAllFilmsActivity.kt:149-152 | the list a film's `genres` holds when the inner loop stops is never longer than its ids |
| `GenreJoin.JoinedSpec` | app/src/main/java/com/example/filmschecker/ShowAllFilmsActivity.kt:149-152 | entry `i` of that list is the lookup of id `i`; the lookup just past its end throws |
| `GenreJoin.FailureOf` | app/src/main/java/com/example/filmschecker/ShowAllFilmsActivity.kt:150-152 | the exception thrown is the failure of some id's lookup, and every lookup before that id succeeded |
| `GenreJoin.FirstBadFilm` | app/src/main/java/com/example/filmschecker/ShowAllFilmsActivity.kt:148-153 | the films before the index found all join and the film at the index does not; it is the batch length when all join |
| `GenreJoin.JoinStep` | app/src/main/java/com/example/filmschecker/ShowAllFilmsActivity.kt:150-152 | at position `i`, a resolved id extends the list by its entry, and an id that throws is where the list ends |
| `GenreJoin.FirstBadFilmAt` | app/src/main/java/com/example/filmschecker/ShowAllFilmsActivity.kt:148-153 | the outer loop's first film that does not join is the one where `initFilm` throws, and the batch then does not join |
| `GenreJoin.BatchJoinableIffNoBadFilm` | app/src/main/java/com/example/filmschecker/ShowAllFilmsActivity.kt:148-153 | every film of a batch joins if and only if the outer loop runs to the end of the batch |
| `GenreJoin.JoinableIffComplete` | app/src/main/java/com/example/filmschecker/ShowAllFilmsActivity.kt:150-152 | every id resolves if and only if the inner loop fills a list as long as the ids |
| `GenreJoin.JoinKeepsPositions` | app/src/main/java/com/example/filmschecker/ShowAllFilmsActivity.kt:148-152 | when every id resolves, the genres have the same length as the ids, and entry `i` is the first table entry whose id is id `i` |
| `GenreJoin.MissingIdFails` | app/src/main/java/com/example/filmschecker/ShowAllFilmsActivity.kt:151 | an id with no entry in the table makes the join throw, at that id or earlier |
| `GenreJoin.UnsetTableFails` | app/src/main/java/com/example/filmschecker/ShowAllFilmsActivity.kt:151 | with the table unset, a film with a genre id throws `GenresUninitialized` at its first id and keeps an empty list |
| `GenreJoin.NoIdsAlwaysJoin` | app/src/main/java/com/example/filmschecker/ShowAllFilmsActivity.kt:149-150 | a film without genre ids joins against any table, even an unset one, and gets an empty list |
| `GenreJoin.JoinedGenresAreListed` | app/src/main/java/com/example/filmschecker/ShowAllFilmsActivity.kt:149-152 | the join yields only table entries whose ids the film lists, and no entry twice when the ids are distinct |
| `GenreJoin.MissingSecondIdThrows` | app/src/main/java/com/example/filmschecker/ShowAllFilmsActivity.kt:151 | a table with only genre 1 and a film with ids [1, 2]: the list keeps genre 1, then the join throws `NoSuchElement(2)` instead of dropping the id |
| `Controller.ResetStartsOver` | app/src/main/java/com/example/filmschecker/ShowAllFilmsActivity.kt:69-92 | closing, submitting or changing the search goes to page 1 with no films and keeps `loading` and the table. Closing asks for page 1 of the listing; the other two search for exactly their text |
| `Controller.EmptyTextStillSearches` | app/src/main/java/com/example/filmschecker/ShowAllFilmsActivity.kt:139-141 | empty search text, submitted or typed, calls the search endpoint with the empty text |
| `Controller.ScrollAdvancesOnePage` | app/src/main/java/com/example/filmschecker/ShowAllFilmsActivity.kt:99-104 | at the bottom and not loading, the page goes up by exactly one (below the `Int` maximum), nothing else changes, and that new page is requested |
| `Controller.ScrollIgnored` | app/src/main/java/com/example/filmschecker/ShowAllFilmsActivity.kt:99-104 | while loading, or when not at the bottom, a scroll changes nothing and requests nothing |
| `Controller.GenresResponseFetchesPage` | app/src/main/java/com/example/filmschecker/ShowAllFilmsActivity.kt:115-122 | an answered genre call sets the table to the body, or to the empty list for a null body, and requests the current page |
| `Controller.GenresFailureIsSilent` | app/src/main/java/com/example/filmschecker/ShowAllFilmsActivity.kt:123-125 | a failed genre call leaves the table unset and requests nothing |
| `Controller.DeliveryAppends` | app/src/main/java/com/example/filmschecker/ShowAllFilmsActivity.kt:147-157 | a batch that joins is appended after the old films, so the length is the sum of the two. The adapter receives that same list, `loading` is cleared, the page stays and nothing is requested |
| `Controller.NullBatchClearsLoading` | app/src/main/java/com/example/filmschecker/ShowAllFilmsActivity.kt:134-136 | a null emission is an empty batch: the films stay, `loading` is cleared, and the adapter receives the unchanged list |
| `Controller.DeliveryThrowsOnMissingId` | app/src/main/java/com/example/filmschecker/ShowAllFilmsActivity.kt:147-153 | one unresolvable genre id in any film of a batch makes the delivery throw a join exception |
| `Controller.LoadingNeverRaised` | app/src/main/java/com/example/filmschecker/ShowAllFilmsActivity.kt:154-156 | no event sets `loading` to true |
| `Controller.LoadingStaysCleared` | app/src/main/java/com/example/filmschecker/ShowAllFilmsActivity.kt:154-156 | once `loading` is false it is false after any run of events that does not crash |
| `Controller.ScrollNeverGatedAgain` | app/src/main/java/com/example/filmschecker/ShowAllFilmsActivity.kt:99-104 | after a batch that joins, and any events after it, a scroll to the bottom always requests a page |
| `Controller.AppendOnlyWithinQuery` | app/src/main/java/com/example/filmschecker/ShowAllFilmsActivity.kt:154 | in a run without a reset that does not crash, the films at the end are the films at the start followed by every delivered batch in arrival order, whatever scrolls and genre answers come between. The start stays a prefix and the lengths add up |
| `Controller.BatchesAccumulate` | app/src/main/java/com/example/filmschecker/ShowAllFilmsActivity.kt:154-156 | batches that join are appended in arrival order. No call is issued, and the page and table are unchanged |
| `Controller.AccumulatedCount` | app/src/main/java/com/example/filmschecker/ShowAllFilmsActivity.kt:154 | after such batches, the film count is the old count plus the batch sizes |
| `Controller.TwoBatchesAppend` | app/src/main/java/com/example/filmschecker/ShowAllFilmsActivity.kt:154-156 | two batches that join, delivered in turn, are appended in that order and `loading` is cleared |
| `Controller.BrowseTwoPages` | app/src/main/java/com/example/filmschecker/ShowAllFilmsActivity.kt:95-157 | start-up (genre table, page 1, scroll, page 2) issues page 1, then page 2, and ends not loading, on page 2, with page 1 followed by page 2 |
| `Controller.ScrollThenDeliver` | app/src/main/java/com/example/filmschecker/ShowAllFilmsActivity.kt:99-156 | when not loading, a scroll to the bottom and then a batch that joins request the next page and append that batch |
| `Controller.ScrollBeforeFirstBatchIgnored` | app/src/main/java/com/example/filmschecker/ShowAllFilmsActivity.kt:28-30 | in the initial state a scroll to the bottom does nothing, because `loading` starts true |
| `Controller.CloseAfterSearch` | app/src/main/java/com/example/filmschecker/ShowAllFilmsActivity.kt:69-92 | a search and then closing the search issue the search, then page 1 of the listing, and leave page 1 with no films |
| `Controller.StaleAnswerIsAppended` | app/src/main/java/com/example/filmschecker/ShowAllFilmsActivity.kt:129-156 | after two text changes, a late answer to the first search is shown before the answer to the second |
| `Controller.LateAnswerLandsAfterNewer` | app/src/main/java/com/example/filmschecker/ShowAllFilmsActivity.kt:129-156 | after two text changes, when the answer to the second search arrives first, the late answer to the first search is appended after it, and both searches were issued in order |
| `Controller.SearchBeforeGenresThrows` | app/src/main/java/com/example/filmschecker/ShowAllFilmsActivity.kt:139-151 | a search answered before the genre table arrives throws `GenresUninitialized` once one of its films has a genre id |
| `Controller.StreamErrorIsUnhandled` | app/src/main/java/com/example/filmschecker/ShowAllFilmsActivity.kt:134-136 | an error from a film stream ends the screen in any state |
| `ShowAllFilms.ShowAllFilmsActivity.constructor` | app/src/main/java/com/example/filmschecker/ShowAllFilmsActivity.kt:28-31 | the fields start loading, on page 1, with no films, an unset table, and nothing handed to the adapter |
| `ShowAllFilms.ShowAllFilmsActivity.OnClose` | app/src/main/java/com/example/filmschecker/ShowAllFilmsActivity.kt:69-74 | page 1 and no films; the other fields are unchanged; page 1 of the listing is requested; the event is not consumed; this is `Step` on `SearchClosed` |
| `ShowAllFilms.ShowAllFilmsActivity.OnQueryTextSubmit` | app/src/main/java/com/example/filmschecker/ShowAllFilmsActivity.kt:78-83 | page 1 and no films; a search for exactly the query; not consumed; this is `Step` on the event |
| `ShowAllFilms.ShowAllFilmsActivity.OnQueryTextChange` | app/src/main/java/com/example/filmschecker/ShowAllFilmsActivity.kt:85-92 | page 1 and no films; a search for exactly the new text; consumed; this is `Step` on the event |
| `ShowAllFilms.ShowAllFilmsActivity.OnScrollStateChanged` | app/src/main/java/com/example/filmschecker/ShowAllFilmsActivity.kt:96-105 | at the bottom and not loading, the page is incremented and requested; otherwise nothing changes; this is `Step` on the event |
| `ShowAllFilms.ShowAllFilmsActivity.OnGenresResponse` | app/src/main/java/com/example/filmschecker/ShowAllFilmsActivity.kt:115-122 | the table becomes the body or the empty list, and the current page is requested; this is `Step` on the event |
| `ShowAllFilms.ShowAllFilmsActivity.OnGenresFailure` | app/src/main/java/com/example/filmschecker/ShowAllFilmsActivity.kt:123-125 | nothing is requested and `Step` on the failure leaves the state as it is |
| `ShowAllFilms.ShowAllFilmsActivity.InitFilm` | app/src/main/java/com/example/filmschecker/ShowAllFilmsActivity.kt:147-158 | succeeds exactly when every film joins, and then appends the batch, hands it to the adapter and clears `loading`. On a throw the fields are unchanged. It agrees with `Deliver`. Each film up to the one that throws holds its joined genres; a later film is untouched unless the same film object also appears at or before that one |
| `ShowAllFilms.ShowAllFilmsActivity.JoinBatch` | app/src/main/java/com/example/filmschecker/ShowAllFilmsActivity.kt:148-153 | the outer loop: succeeds exactly when every film joins; films up to and including the first that throws hold their joined genres, and a later film is untouched unless the same film object also appears at or before that one |
| `ShowAllFilms.ShowAllFilmsActivity.JoinGenres` | app/src/main/java/com/example/filmschecker/ShowAllFilmsActivity.kt:149-152 | the inner loop: succeeds exactly when every id resolves, and the film's `genres` is then `Joined` of its ids |
| `ShowAllFilms.ShowAllFilmsActivity.OnFilmsEmitted` | app/src/main/java/com/example/filmschecker/ShowAllFilmsActivity.kt:134-136 | a null page is an empty batch. On success the new state is `Step` on the emission; on a throw `Step` crashes and the state is unchanged |
| `LikedFilms.ForUser` | app/src/main/java/com/example/filmschecker/LikedFilmsActivity.kt:56 | a record is kept if and only if it is in the list and has that email; the result is never longer than the list |
| `LikedFilms.ForUserDistributes` | app/src/main/java/com/example/filmschecker/LikedFilmsActivity.kt:56 | the filter keeps snapshot order: filtering two parts in turn equals filtering the whole |
| `LikedFilms.ForUserKeepsMatching` | app/src/main/java/com/example/filmschecker/LikedFilmsActivity.kt:56 | a list of only the user's records is kept whole and in order; a list with none of them becomes empty |
| `LikedFilms.ForUserIdempotent` | app/src/main/java/com/example/filmschecker/LikedFilmsActivity.kt:56 | filtering twice is filtering once |
| `LikedFilms.NoUserKeepsNullEmails` | app/src/main/java/com/example/filmschecker/LikedFilmsActivity.kt:43 | with no signed-in user, exactly the records whose email is the text "null" are kept |
| `LikedFilms.NullEmailTextsCoincide` | app/src/main/java/com/example/filmschecker/LikedFilmsActivity.kt:43 | `email.toString()` makes no user, a user without an email, and a user whose email is "null" keep the same records |
| `LikedFilms.Unwrapped` | app/src/main/java/com/example/filmschecker/LikedFilmsActivity.kt:53-55 | the records collected before `!!` throws are never more than the children |
| `LikedFilms.UnwrappedSpec` | app/src/main/java/com/example/filmschecker/LikedFilmsActivity.kt:53-55 | the collected records are the children's values, in order, and the child just past them, if any, is null |
| `LikedFilms.UnwrappedStep` | app/src/main/java/com/example/filmschecker/LikedFilmsActivity.kt:53-55 | one step of the collecting loop: a present value extends the collected records, and a null one ends them |
| `LikedFilms.LikedFilmsActivity.constructor` | app/src/main/java/com/example/filmschecker/LikedFilmsActivity.kt:25-44 | the email is read once, and it starts with no records and no films |
| `LikedFilms.LikedFilmsActivity.OnDataChange` | app/src/main/java/com/example/filmschecker/LikedFilmsActivity.kt:43-63 | it succeeds if and only if no child is null; a null child leaves the records before it collected and requests nothing. On success the records are exactly those whose email is the one read at creation (`EmailText`), in order, and the label becomes visible when none remain (otherwise it is untouched). One film is requested per record, in order, with its `filmId` |
| `LikedFilms.LikedFilmsActivity.OnFilmResponse` | app/src/main/java/com/example/filmschecker/LikedFilmsActivity.kt:70-73 | a body is appended as the one new last film and the adapter gets the list; a null body throws and changes nothing |
| `LikedFilms.LikedFilmsActivity.OnFilmFailure` | app/src/main/java/com/example/filmschecker/LikedFilmsActivity.kt:74-76 | a failed film call leaves the films and the adapter's list unchanged |

## Left out

- Building the Retrofit and OkHttp clients, with their timeouts and logging interceptor (ShowAllFilmsActivity.kt:45-61). This is library configuration.
- The RxJava threading of the streams (`subscribeOn`, `observeOn`). Completions are atomic events that may come in any order, and the model does not prevent a late answer from being appended.
- The views. Scrolling to the bottom is an input event: `canScrollVertically` becomes `atBottom`. Assigning the adapter's list is the `shown` output. Layout inflation, RecyclerView binding and the empty-state label's rendering are not modelled.
- `Log` calls, which only log. So is `onCancelled` of the database listener, which only logs.
- The catalogue service (`FilmService`, `ApiManager`), Firebase authentication and database, and Gson decoding are not part of this model. A database snapshot is a sequence of nullable children. The signed-in user is an optional user with an optional email. A film call's answer is an optional film.
- The domain classes `Film`, `Category` and `Favori` are not part of this model. Their fields are taken from their uses in the two screens.
- LoginActivity.kt, ReservationActivity.kt and CommentaireAdapter.kt are not part of this model. They contain authentication calls and view binding only.
- Film and genre ids are unbounded integers, because they are only compared for equality. `page` is the one `Int` that is computed, and its wrap-around is modelled.
- What becomes of the app after an escaped exception is not modelled: the screen stops in the model.
- `favoris` is a local of `onCreate` that the listener captures. It is a field of the class here, and the listener fires once.
- `LikedFilms.LikedFilmsActivity.OnFilmResponse`: it does not model the adapter aliasing `films` with the same mutable list. The adapter's list is the value `shown`, which is set to the new list.
