# Replay engine of a movie-streaming service, in Dafny

The engine replays a log of user actions against a catalog of movies. A single
current page (its kind, the logged-in user, the selected movie and the movie
list on show) moves between the logout, login, register, homepage, movies,
see-details and upgrades pages. Before some moves the page is saved on a history
stack, and a "back" action restores it. Every handled action writes at most one
record to an output log. Movies keep like and rating counters, and a filter
request can sort a movie list by duration and/or rating.

The project has five modules:

- `Wrappers` (`wrappers.dfy`): `Option`, standing in for Java references that may be null.
- `Movies` (`movie.dfy`): the `Movie` class. Its metadata is immutable. Its
  counters change in place, in 32-bit `int` arithmetic. Equality is by name,
  the hash is the name's hash, and the rating is the exact mean of the ratings.
- `Sorting` (`sort.dfy`): `Sort.apply`. It sorts an `array<Movie>` in place with
  an insertion sort, proved equal to the stable sort `SortSeq`. `SortSeq` is
  proved to return a sorted permutation of its input that keeps tied movies in
  input order.
- `Navigation` (`navigation.dfy`): the page state machine as pure functions on
  a `Session` value. `NavigationProperties` (`navigation_properties.dfy`) holds
  the lemmas about it.
- `Execution` (`execution.dfy`): the engine as a class. Its fields are changed
  in place by one method per handler. Each method is proved to leave the
  object in the state the matching `Navigation` function computes, so the
  lemmas about those functions hold of the engine.

Some things the engine consults are not part of this model, so they are
parameters. The page legality tables, `MovieList.available`,
`MovieList.searchMovie` and `Filter.apply` are the total functions of an `Env`.
The user store's answer to each action is a `Reply`: the user a login or
register yields, and whether a user operation succeeded. Whether the final user
is premium is a parameter of `Start`.

Where the code and the design description of the engine differ, or the code
says more than the description, the model follows the code:

- A successful move to the logout, login, register, home or upgrades page writes
  nothing (`src/execution/Execution.java:107-145`, `:178-186`); only the movies and
  see-details moves write on success (`:147-176`).
- A successful "add" or "delete" writes nothing, and only a refused edit writes an
  empty record (`src/execution/Execution.java:80-90`).
- A successful "subscribe" or "buy premium account" writes nothing (`src/execution/Execution.java:303-317`).
- A failed "buy tokens" writes the user, not an empty record (`src/execution/Execution.java:319-323`).
- Going back to a page other than a movies or details page writes nothing (`src/execution/Execution.java:59-68`).
- A move to the login or register page keeps the current user, and only register
  clears the selected movie (`src/execution/Execution.java:119-134`).
- A move to the details page sets the selected movie and keeps the current movie
  list (`src/execution/Execution.java:165-169`).
- A refused on-page "login" or "register" sets the kind to the logout page but
  does not clear the user or the history (`src/execution/Execution.java:214-217`, `:230-233`).
- The design says a duration-and-rating sort breaks duration ties by rating.
  The code drops the tie-breaker, so duration alone decides. See Findings.

## Model

| member | source | states |
|---|---|---|
| Movies.Wrap32 | src/movie/Movie.java:16-18 | the result is in the `int` range, agrees with its argument modulo 2^32, and is the argument itself when that is in range |
| Movies.StringHash | src/movie/Movie.java:59-61 | the string hash stays in the `int` range at every step |
| Movies.RatingOf | src/movie/Movie.java:92-97 | with ratings, the rating times their number is their sum; with none, the rating is 0 |
| Movies.Movie.constructor | src/movie/Movie.java:20-33 | the metadata is as given and every counter starts at 0 |
| Movies.Movie.Copy | src/movie/Movie.java:35-45 | the copy has the same name, metadata and counters, so it is equal to the original and has the same rating |
| Movies.Movie.HashCode | src/movie/Movie.java:59-61 | the hash is a 32-bit `int` |
| Movies.Movie.Equals | src/movie/Movie.java:48-56 | a movie equals another exactly when it equals the other's name as a string, and equal movies have equal hashes |
| Movies.Movie.EqualsName | src/movie/Movie.java:49-51 | a movie that equals a string has the hash of that string |
| Movies.Movie.Rating | src/movie/Movie.java:92-97 | with at least one rating the rating times the count is the sum, so it is their mean; with none it is 0 |
| Movies.Movie.GetLiked | src/movie/Movie.java:66-68 | likes go up by one (wrapping at 32 bits); the rating counters are unchanged |
| Movies.Movie.Rate | src/movie/Movie.java:74-77 | the sum grows by the rating and the count by one (both wrapping at 32 bits); likes are unchanged |
| Movies.Movie.RateAgain | src/movie/Movie.java:84-86 | the sum moves by rating minus previous rating; the count and likes are unchanged |
| Movies.EqualsIsConsistent | src/movie/Movie.java:48-61 | equality by name is reflexive, symmetric and transitive; equal movies hash alike; a movie equals another exactly when it equals that movie's name |
| Movies.RateUpdatesMean | src/movie/Movie.java:74-97 | after one more rating the rating is the old mean updated with the new rating |
| Movies.RateAgainShiftsMean | src/movie/Movie.java:84-97 | replacing a rating moves the mean by the difference divided by the count |
| Movies.RatingWithinBounds | src/movie/Movie.java:92-97 | when every rating lies in [lo, hi], so does the rating |
| Movies.RateFiveThenThree | src/movie/Movie.java:74-97 | rating a fresh movie 5 and then 3 gives a rating of 4 from two ratings |
| Movies.RateFiveThenReplaceByThree | src/movie/Movie.java:74-97 | rating a fresh movie 5 and then replacing that 5 by 3 gives a rating of 3 from one rating |
| Sorting.InsertPermutes | src/action/filter/Sort.java:46 | one insertion step adds exactly the inserted movie to the multiset |
| Sorting.SortSeqPermutes | src/action/filter/Sort.java:46 | the sort returns a permutation of its input |
| Sorting.Insert | src/action/filter/Sort.java:46 | one insertion step of the stable sort yields one more element, the inserted movie among them, and no movie from elsewhere |
| Sorting.SortSeq | src/action/filter/Sort.java:46 | the sorted list has the length of the input and only its movies (permutation, order and stability are the lemmas about it) |
| Sorting.InsertSorted | src/action/filter/Sort.java:46 | inserting into a sorted list keeps it sorted |
| Sorting.SortSeqSorted | src/action/filter/Sort.java:46 | the sort returns a list ordered by the comparator |
| Sorting.InsertTied | src/action/filter/Sort.java:46 | inserting puts the new movie after every movie it ties with |
| Sorting.SortSeqStable | src/action/filter/Sort.java:46 | for every key, the movies with that key keep their input order |
| Sorting.SortSeqOfSorted | src/action/filter/Sort.java:46 | a list that is already sorted is left unchanged |
| Sorting.InsertSplit | src/action/filter/Sort.java:46 | the insertion lands right after the last movie that does not compare strictly greater |
| Sorting.InsertAt | src/action/filter/Sort.java:46 | one in-place pass turns the prefix and the next element into the insertion of that element, and the rest of the array is untouched |
| Sorting.SortInPlace | src/action/filter/Sort.java:46 | the array ends up holding the stable sort of its old contents |
| Sorting.SortByDurationAndRating | src/action/filter/Sort.java:34-47 | the array is sorted by duration alone, in the direction of `duration`; `rating` has no effect |
| Sorting.SortByRating | src/action/filter/Sort.java:49-57 | the array is sorted by rating, in the direction of `rating` |
| Sorting.SortByDuration | src/action/filter/Sort.java:59-67 | the array is sorted by duration, in the direction of `duration` |
| Sorting.Apply | src/action/filter/Sort.java:20-32 | the contents are a permutation of the input; no criteria leaves the list as it was; any duration sorts by duration; rating alone sorts by rating |
| Sorting.DurationOrder | src/action/filter/Sort.java:59-66 | the duration sort is nonincreasing for "descending" and nondecreasing for any other string |
| Sorting.RatingOrder | src/action/filter/Sort.java:49-56 | the rating sort is nonincreasing for "descending" and nondecreasing for any other string |
| Sorting.DurationSortIsStable | src/action/filter/Sort.java:59-66 | movies of equal duration keep their input order under the duration sort in either direction |
| Sorting.DistinctDurationsPermutation | src/action/filter/Sort.java:59-66 | pairwise distinct durations stay distinct under any rearrangement |
| Sorting.IncreasingDurationsUnique | src/action/filter/Sort.java:59-66 | two arrangements of the same movies that both strictly increase in duration are equal |
| Sorting.StrictDurationOrder | src/action/filter/Sort.java:59-66 | with distinct durations, the duration sort strictly decreases for "descending" and strictly increases otherwise |
| Sorting.AscendingReversesDescending | src/action/filter/Sort.java:59-66 | with distinct durations, the ascending sort is exactly the reverse of the descending sort |
| Sorting.SortByDurationThenRating | src/action/filter/Sort.java:34-47 | the corrected composite sort: by duration, ties broken by rating in the direction of `rating` |
| Sorting.DurationThenRatingOrder | src/action/filter/Sort.java:34-47 | the corrected sort orders by duration, and movies of equal duration by rating in the direction of `rating` |
| Sorting.RatingTieBreakDropped | src/action/filter/Sort.java:41-46 | two equal-duration movies, the lower rated first, stay in place as written but are swapped once the rating tie-breaker is kept |
| Navigation.PageNamed | src/execution/Execution.java:95-103 | a recognised page string names the kind whose type string it is |
| Navigation.PageNamesRoundTrip | src/execution/Execution.java:95-103 | each kind is named by its own type string and by no other |
| Navigation.FindByName | src/execution/Execution.java:163-164 | a found movie is in the list and has the name, and no earlier movie has it; nothing is found exactly when no movie in the list has the name |
| Navigation.Rollback | src/execution/Execution.java:54-69 | back never touches the catalog; with no saved page the page and the empty history stay; otherwise the last saved page is popped and its kind and user become current |
| Navigation.Step | src/execution/Execution.java:39-46 | only a database action changes the catalog; on-page, database and unknown actions keep the history; database and unknown actions keep the page |
| Navigation.Run | src/execution/Execution.java:39-47 | a replay without database actions keeps the catalog; a replay of only database and unknown actions keeps page and history |
| NavigationProperties.FailedLinkChangesNothing | src/execution/Execution.java:107-186 | a change to a page not linked from the current one keeps page, history and catalog and writes one Empty |
| NavigationProperties.ChangePageHistory | src/execution/Execution.java:107-186 | logout clears the history; login and register keep it; a successful move to homepage, movies, see details or upgrades pushes the page as it was before; an unknown page changes nothing |
| NavigationProperties.ChangePageFollowsLinks | src/execution/Execution.java:94-186 | a change-page action stays on the current kind or moves to a kind linked from it |
| NavigationProperties.LogoutThenBack | src/execution/Execution.java:107-117 | logout leaves a logged-out page with no user, movie or list and no history, writes nothing, and a following back writes one Empty |
| NavigationProperties.SeeDetailsOfMissingMovie | src/execution/Execution.java:161-176 | asking for a movie name not in the current list writes one Empty and changes nothing else |
| NavigationProperties.BackOnEmptyHistory | src/execution/Execution.java:54-58 | back with an empty history writes one Empty and changes nothing else |
| NavigationProperties.BackRestores | src/execution/Execution.java:54-69 | back pops the last saved page and makes it current; a movies page gets the list available now and writes it; a details page writes its movie; other pages write nothing |
| NavigationProperties.AuthenticateOutcome | src/execution/Execution.java:207-237 | login/register with a user from the store goes to the homepage with that user and writes the user; a refusal goes to the logout page and writes Empty; without the feature only Empty is written |
| NavigationProperties.ChangePageAppends | src/execution/Execution.java:94-186 | a change-page action leaves the log as it was or appends one record |
| NavigationProperties.OnPageAppends | src/execution/Execution.java:190-323 | an on-page action leaves the log as it was or appends one record |
| NavigationProperties.RollbackAppends | src/execution/Execution.java:54-69 | back leaves the log as it was or appends one record |
| NavigationProperties.StepWritesAtMostOnce | src/execution/Execution.java:38-47 | every action keeps the log and appends at most one record |
| NavigationProperties.UnknownIsIgnored | src/execution/Execution.java:38-47 | an unknown action type, page, on-page feature or database feature changes nothing and writes nothing |
| NavigationProperties.DatabaseOutcome | src/execution/Execution.java:71-90 | adding a movie under a new name or deleting an existing name changes only the catalog and writes nothing; otherwise one Empty is written |
| NavigationProperties.SilentFeatureOutcome | src/execution/Execution.java:303-317 | subscribe and premium purchase write nothing exactly when the feature is allowed and the user accepts, and otherwise write one Empty |
| NavigationProperties.StepHistory | src/execution/Execution.java:38-69 | after an action the history holds only previously saved pages or the page the action started on |
| NavigationProperties.RunSnoc | src/execution/Execution.java:38-47 | replaying one more action is one more step |
| NavigationProperties.RunWritesAtMostOncePerAction | src/execution/Execution.java:38-47 | a replay keeps the log and appends at most one record per action |
| NavigationProperties.ChangePagesFollowLinks | src/execution/Execution.java:38-47 | along a replay of change-page actions, each action stays on its page or enters a page linked from it |
| NavigationProperties.RunHistory | src/execution/Execution.java:38-69 | after a replay the history holds only pages saved before it or pages the replay went through |
| NavigationProperties.LogoutForgetsHistory | src/execution/Execution.java:107-117 | after a logout, no page saved before it can come back: the stack holds only pages reached afterwards |
| NavigationProperties.TwoSavesThenThreeBacks | src/execution/Execution.java:54-69 | from an empty history, after two saving moves, back restores the second saved page, then the first, and a third back writes Empty |
| NavigationProperties.RecommendationOnlyForPremium | src/execution/Execution.java:48-51 | at the end one more record with the user and no list is written exactly for a logged-in premium user; nothing else changes |
| Execution.Execution.constructor | src/execution/Execution.java:29-32 | a new engine is on the logged-out page with no user, movie or list, no history and an empty log |
| Execution.Execution.Start | src/execution/Execution.java:38-52 | the engine ends in the state the replay of all actions reaches, plus the recommendation record for a premium user |
| Execution.Execution.WriteOutput | src/execution/Execution.java:56 | the record is appended to the output log and nothing else changes |
| Execution.Execution.SaveState | src/execution/Execution.java:138 | the current page is pushed onto the saved pages and nothing else changes |
| Execution.Execution.RestoreLastState | src/execution/Execution.java:55 | reports whether a page was saved; if so, the last saved page becomes current and is popped; if not, nothing changes |
| Execution.Execution.RollbackPage | src/execution/Execution.java:54-69 | the state becomes `Rollback` of the old one: with no saved page one Empty is written; otherwise the last saved page is popped into the current page, with the movies list recomputed and the list or movie written as `BackRestores` states |
| Execution.Execution.HandleDatabase | src/execution/Execution.java:72-78 | the state becomes `DatabaseEdit` of the old one: "add" and "delete" go to their handlers, another feature changes nothing |
| Execution.Execution.DatabaseAdd | src/execution/Execution.java:80-84 | the state becomes `AddMovie` of the old one: a new name joins the catalog silently, a taken name writes one Empty |
| Execution.Execution.DatabaseDelete | src/execution/Execution.java:86-90 | the state becomes `DeleteMovie` of the old one: an existing name leaves the catalog silently, a missing name writes one Empty |
| Execution.Execution.HandleChangePage | src/execution/Execution.java:94-105 | the state becomes `ChangePage` of the old one: each of the seven page names goes to its handler, another name changes nothing |
| Execution.Execution.ChangeToLogout | src/execution/Execution.java:107-117 | the state becomes `GoToLogout` of the old one: with the link, a blank logged-out page and an empty history; without, one Empty |
| Execution.Execution.ChangeToLogin | src/execution/Execution.java:119-125 | the state becomes `GoToLogin` of the old one: with the link only the kind changes; without, one Empty |
| Execution.Execution.ChangeToRegister | src/execution/Execution.java:127-134 | the state becomes `GoToRegister` of the old one: with the link the kind changes and the movie is cleared; without, one Empty |
| Execution.Execution.ChangeToHomepage | src/execution/Execution.java:136-145 | the state becomes `GoToHomepage` of the old one: with the link the page is pushed, then the kind changes and movie and list are cleared; without, one Empty |
| Execution.Execution.ChangeToMovies | src/execution/Execution.java:147-159 | the state becomes `GoToMovies` of the old one: with the link the page is pushed, the list becomes what the catalog offers the user and is written; without, one Empty |
| Execution.Execution.ChangeToSeeDetails | src/execution/Execution.java:161-176 | the state becomes `GoToSeeDetails` of the old one: with the link and the name in the list, the page is pushed, the movie selected and written; otherwise one Empty |
| Execution.Execution.ChangeToUpgrades | src/execution/Execution.java:178-186 | the state becomes `GoToUpgrades` of the old one: with the link the page is pushed, the kind changes and the movie is cleared; without, one Empty |
| Execution.Execution.HandleOnPage | src/execution/Execution.java:190-205 | the state becomes `OnPage` of the old one: each of the eleven feature names goes to its handler, another name changes nothing |
| Execution.Execution.OnPageAuthenticate | src/execution/Execution.java:207-237 | the state becomes `Authenticate` of the old one, whose outcomes `AuthenticateOutcome` states |
| Execution.Execution.OnPageSearch | src/execution/Execution.java:239-249 | the state becomes `SearchMovies` of the old one: with the feature the list becomes the search among the movies available to the user and is written; without, one Empty |
| Execution.Execution.OnPageFilter | src/execution/Execution.java:251-261 | the state becomes `FilterMovies` of the old one: with the feature the list becomes the filtered available movies and is written; without, one Empty |
| Execution.Execution.OnPageMovieFeature | src/execution/Execution.java:263-301 | the state becomes `MovieFeature` of the old one: with the feature and the user's acceptance the current movie is written; otherwise one Empty |
| Execution.Execution.OnPageSilentFeature | src/execution/Execution.java:303-317 | the state becomes `SilentFeature` of the old one, whose outcomes `SilentFeatureOutcome` states |
| Execution.Execution.OnPageBuyTokens | src/execution/Execution.java:319-323 | the state becomes `BuyTokens` of the old one: on success nothing is written; without the feature or on refusal the user is written |

## Left out

- Output serialisation: `OutputWriter` and the Jackson JSON nodes are not modelled. An output is an `Output` value that holds movie references and user identities.
- The `Database` singleton: its movie list is the `catalog` field, a map keyed by name. `Database.addMovie` and `Database.deleteMovie` are not part of this model. Add is taken to fail on a duplicate name and delete to fail on a missing name. Whatever else they do (notifying users, refunds) is not modelled.
- Catalog order: a map has no order, so `available` sees the catalog as a map.
- The user store (`UserAction.login`/`register` and the `User` operations) is not part of this model. Its answer to each action is the `Reply` given with it. Its side effects are not modelled: tokens, purchased and watched lists, and the movie counters it updates through `Movie`.
- The action fields that only the user store reads (credentials, rating value, token count, subscribed genre) are not modelled; the `Reply` stands in for their effect.
- `MovieList.available`, `MovieList.searchMovie` and `Filter.apply` are not part of this model; they are functions of the `Env`.
- `MovieList.getMovie` is not part of this model. It is modelled as the first movie in the list with the name, and an absent list is read as an empty one.
- `Page.hasLinkTo` and `Page.hasFeature` are not part of this model. They are lookups in tables indexed by the current kind.
- The memento caretaker is not part of this model. It is a LIFO stack of page values; storing snapshots keyed by page type is not modelled.
- `getRecommendation` is not modelled beyond the one extra record it leads to. Whether the final user is premium is a parameter of `Start`.
- The actions come as a parameter of `Start`, not from `Database.getInstance().getActions()`.
- `System.err` logging of invalid actions is left out; those actions change nothing.
- Null-pointer failures: `List.of(null)` for a page without a movie is written as an empty list. A user feature reached without a user is decided by its `Reply`.
- `Navigation.Action`: a database action always carries a movie, so a null `addedMovie` is not modelled.
- `Movie.equals(Object)` for objects that are neither movies nor strings (false), and for null, is not modelled.
- `Movies.StringHash`: hashes the string by Unicode code point. Java hashes UTF-16 code units, so the two differ on characters outside the Basic Multilingual Plane.
- `Movies.RatingOf`: exact rational division replaces `double` division, so rounding is not modelled.
- `Sorting.SortInPlace`: an insertion sort replaces Java's TimSort. Both are stable sorts, so they produce the same order.
- The Jackson constructor annotations and the observer `Subject` superclass of `Movie` are not modelled.
- `NavigationProperties.StepHistory`, `NavigationProperties.RunHistory` and `NavigationProperties.LogoutForgetsHistory` speak of page values. Two saved pages with equal fields are not told apart.

## Findings

| source | as written | input that shows it | evidently intended | confidence | as-written member | corrected member |
|---|---|---|---|---|---|---|
| src/action/filter/Sort.java:41-44 | `comparator.thenComparing(Movie::getRating)` (and its `.reversed()`) builds a new comparator and drops it, so the list is sorted by duration alone | two movies of equal duration, the first rated lower, with rating "descending": they stay in input order, the lower-rated one first | movies of equal duration ordered by rating in the direction of `rating`, with the duration direction unchanged | not executed | Sorting.RatingTieBreakDropped | Sorting.DurationThenRatingOrder |
