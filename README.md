# Movie list page: favourites and pagination as a verified state machine

This project models the logic of the movie list page component of the movies
app (`MovieListPageComponent`). Under its reactive wiring the page is a small
state machine that runs on one event loop. Each asynchronous completion is taken
here as one discrete event, in delivery order. The page keeps three slices:

- `movies`: a suspense value that is loading, failed, or holds the loaded list;
- `favoriteIds`: the ids of the movies marked as favourites;
- `favoritesLoading`: the ids whose favourite toggle is in flight.

The events are:

- creating the page;
- the favourites list arriving;
- a favourite toggle request, and later its answer;
- a route change;
- a pagination trigger, and later the page it asked for.

Modules:

- `MovieModel` (`movie_model.dfy`): movies, the suspense value, and the derived
  `favoriteMovies` view. The view is an order-preserving filter, characterised by
  its empty, one-element and concatenation cases.
- `Favorites` (`favorites.dfy`): the id set built from the favourites list, and
  the two steps of the per-movie toggle reducer as set functions.
- `Pagination` (`pagination.dfy`): which service call a route session uses, the
  page requests, and the concatenation of received pages.
- `MovieListPageComponent` (`movie_list_page.dfy`): the class `MovieListPage`.
  Its fields are the three slices, the ids whose toggle is in flight, and the
  pagination session (session number, source, in-flight flag, pages requested,
  accumulated list). It has one method per event. Its invariant `Valid()` states
  that an id is in `favoritesLoading` exactly when its toggle is in flight. It
  also states that the accumulated list is the received pages joined in arrival
  order, and that at most one page request is outstanding.

How the reactive operators are read as sequential event handling:

- `groupBy` with `exhaustMap` means a toggle for an id whose toggle is still in
  flight is dropped. It does not supersede the first toggle, because `exhaustMap`
  ignores a new value while its inner call is pending.
- `exhaustMap` numbers only the triggers it accepts. So a session asks for pages
  1, 2, 3, … in that order, with page 1 requested at once because of `startWith`.
- The route switch abandons the previous session. Each page request carries the
  number of the session that issued it, and an answer for an older session is
  ignored.
- The route parameters are replayed when the page subscribes to them. So the
  constructor takes the current parameters and opens the first session.

## Model

| member | source | states |
|---|---|---|
| `MovieModel.FilterFavorites` | apps/movies/src/app/movie/movie-list-page/movie-list-page.component.ts:155 | the result is no longer than the list, and a movie is in it exactly when it is in the list and its id is a favourite |
| `MovieModel.FavoriteMovies` | apps/movies/src/app/movie/movie-list-page/movie-list-page.component.ts:154-156 | the view is empty unless data is loaded; a movie is in it exactly when it is in the loaded data and its id is in `favoriteIds` |
| `MovieModel.FilterAppend` | apps/movies/src/app/movie/movie-list-page/movie-list-page.component.ts:155 | filtering distributes over concatenation, so the relative order of kept movies is preserved |
| `MovieModel.FilterBase` | apps/movies/src/app/movie/movie-list-page/movie-list-page.component.ts:155 | the empty list filters to empty; one movie is kept exactly when its id is a favourite |
| `MovieModel.FilterKeepsAll` | apps/movies/src/app/movie/movie-list-page/movie-list-page.component.ts:155 | a list whose ids are all favourites is returned unchanged |
| `MovieModel.FilterDropsAll` | apps/movies/src/app/movie/movie-list-page/movie-list-page.component.ts:155 | a list with no favourite ids filters to empty |
| `MovieModel.FilterIdempotent` | apps/movies/src/app/movie/movie-list-page/movie-list-page.component.ts:155 | filtering the view again by the same set changes nothing |
| `Favorites.IdsOf` | apps/movies/src/app/movie/movie-list-page/movie-list-page.component.ts:84-86 | an id is in the set exactly when some movie of the list has it |
| `Favorites.StartToggle` | apps/movies/src/app/movie/movie-list-page/movie-list-page.component.ts:131-138 | the toggled id is loading afterwards and every other id keeps its loading membership |
| `Favorites.SettleToggle` | apps/movies/src/app/movie/movie-list-page/movie-list-page.component.ts:119-129 | the id is a favourite exactly when the answer is true, it is not loading, and every other id keeps its membership in both sets |
| `Favorites.SettleCommutes` | apps/movies/src/app/movie/movie-list-page/movie-list-page.component.ts:110-113 | answers for two different movies give the same sets in either order |
| `Favorites.StartThenSettle` | apps/movies/src/app/movie/movie-list-page/movie-list-page.component.ts:119-138 | starting and settling a toggle for an id that was not loading restores the loading set |
| `Favorites.FavoritesOfFavoriteList` | apps/movies/src/app/movie/movie-list-page/movie-list-page.component.ts:84-86 | after the favourites list arrives, filtering that list by its own ids returns the whole list |
| `Pagination.SourceOf` | apps/movies/src/app/movie/movie-list-page/movie-list-page.component.ts:93-102 | the category list is used exactly when a non-empty category is set, with that category; otherwise the genre list with the route's `id` |
| `Pagination.Concat` | apps/movies/src/app/movie/movie-list-page/movie-list-page.component.ts:164-166 | the reference definition of the `scan` fold: a movie is in the accumulated list exactly when it is in one of the received pages |
| `Pagination.ConcatSnoc` | apps/movies/src/app/movie/movie-list-page/movie-list-page.component.ts:164-166 | one more page appends exactly that page to the accumulated list |
| `Pagination.ConcatAppend` | apps/movies/src/app/movie/movie-list-page/movie-list-page.component.ts:164-166 | the accumulated list of two runs of pages is the two accumulated lists joined |
| `Pagination.ConcatPrefix` | apps/movies/src/app/movie/movie-list-page/movie-list-page.component.ts:164-166 | within a session the accumulated list only grows: earlier lists are prefixes of later ones |
| `MovieListPageComponent.MovieListPage.Valid` | apps/movies/src/app/movie/movie-list-page/movie-list-page.component.ts:76-167 | the page invariant, kept by every event: an id is in `favoritesLoading` exactly when its toggle is in flight, the accumulated list is the received pages joined in order, at most one page is outstanding, and with no page outstanding `movies` holds data |
| `MovieListPageComponent.MovieListPage.constructor` | apps/movies/src/app/movie/movie-list-page/movie-list-page.component.ts:74-105 | both favourite sets start empty, nothing is in flight, the list is loading and empty, and page 1 of the route's source is requested |
| `MovieListPageComponent.MovieListPage.FavoritesLoaded` | apps/movies/src/app/movie/movie-list-page/movie-list-page.component.ts:82-87 | `favoriteIds` becomes exactly the ids of the favourites list; nothing else changes |
| `MovieListPageComponent.MovieListPage.ToggleFavorite` | apps/movies/src/app/movie/movie-list-page/movie-list-page.component.ts:108-138 | a toggle is accepted exactly when none for that id is in flight; the id is loading afterwards; a dropped toggle changes nothing; `favoriteIds` and other ids are untouched |
| `MovieListPageComponent.MovieListPage.ToggleSettled` | apps/movies/src/app/movie/movie-list-page/movie-list-page.component.ts:114-130 | the answer for an in-flight id makes the id a favourite exactly when it is true and clears its loading mark; every other id keeps its membership in both sets; the invariant is kept |
| `MovieListPageComponent.MovieListPage.RouteChanged` | apps/movies/src/app/movie/movie-list-page/movie-list-page.component.ts:90-105 | a new session starts: the list is empty and loading, and page 1 of the source chosen by the parameters is requested |
| `MovieListPageComponent.MovieListPage.Paginate` | apps/movies/src/app/movie/movie-list-page/movie-list-page.component.ts:158-163 | a trigger requests the next page number exactly when no page is in flight, and is dropped otherwise; one request stays outstanding |
| `MovieListPageComponent.MovieListPage.PageReceived` | apps/movies/src/app/movie/movie-list-page/movie-list-page.component.ts:164-167 | a page for the live session appends to the accumulated list, which `movies` then shows; a page for an abandoned session changes nothing |
| `MovieListPageComponent.CategoryLoadExample` | apps/movies/src/app/movie/movie-list-page/movie-list-page.component.ts:82-105 | a category route whose first page is movies 1 and 2, with movie 2 as a favourite, shows both movies, and the favourite view shows only movie 2 |
| `MovieListPageComponent.ToggleExample` | apps/movies/src/app/movie/movie-list-page/movie-list-page.component.ts:119-138 | toggling movie 1 while movie 2 is the only favourite, with a true answer, leaves both as favourites and nothing loading |

## Left out

- The template, rendering, dependency injection, signals plumbing, the SVG
  component and the visibility directive: these are presentation, not logic.
  The template only fires pagination triggers while data is shown. The model
  accepts a trigger at any time and drops it while a page is in flight.
- The HTTP calls of the movie service are not modelled. A call is an issued
  request (an accepted toggle, a `PageRequest`), and its answer is a later event.
  Timing, real asynchrony and the operators' scheduling are not modelled.
- The suspense wrapper's module is not part of this model. `movies` is loading,
  failed, or the data. Its placeholder and count options are not modelled.
- Error paths: a failed toggle is not caught. A failed page fetch becomes the
  suspense wrapper's failed state, which the template shows with the error's
  name and message (movie-list-page.component.ts:39-41). The model never
  produces `Failed`. It does not model the stuck loading mark or the ended
  session that follow a failure.
- The reducer adds to and deletes from the Set objects it reads from the state
  before emitting copies. That in-place mutation of earlier snapshots is an
  object-identity artefact. The model keeps only the fresh sets it emits.
- The service answers only
  toggle calls that were issued. An answer for an id with no toggle in flight
  cannot occur in the page, and the model treats it as a no-op.
- Tearing the page down (unsubscribing every source) is not modelled.
