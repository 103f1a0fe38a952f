/**
 * The movie list page as an event-driven state machine. Every asynchronous
 * completion the page reacts to is one method call, taken in the order the
 * single event loop delivers them:
 *
 *   constructor         the page is created and reads the current route
 *   FavoritesLoaded     the favourites list arrives
 *   ToggleFavorite      the user asks to toggle a movie's favourite status
 *   ToggleSettled       the toggle call for a movie answers with its new status
 *   RouteChanged        the route parameters change
 *   Paginate            the end of the list becomes visible
 *   PageReceived        a requested page arrives
 */
module MovieListPageComponent {
  import opened MovieModel
  import opened Favorites
  import opened Pagination

  class MovieListPage {
    // The three slices of the page state.
    var movies: Suspense
    var favoriteIds: set<MovieId>
    var favoritesLoading: set<MovieId>

    // Toggle streams grouped by movie id: the ids whose toggle call is outstanding.
    var togglesInFlight: set<MovieId>

    // The live pagination session (the inner stream of the route switch).
    var session: nat
    var source: Source
    var pageInFlight: bool
    var pagesRequested: nat
    var allMovies: seq<Movie>
    ghost var receivedPages: seq<seq<Movie>>

    /**
     * The page invariant: an id is loading exactly when its toggle is in flight;
     * every requested page but the outstanding one has arrived; the accumulated
     * list is those pages in arrival order; and `movies` shows it once a page is there.
     * So with no page outstanding, the list is shown as data.
     */
    ghost predicate Valid()
      reads this
      ensures Valid() && !pageInFlight ==> movies == Data(allMovies)
    {
      && favoritesLoading == togglesInFlight
      && pagesRequested == |receivedPages| + (if pageInFlight then 1 else 0)
      && 1 <= pagesRequested
      && allMovies == Concat(receivedPages)
      && movies == (if receivedPages == [] then Loading else Data(allMovies))
    }

    /** The page request the session is waiting for, if any. */
    function OutstandingRequest(): Option<PageRequest>
      reads this
    {
      if pageInFlight then Some(PageRequest(session, source, pagesRequested)) else None
    }

    /**
     * Creating the page: both favourite sets start empty, and the route's current
     * parameters open the first session, which requests page 1 at once.
     */
    constructor (params: RouteParams)
      ensures Valid()
      ensures favoriteIds == {} && favoritesLoading == {} && togglesInFlight == {}
      ensures movies == Loading && allMovies == [] && receivedPages == []
      ensures source == SourceOf(params)
      ensures OutstandingRequest() == Some(PageRequest(session, SourceOf(params), 1))
    {
      movies := Loading;
      favoriteIds := {};
      favoritesLoading := {};
      togglesInFlight := {};
      session := 0;
      source := SourceOf(params);
      pageInFlight := true;
      pagesRequested := 1;
      allMovies := [];
      receivedPages := [];
    }

    /** The favourites list arrives: `favoriteIds` becomes exactly its ids. */
    method FavoritesLoaded(favorites: seq<Movie>)
      requires Valid()
      modifies this`favoriteIds
      ensures Valid()
      ensures favoriteIds == IdsOf(favorites)
    {
      favoriteIds := IdsOf(favorites);
    }

    /**
     * A toggle request for `movie`. It is accepted (and the service's toggle call
     * issued) exactly when no toggle for the same id is in flight; a request for a
     * busy id is dropped. Either way the id is loading afterwards, and nothing
     * else changes.
     */
    method ToggleFavorite(movie: Movie) returns (accepted: bool)
      requires Valid()
      modifies this`favoritesLoading, this`togglesInFlight
      ensures Valid()
      ensures accepted <==> movie.id !in old(togglesInFlight)
      ensures favoritesLoading == old(favoritesLoading) + {movie.id}
      ensures togglesInFlight == old(togglesInFlight) + {movie.id}
      ensures !accepted ==> favoritesLoading == old(favoritesLoading)
    {
      accepted := movie.id !in togglesInFlight;
      if accepted {
        togglesInFlight := togglesInFlight + {movie.id};
        favoritesLoading := StartToggle(favoritesLoading, movie.id);
      }
    }

    /**
     * The toggle call for `id` answers `isFavorite`. When a toggle for `id` is in
     * flight, the answer is applied to the latest sets: `id` is a favourite exactly
     * when the answer says so, it stops loading, and every other id keeps its
     * membership in both sets. An answer for an id with no toggle in flight
     * changes nothing.
     */
    method ToggleSettled(id: MovieId, isFavorite: bool) returns (applied: bool)
      requires Valid()
      modifies this`favoriteIds, this`favoritesLoading, this`togglesInFlight
      ensures Valid()
      ensures applied <==> id in old(togglesInFlight)
      ensures applied ==> (id in favoriteIds <==> isFavorite)
      ensures id !in favoritesLoading && id !in togglesInFlight
      ensures forall y :: y != id ==> (y in favoriteIds <==> y in old(favoriteIds))
      ensures forall y :: y != id ==> (y in favoritesLoading <==> y in old(favoritesLoading))
      ensures !applied ==> favoriteIds == old(favoriteIds) && favoritesLoading == old(favoritesLoading)
    {
      applied := id in togglesInFlight;
      if applied {
        var sets := SettleToggle(FavoriteSets(favoriteIds, favoritesLoading), id, isFavorite);
        favoriteIds := sets.favoriteIds;
        favoritesLoading := sets.favoritesLoading;
        togglesInFlight := togglesInFlight - {id};
      }
    }

    /**
     * New route parameters: the previous session is abandoned, the list restarts
     * empty and loading, and the new session requests page 1 of the source the
     * parameters choose.
     */
    method RouteChanged(params: RouteParams) returns (request: PageRequest)
      requires Valid()
      modifies this`movies, this`session, this`source, this`pageInFlight, this`pagesRequested,
               this`allMovies, this`receivedPages
      ensures Valid()
      ensures session == old(session) + 1
      ensures movies == Loading && allMovies == [] && receivedPages == []
      ensures source == SourceOf(params)
      ensures request == PageRequest(session, SourceOf(params), 1)
      ensures OutstandingRequest() == Some(request)
    {
      session := session + 1;
      source := SourceOf(params);
      pageInFlight := true;
      pagesRequested := 1;
      allMovies := [];
      receivedPages := [];
      movies := Loading;
      request := PageRequest(session, source, 1);
    }

    /**
     * A pagination trigger. With no page in flight it requests the next page
     * number of the session; while a page is in flight it is dropped.
     */
    method Paginate() returns (request: Option<PageRequest>)
      requires Valid()
      modifies this`pageInFlight, this`pagesRequested
      ensures Valid()
      ensures request.Some? <==> !old(pageInFlight)
      ensures request.Some? ==> request.value == PageRequest(session, source, old(pagesRequested) + 1)
      ensures pageInFlight
      ensures pagesRequested == old(pagesRequested) + (if request.Some? then 1 else 0)
      ensures OutstandingRequest().Some?
    {
      if pageInFlight {
        request := None;
      } else {
        pagesRequested := pagesRequested + 1;
        pageInFlight := true;
        request := Some(PageRequest(session, source, pagesRequested));
      }
    }

    /**
     * A page arrives for session `sessionId`. If that is the live session and it
     * is waiting for a page, the page is appended to the accumulated list and
     * `movies` shows the list; a page of an abandoned session is ignored.
     */
    method PageReceived(sessionId: nat, page: seq<Movie>) returns (applied: bool)
      requires Valid()
      modifies this`movies, this`pageInFlight, this`allMovies, this`receivedPages
      ensures Valid()
      ensures applied <==> sessionId == session && old(pageInFlight)
      ensures applied ==> allMovies == old(allMovies) + page && receivedPages == old(receivedPages) + [page]
      ensures applied ==> movies == Data(allMovies) && !pageInFlight
      ensures !applied ==> allMovies == old(allMovies) && receivedPages == old(receivedPages)
                           && movies == old(movies) && pageInFlight == old(pageInFlight)
    {
      applied := sessionId == session && pageInFlight;
      if applied {
        ConcatSnoc(receivedPages, page);
        receivedPages := receivedPages + [page];
        allMovies := allMovies + page;
        movies := Data(allMovies);
        pageInFlight := false;
      }
    }
  }

  /**
   * A category route whose first page holds movies 1 and 2, and a favourites
   * list holding movie 2: the page shows both movies and the widget shows movie 2.
   */
  method CategoryLoadExample() returns (shown: Suspense, widget: seq<Movie>)
    ensures shown == Data([Movie("1", "A"), Movie("2", "B")])
    ensures widget == [Movie("2", "B")]
  {
    var page := new MovieListPage(RouteParams(Some("action"), None));
    var request := page.OutstandingRequest();
    assert request == Some(PageRequest(page.session, MovieList("action"), 1));
    var applied := page.PageReceived(request.value.session, [Movie("1", "A"), Movie("2", "B")]);
    var favoritesList := [Movie("2", "B")];
    page.FavoritesLoaded(favoritesList);
    assert favoritesList[0].id == "2";
    shown := page.movies;
    assert page.favoriteIds == {"2"};
    widget := FavoriteMovies(page.movies, page.favoriteIds);
  }

  /**
   * Toggling movie 1 while only movie 2 is a favourite, with the service
   * answering true: both are favourites and nothing is loading afterwards.
   */
  method ToggleExample() returns (favorites: set<MovieId>, loading: set<MovieId>)
    ensures favorites == {"1", "2"} && loading == {}
  {
    var page := new MovieListPage(RouteParams(None, Some("28")));
    var favoritesList := [Movie("2", "B")];
    page.FavoritesLoaded(favoritesList);
    assert favoritesList[0].id == "2";
    assert page.favoriteIds == {"2"};
    var accepted := page.ToggleFavorite(Movie("1", "A"));
    assert page.favoritesLoading == {"1"};
    var applied := page.ToggleSettled("1", true);
    favorites, loading := page.favoriteIds, page.favoritesLoading;
  }
}
