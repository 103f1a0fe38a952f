/**
 * Values shared by the movie list page: movies, the suspense wrapper that the
 * page keeps its movie list in, and the derived `favoriteMovies` view.
 */
module MovieModel {

  datatype Option<T> = None | Some(value: T)

  /**
   * The id is the key movies are grouped and kept in sets by; the title only
   * feeds the favourites widget. Two movies are equal when id and title agree.
   */
  type MovieId = string

  datatype Movie = Movie(id: MovieId, title: string)

  /**
   * The tri-state value the `movies` slice holds: a request in progress,
   * a failure carrying the error's name and message, or the loaded list.
   */
  datatype Suspense =
    | Loading
    | Data(movies: seq<Movie>)
    | Failed(name: string, message: string)

  /** The movies of `s` whose id is a favourite, in their original order. */
  function FilterFavorites(s: seq<Movie>, favoriteIds: set<MovieId>): (r: seq<Movie>)
    ensures |r| <= |s|
    ensures forall m :: m in r <==> m in s && m.id in favoriteIds
  {
    if s == [] then []
    else if s[0].id in favoriteIds then [s[0]] + FilterFavorites(s[1..], favoriteIds)
    else FilterFavorites(s[1..], favoriteIds)
  }

  /**
   * The `favoriteMovies` computed value: the loaded list (empty while loading
   * or after a failure) filtered by membership in `favoriteIds`.
   */
  function FavoriteMovies(movies: Suspense, favoriteIds: set<MovieId>): (r: seq<Movie>)
    ensures !movies.Data? ==> r == []
    ensures forall m :: m in r <==> movies.Data? && m in movies.movies && m.id in favoriteIds
  {
    FilterFavorites(if movies.Data? then movies.movies else [], favoriteIds)
  }

  /**
   * Filtering distributes over concatenation: the favourites of an accumulated
   * list are the favourites of each page, in page order. Together with the
   * empty and one-element cases below this pins the filter down completely.
   */
  lemma {:induction false} FilterAppend(a: seq<Movie>, b: seq<Movie>, favoriteIds: set<MovieId>)
    ensures FilterFavorites(a + b, favoriteIds) == FilterFavorites(a, favoriteIds) + FilterFavorites(b, favoriteIds)
  {
    if a == [] {
      assert a + b == b;
    } else {
      assert (a + b)[0] == a[0];
      assert (a + b)[1..] == a[1..] + b;
      FilterAppend(a[1..], b, favoriteIds);
    }
  }

  /** The base cases of the filter: nothing from nothing, one movie kept exactly when it is a favourite. */
  lemma FilterBase(m: Movie, favoriteIds: set<MovieId>)
    ensures FilterFavorites([], favoriteIds) == []
    ensures FilterFavorites([m], favoriteIds) == if m.id in favoriteIds then [m] else []
  {
  }

  /** A list all of whose movies are favourites is its own favourite view. */
  lemma {:induction false} FilterKeepsAll(s: seq<Movie>, favoriteIds: set<MovieId>)
    requires forall i :: 0 <= i < |s| ==> s[i].id in favoriteIds
    ensures FilterFavorites(s, favoriteIds) == s
  {
    if s != [] {
      FilterKeepsAll(s[1..], favoriteIds);
    }
  }

  /** A list none of whose movies is a favourite has an empty favourite view. */
  lemma {:induction false} FilterDropsAll(s: seq<Movie>, favoriteIds: set<MovieId>)
    requires forall i :: 0 <= i < |s| ==> s[i].id !in favoriteIds
    ensures FilterFavorites(s, favoriteIds) == []
  {
    if s != [] {
      FilterDropsAll(s[1..], favoriteIds);
    }
  }

  /**
   * Filtering twice by the same set filters once: the favourite view is closed
   * under its own test, so every movie the favourites widget lists is one the
   * current `favoriteIds` keeps, and the widget never shows a movie it would drop.
   */
  lemma {:induction false} FilterIdempotent(s: seq<Movie>, favoriteIds: set<MovieId>)
    ensures FilterFavorites(FilterFavorites(s, favoriteIds), favoriteIds) == FilterFavorites(s, favoriteIds)
  {
    var r := FilterFavorites(s, favoriteIds);
    forall i | 0 <= i < |r| ensures r[i].id in favoriteIds {
      assert r[i] in r;
    }
    FilterKeepsAll(r, favoriteIds);
  }
}
