/**
 * The set arithmetic of the favourites slices: the id set built from the
 * favourites list, and the two steps of the per-movie toggle reducer.
 */
module Favorites {
  import opened MovieModel

  /** The pair of slices the toggle reducer emits. */
  datatype FavoriteSets = FavoriteSets(favoriteIds: set<MovieId>, favoritesLoading: set<MovieId>)

  /** The ids of a list of movies, as `favoriteIds` holds them once the favourites list arrives. */
  function IdsOf(movies: seq<Movie>): (r: set<MovieId>)
    ensures forall id :: id in r <==> exists i :: 0 <= i < |movies| && movies[i].id == id
  {
    set i | 0 <= i < |movies| :: movies[i].id
  }

  /**
   * Accepting a toggle for `id`: the id joins the loading set and every
   * other id keeps its membership.
   */
  function StartToggle(favoritesLoading: set<MovieId>, id: MovieId): (r: set<MovieId>)
    ensures id in r
    ensures forall y :: y != id ==> (y in r <==> y in favoritesLoading)
  {
    favoritesLoading + {id}
  }

  /**
   * Settling a toggle for `id` with the service's answer `isFavorite`, applied
   * to the latest slices: `id` is a favourite exactly when the answer says so,
   * it is no longer loading, and no other id changes.
   */
  function SettleToggle(sets: FavoriteSets, id: MovieId, isFavorite: bool): (r: FavoriteSets)
    ensures id in r.favoriteIds <==> isFavorite
    ensures id !in r.favoritesLoading
    ensures forall y :: y != id ==> (y in r.favoriteIds <==> y in sets.favoriteIds)
    ensures forall y :: y != id ==> (y in r.favoritesLoading <==> y in sets.favoritesLoading)
  {
    FavoriteSets(
      if isFavorite then sets.favoriteIds + {id} else sets.favoriteIds - {id},
      sets.favoritesLoading - {id})
  }

  /** Settling toggles for two different movies gives the same slices in either order. */
  lemma SettleCommutes(sets: FavoriteSets, x: MovieId, a: bool, y: MovieId, b: bool)
    requires x != y
    ensures SettleToggle(SettleToggle(sets, x, a), y, b) == SettleToggle(SettleToggle(sets, y, b), x, a)
  {
  }

  /**
   * A toggle that starts and settles with no other event in between leaves the
   * loading set as it found it (when the id was not loading before), and
   * answers only for its own id.
   */
  lemma StartThenSettle(sets: FavoriteSets, id: MovieId, isFavorite: bool)
    requires id !in sets.favoritesLoading
    ensures SettleToggle(FavoriteSets(sets.favoriteIds, StartToggle(sets.favoritesLoading, id)), id, isFavorite).favoritesLoading
            == sets.favoritesLoading
  {
  }

  /**
   * Once the favourites list is loaded, the favourite view of that very list
   * is the list itself.
   */
  lemma FavoritesOfFavoriteList(favorites: seq<Movie>)
    ensures FilterFavorites(favorites, IdsOf(favorites)) == favorites
  {
    forall i | 0 <= i < |favorites| ensures favorites[i].id in IdsOf(favorites) {
    }
    FilterKeepsAll(favorites, IdsOf(favorites));
  }
}
