/**
 * The pagination pieces of the page: which service call a route session uses,
 * the page requests it issues, and the concatenation of received pages.
 */
module Pagination {
  import opened MovieModel

  /** The route parameters the page reads: an optional category and an optional genre id. */
  datatype RouteParams = RouteParams(category: Option<string>, id: Option<string>)

  /** The page-fetch call of a session: `getMovieList(category, page)` or `getMoviesByGenre(id, page)`. */
  datatype Source = MovieList(category: string) | ByGenre(genreId: Option<string>)

  /** A request for page `page` (1-based) of `source`, issued by route session `session`. */
  datatype PageRequest = PageRequest(session: nat, source: Source, page: nat)

  /** A category is used when it is present and non-empty (a truthy string). */
  predicate HasCategory(params: RouteParams) {
    params.category.Some? && params.category.value != ""
  }

  /** The category list when a category is set, the genre list (by `id`) otherwise. */
  function SourceOf(params: RouteParams): (s: Source)
    ensures s.MovieList? <==> HasCategory(params)
    ensures s.MovieList? ==> Some(s.category) == params.category
    ensures s.ByGenre? ==> s.genreId == params.id
  {
    if HasCategory(params) then MovieList(params.category.value) else ByGenre(params.id)
  }

  /** The pages of a session joined in the order they arrived. */
  function Concat(pages: seq<seq<Movie>>): (r: seq<Movie>)
    ensures forall m :: m in r <==> exists i :: 0 <= i < |pages| && m in pages[i]
  {
    if pages == [] then [] else pages[0] + Concat(pages[1..])
  }

  /** Receiving one more page appends exactly that page to the accumulated list. */
  lemma {:induction false} ConcatSnoc(pages: seq<seq<Movie>>, page: seq<Movie>)
    ensures Concat(pages + [page]) == Concat(pages) + page
  {
    if pages == [] {
      assert [] + [page] == [page];
      assert [page][1..] == [];
    } else {
      assert (pages + [page])[0] == pages[0];
      assert (pages + [page])[1..] == pages[1..] + [page];
      ConcatSnoc(pages[1..], page);
    }
  }

  /** The pages of two stretches of a session, joined, are the two accumulated lists joined. */
  lemma {:induction false} ConcatAppend(pages: seq<seq<Movie>>, more: seq<seq<Movie>>)
    ensures Concat(pages + more) == Concat(pages) + Concat(more)
  {
    if pages == [] {
      assert pages + more == more;
    } else {
      assert (pages + more)[0] == pages[0];
      assert (pages + more)[1..] == pages[1..] + more;
      ConcatAppend(pages[1..], more);
    }
  }

  /** The accumulated list only grows: what is shown after some pages is a prefix of what is shown after more. */
  lemma ConcatPrefix(pages: seq<seq<Movie>>, more: seq<seq<Movie>>)
    ensures Concat(pages) <= Concat(pages + more)
  {
    ConcatAppend(pages, more);
  }
}
