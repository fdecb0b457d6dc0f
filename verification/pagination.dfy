/** The infinite-scroll state that the Trending, Search Results and Discover
    pages each keep: `{movies, page, hasMore, loading, error}`, and the steps
    a load takes through it. A load is asynchronous: it starts (`loading`
    set, request sent) and later settles with the response or the error. */
module Pagination {
  import opened Common
  import Tmdb

  datatype Pager = Pager(movies: seq<Movie>, page: int, hasMore: bool, loading: bool, error: Option<ApiError>)

  /** A load in flight: the request sent and whether it was started in
      reset mode (the closure's `reset` argument). */
  datatype Pending = Pending(request: Tmdb.Request, reset: bool)

  /** `setLoading(true)`, the first step of `loadMovies`. */
  function Started(s: Pager): (r: Pager)
    ensures r.loading
    ensures r.movies == s.movies && r.page == s.page && r.hasMore == s.hasMore && r.error == s.error
  {
    s.(loading := true)
  }

  /** The rest of `loadMovies` once the response or the error is in. On
      success a reset load replaces the list and any other load appends the
      page after it; `page` and `hasMore` come from the response's counters
      and the error is cleared. On failure the error is recorded and
      everything loaded so far is kept. Either way `loading` ends false. */
  function Settled(s: Pager, reset: bool, outcome: Result<PageData, ApiError>): (r: Pager)
    ensures !r.loading
    ensures outcome.Success? ==>
      && r.hasMore == (outcome.value.page < outcome.value.totalPages)
      && r.page == outcome.value.page
      && r.error.None?
      && (reset ==> r.movies == outcome.value.results)
      && (!reset ==> |r.movies| == |s.movies| + |outcome.value.results|
                     && r.movies[..|s.movies|] == s.movies
                     && r.movies[|s.movies|..] == outcome.value.results)
    ensures outcome.Failure? ==>
      && r.error == Some(outcome.error)
      && r.movies == s.movies && r.page == s.page && r.hasMore == s.hasMore
  {
    match outcome
    case Success(data) =>
      Pager(if reset then data.results else s.movies + data.results,
            data.page, data.page < data.totalPages, false, None)
    case Failure(e) =>
      s.(error := Some(e), loading := false)
  }

  /** The guard of `loadMore`. */
  predicate CanLoadMore(s: Pager) {
    !s.loading && s.hasMore
  }

  /** `setMovies([]); setPage(1); setHasMore(true)`: the reset a page does
      before loading page 1 for new search terms or filters. */
  function Cleared(s: Pager): (r: Pager)
    ensures r.movies == [] && r.page == 1 && r.hasMore
    ensures r.loading == s.loading && r.error == s.error
  {
    s.(movies := [], page := 1, hasMore := true)
  }

  /** One `loadMore` that, when the guard lets it through, loads to
      completion with the given response. */
  function LoadMoreStep(s: Pager, outcome: Result<PageData, ApiError>): (r: Pager)
    ensures !CanLoadMore(s) ==> r == s
    ensures CanLoadMore(s) ==> r == Settled(Started(s), false, outcome)
  {
    if CanLoadMore(s) then Settled(Started(s), false, outcome) else s
  }

  /** Loads in append mode, one after the other, each to completion. */
  function AppendLoads(s: Pager, outcomes: seq<Result<PageData, ApiError>>): Pager
    decreases |outcomes|
  {
    if outcomes == [] then s
    else AppendLoads(Settled(Started(s), false, outcomes[0]), outcomes[1..])
  }

  /** The movies that successful outcomes deliver, in arrival order. */
  function Delivered(outcomes: seq<Result<PageData, ApiError>>): seq<Movie> {
    if outcomes == [] then []
    else (if outcomes[0].Success? then outcomes[0].value.results else []) + Delivered(outcomes[1..])
  }

  /** Append-mode loads only ever add at the end: whatever mix of successes
      and failures arrives, the list is the old list followed by the pages
      that succeeded, in order. Failures lose nothing. */
  lemma {:induction false} AppendLoadsAccumulate(s: Pager, outcomes: seq<Result<PageData, ApiError>>)
    ensures AppendLoads(s, outcomes).movies == s.movies + Delivered(outcomes)
    ensures |outcomes| > 0 ==> !AppendLoads(s, outcomes).loading
    decreases |outcomes|
  {
    if outcomes != [] {
      var next := Settled(Started(s), false, outcomes[0]);
      AppendLoadsAccumulate(next, outcomes[1..]);
      var first := if outcomes[0].Success? then outcomes[0].value.results else [];
      assert next.movies == s.movies + first;
      assert s.movies + first + Delivered(outcomes[1..]) == s.movies + (first + Delivered(outcomes[1..]));
    }
  }

  /** `loadMore` repeated, each call settling with the next response. */
  function Scroll(s: Pager, responses: seq<PageData>): Pager
    decreases |responses|
  {
    if responses == [] then s
    else Scroll(LoadMoreStep(s, Success(responses[0])), responses[1..])
  }

  /** The responses for pages `from` .. `from + |responses| - 1` of a listing
      with `total` pages of `n` movies each. */
  predicate PagesOfListing(responses: seq<PageData>, from: int, total: int, n: nat) {
    forall i :: 0 <= i < |responses| ==>
      && responses[i].page == from + i
      && responses[i].totalPages == total
      && |responses[i].results| == n
  }

  /** Scrolling from page `p` of `k` through the remaining pages: every
      `loadMore` passes its guard, and at the end all `k` pages are there. */
  lemma {:induction false} ScrollToLastPage(s: Pager, responses: seq<PageData>, k: int, n: nat)
    requires 1 <= s.page <= k && s.page == k - |responses|
    requires !s.loading && s.hasMore == (s.page < k)
    requires |s.movies| == s.page * n
    requires PagesOfListing(responses, s.page + 1, k, n)
    ensures Scroll(s, responses).page == k
    ensures |Scroll(s, responses).movies| == k * n
    ensures !Scroll(s, responses).hasMore && !Scroll(s, responses).loading
    decreases |responses|
  {
    if responses != [] {
      var next := LoadMoreStep(s, Success(responses[0]));
      assert CanLoadMore(s);
      assert |next.movies| == s.page * n + n == (s.page + 1) * n;
      assert PagesOfListing(responses[1..], next.page + 1, k, n) by {
        forall i | 0 <= i < |responses[1..]|
          ensures responses[1..][i].page == next.page + 1 + i
        {
          assert responses[1..][i] == responses[i + 1];
        }
      }
      ScrollToLastPage(next, responses[1..], k, n);
    }
  }

  /** The end-to-end scroll of a listing with `k` pages of `n` movies: the
      first page loads in reset mode, `k - 1` calls of `loadMore` bring the
      rest, and then the list holds `k * n` movies, `hasMore` is false and
      any further `loadMore` does nothing. */
  lemma ScrollWholeListing(s: Pager, first: PageData, rest: seq<PageData>, k: int, n: nat)
    requires k >= 1 && |rest| == k - 1
    requires first.page == 1 && first.totalPages == k && |first.results| == n
    requires PagesOfListing(rest, 2, k, n)
    ensures var loaded := Scroll(Settled(Started(s), true, Success(first)), rest);
      && |loaded.movies| == k * n && loaded.page == k && !loaded.hasMore
      && !CanLoadMore(loaded)
      && forall o :: LoadMoreStep(loaded, o) == loaded
  {
    ScrollToLastPage(Settled(Started(s), true, Success(first)), rest, k, n);
  }
}
