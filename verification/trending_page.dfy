/** The Trending page: the weekly or daily trending list, loaded page by
    page as the user scrolls. */
module Trending {
  import opened Common
  import opened Pagination
  import Tmdb

  class TrendingPage {
    var movies: seq<Movie>
    var loading: bool
    var error: Option<ApiError>
    var page: int
    var hasMore: bool
    var timeWindow: string
    const client: Tmdb.Client

    /** The pagination fields as one value. */
    function State(): Pager
      reads this
    {
      Pager(movies, page, hasMore, loading, error)
    }

    /** The first render: nothing loaded, `loading` already true, the weekly
        list selected. */
    constructor (client: Tmdb.Client)
      ensures this.client == client && timeWindow == "week"
      ensures State() == Pager([], 1, true, true, None)
    {
      this.client := client;
      movies, loading, error, page, hasMore := [], true, None, 1, true;
      timeWindow := "week";
    }

    /** The start of `loadMovies(pageToLoad, reset)`: set `loading` and send
        the request for the current time window. There is no `loading`
        guard here; only `LoadMore` has one. */
    method LoadMovies(pageToLoad: int, reset: bool) returns (p: Pending)
      modifies this
      ensures State() == Started(old(State())) && timeWindow == old(timeWindow)
      ensures p == Pending(Tmdb.RequestFor(client, Tmdb.Trending(pageToLoad, timeWindow)), reset)
    {
      loading := true;
      p := Pending(Tmdb.TrendingRequest(client, pageToLoad, timeWindow), reset);
    }

    /** The end of `loadMovies` for the load `p`, once its response or error
        has arrived. */
    method Settle(p: Pending, outcome: Result<PageData, ApiError>)
      modifies this
      ensures State() == Settled(old(State()), p.reset, outcome)
      ensures timeWindow == old(timeWindow)
    {
      if outcome.Success? {
        var data := outcome.value;
        if p.reset {
          movies := data.results;
        } else {
          movies := movies + data.results;
        }
        hasMore := data.page < data.totalPages;
        page := data.page;
        error := None;
      } else {
        error := Some(outcome.error);
      }
      loading := false;
    }

    /** `loadMore`: the next page in append mode, unless a load is in
        flight or the last page is already there. */
    method LoadMore() returns (p: Option<Pending>)
      modifies this
      ensures timeWindow == old(timeWindow)
      ensures !CanLoadMore(old(State())) ==> p.None? && State() == old(State())
      ensures CanLoadMore(old(State())) ==>
        && p == Some(Pending(Tmdb.RequestFor(client, Tmdb.Trending(old(page) + 1, timeWindow)), false))
        && State() == Started(old(State()))
    {
      if !loading && hasMore {
        var started := LoadMovies(page + 1, false);
        p := Some(started);
      } else {
        p := None;
      }
    }

    /** The effect that runs on mount: page 1 in reset mode. */
    method Mount() returns (p: Pending)
      modifies this
      ensures State() == Started(old(State())) && timeWindow == old(timeWindow)
      ensures p == Pending(Tmdb.RequestFor(client, Tmdb.Trending(1, timeWindow)), true)
    {
      p := LoadMovies(1, true);
    }

    /** Picking a time window; the effect reloads page 1 in reset mode when
        the window actually changed. */
    method ChangeTimeWindow(w: string) returns (p: Option<Pending>)
      modifies this
      ensures timeWindow == w
      ensures w == old(timeWindow) ==> p.None? && State() == old(State())
      ensures w != old(timeWindow) ==>
        && p == Some(Pending(Tmdb.RequestFor(client, Tmdb.Trending(1, w)), true))
        && State() == Started(old(State()))
    {
      var changed := w != timeWindow;
      timeWindow := w;
      if changed {
        var started := LoadMovies(1, true);
        p := Some(started);
      } else {
        p := None;
      }
    }
  }

  /** While a load is in flight, however often the sentinel fires, `loadMore`
      sends nothing and changes nothing. */
  method LoadMoreWhileLoading(trending: TrendingPage)
    requires trending.loading
    modifies trending
    ensures trending.State() == old(trending.State())
  {
    var first := trending.LoadMore();
    var second := trending.LoadMore();
    assert first.None? && second.None?;
  }
}
