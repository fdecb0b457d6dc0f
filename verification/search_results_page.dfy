/** The Search Results page: the matches for the `query` route parameter,
    loaded page by page. Each successful load also hands its page to the
    movie store as the latest search results. */
module SearchResults {
  import opened Common
  import opened Pagination
  import Tmdb
  import MovieContext
  import Storage

  /** `if (query)`: the parameter is present and non-empty. */
  predicate HasQuery(query: Option<string>) {
    query.Some? && query.value != ""
  }

  class SearchResultsPage {
    var movies: seq<Movie>
    var loading: bool
    var error: Option<ApiError>
    var page: int
    var hasMore: bool
    var query: Option<string>
    const client: Tmdb.Client
    const store: MovieContext.MovieStore

    function State(): Pager
      reads this
    {
      Pager(movies, page, hasMore, loading, error)
    }

    /** The first render, for the query in the URL. */
    constructor (client: Tmdb.Client, store: MovieContext.MovieStore, query: Option<string>)
      ensures this.client == client && this.store == store && this.query == query
      ensures State() == Pager([], 1, true, false, None)
    {
      this.client, this.store, this.query := client, store, query;
      movies, loading, error, page, hasMore := [], false, None, 1, true;
    }

    /** The start of `loadMovies(pageToLoad, reset)`; nothing happens
        without a query. */
    method LoadMovies(pageToLoad: int, reset: bool) returns (p: Option<Pending>)
      modifies this
      ensures query == old(query)
      ensures !HasQuery(query) ==> p.None? && State() == old(State())
      ensures HasQuery(query) ==>
        && p == Some(Pending(Tmdb.RequestFor(client, Tmdb.Search(query.value, pageToLoad)), reset))
        && State() == Started(old(State()))
    {
      if !HasQuery(query) {
        return None;
      }
      loading := true;
      p := Some(Pending(Tmdb.SearchRequest(client, query.value, pageToLoad), reset));
    }

    /** The end of `loadMovies` for the load `p`. On success the store's
        search results become this page's results alone, not the
        accumulated list. */
    method Settle(p: Pending, outcome: Result<PageData, ApiError>)
      modifies this, store
      ensures State() == Settled(old(State()), p.reset, outcome) && query == old(query)
      ensures store.searchResults == if outcome.Success? then outcome.value.results else old(store.searchResults)
      ensures store.favorites == old(store.favorites) && store.lastSearch == old(store.lastSearch)
    {
      if outcome.Success? {
        var data := outcome.value;
        if p.reset {
          movies := data.results;
        } else {
          movies := movies + data.results;
        }
        store.UpdateSearchResults(data.results);
        hasMore := data.page < data.totalPages;
        page := data.page;
        error := None;
      } else {
        error := Some(outcome.error);
      }
      loading := false;
    }

    /** `loadMore`: the next page in append mode, unless a load is in
        flight or the last page is already there. */
    method LoadMore() returns (p: Option<Pending>)
      modifies this
      ensures query == old(query)
      ensures !CanLoadMore(old(State())) || !HasQuery(query) ==> p.None? && State() == old(State())
      ensures CanLoadMore(old(State())) && HasQuery(query) ==>
        && p == Some(Pending(Tmdb.RequestFor(client, Tmdb.Search(query.value, old(page) + 1)), false))
        && State() == Started(old(State()))
    {
      if !loading && hasMore {
        p := LoadMovies(page + 1, false);
      } else {
        p := None;
      }
    }

    /** The effect for the current query: record it as the last search,
        clear the list, and load page 1 in reset mode. */
    method QueryEffect() returns (p: Option<Pending>)
      modifies this, store, store.storage
      ensures query == old(query)
      ensures !HasQuery(query) ==>
        && p.None? && State() == old(State())
        && store.lastSearch == old(store.lastSearch) && store.storage.entries == old(store.storage.entries)
      ensures HasQuery(query) ==>
        && store.lastSearch == query.value
        && p == Some(Pending(Tmdb.RequestFor(client, Tmdb.Search(query.value, 1)), true))
        && State() == Started(Cleared(old(State())))
        && store.storage.entries ==
             (if query.value != old(store.lastSearch)
              then old(store.storage.entries)[Storage.LastSearchKey := Storage.Text(query.value)]
              else old(store.storage.entries))
      ensures store.favorites == old(store.favorites) && store.searchResults == old(store.searchResults)
      ensures old(store.Persisted()) ==> store.Persisted()
    {
      if HasQuery(query) {
        store.UpdateLastSearch(query.value);
        movies := [];
        page := 1;
        hasMore := true;
        p := LoadMovies(1, true);
      } else {
        p := None;
      }
    }

    /** A new `query` in the URL; the effect runs when it changed. */
    method Navigate(q: Option<string>) returns (p: Option<Pending>)
      modifies this, store, store.storage
      ensures query == q
      ensures q == old(query) ==> p.None? && State() == old(State())
      ensures !(q != old(query) && HasQuery(q)) ==>
        store.lastSearch == old(store.lastSearch) && store.storage.entries == old(store.storage.entries)
      ensures q != old(query) && HasQuery(q) ==>
        && store.lastSearch == q.value
        && p == Some(Pending(Tmdb.RequestFor(client, Tmdb.Search(q.value, 1)), true))
        && State() == Started(Cleared(old(State())))
        && store.storage.entries ==
             (if q.value != old(store.lastSearch)
              then old(store.storage.entries)[Storage.LastSearchKey := Storage.Text(q.value)]
              else old(store.storage.entries))
      ensures q != old(query) && !HasQuery(q) ==> p.None? && State() == old(State())
      ensures store.favorites == old(store.favorites) && store.searchResults == old(store.searchResults)
      ensures old(store.Persisted()) ==> store.Persisted()
    {
      var changed := q != query;
      query := q;
      if changed {
        p := QueryEffect();
      } else {
        p := None;
      }
    }
  }

  /** As written, the query effect also lists the store's `updateLastSearch`
      among its dependencies. The store recreates that function on each of
      its renders, and a successful load re-renders the store (it calls
      `updateSearchResults` with a new array), so the effect runs again
      right after every successful load: it clears the list and starts page
      1 again. */
  function SettledAsWritten(s: Pager, reset: bool, outcome: Result<PageData, ApiError>): (r: Pager)
    ensures outcome.Success? ==> r == Pager([], 1, true, true, None)
    ensures outcome.Failure? ==> r == Settled(s, reset, outcome)
  {
    var settled := Settled(s, reset, outcome);
    if outcome.Success? then Started(Cleared(settled)) else settled
  }

  /** With that dependency, no successful load leaves anything on screen to
      scroll past: the list is empty again, the page counter is back at 1
      and a load is in flight, so `loadMore` can never take a second page. */
  lemma AsWrittenNeverAccumulates(s: Pager, reset: bool, data: PageData)
    ensures SettledAsWritten(s, reset, Success(data)).movies == []
    ensures SettledAsWritten(s, reset, Success(data)).page == 1
    ensures !CanLoadMore(SettledAsWritten(s, reset, Success(data)))
  {
  }

  /** With the effect keyed on the query alone (what `Settle` above models),
      a load of page 2 after page 1 keeps both pages, in order. */
  lemma KeyedOnQueryAccumulates(s: Pager, first: PageData, second: PageData)
    requires first.page == 1 && first.totalPages >= 2
    ensures var one := Settled(Started(s), true, Success(first));
      && CanLoadMore(one)
      && LoadMoreStep(one, Success(second)).movies == first.results + second.results
  {
  }
}
