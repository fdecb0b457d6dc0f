/** The header's search box: a controlled input that follows the store's
    last search, submits non-blank queries and can be cleared. */
module SearchBar {
  import opened Common
  import opened Text
  import MovieContext
  import Storage

  class SearchBox {
    var query: string
    const store: MovieContext.MovieStore

    /** The first render: an empty box. */
    constructor (store: MovieContext.MovieStore)
      ensures this.store == store && query == ""
    {
      this.store := store;
      query := "";
    }

    /** The effect on `lastSearch`: the box shows the store's last search. */
    method SyncFromLastSearch()
      modifies this
      ensures query == store.lastSearch
    {
      query := store.lastSearch;
    }

    /** Typing into the box. */
    method Type(text: string)
      modifies this
      ensures query == text
    {
      query := text;
    }

    /** `handleSearch`: a query with something besides whitespace is recorded
        as typed (untrimmed) and becomes the target of the navigation; a blank
        one does nothing. */
    method HandleSearch() returns (navigateTo: Option<string>)
      modifies this, store, store.storage
      ensures query == old(query)
      ensures Trim(query) == "" ==>
        && navigateTo.None? && store.lastSearch == old(store.lastSearch)
        && store.storage.entries == old(store.storage.entries)
      ensures Trim(query) != "" ==>
        && navigateTo == Some(query) && store.lastSearch == query
        && store.storage.entries ==
             if query != old(store.lastSearch) then old(store.storage.entries)[Storage.LastSearchKey := Storage.Text(query)]
             else old(store.storage.entries)
      ensures store.favorites == old(store.favorites) && store.searchResults == old(store.searchResults)
      ensures old(store.Persisted()) ==> store.Persisted()
    {
      if Trim(query) != "" {
        var changed := query != store.lastSearch;
        store.UpdateLastSearch(query);
        if changed {
          SyncFromLastSearch();
        }
        navigateTo := Some(query);
      } else {
        navigateTo := None;
      }
    }

    /** `handleClear`: empty the box and the store's last search. The save
        effect skips empty values, so the stored last search stays. */
    method HandleClear()
      modifies this, store, store.storage
      ensures query == "" && store.lastSearch == ""
      ensures store.storage.entries == old(store.storage.entries)
      ensures store.favorites == old(store.favorites) && store.searchResults == old(store.searchResults)
    {
      query := "";
      var changed := store.lastSearch != "";
      store.UpdateLastSearch("");
      if changed {
        SyncFromLastSearch();
      }
    }
  }

  /** After a search and a clear, a reload would bring the searched query
      back: storage still holds it while the store shows nothing. */
  method SearchThenClear(box: SearchBox)
    requires box.store.Persisted()
    modifies box, box.store, box.store.storage
    ensures var q := old(box.query);
      Trim(q) != "" ==> box.store.storage.GetItem(Storage.LastSearchKey) == Some(Storage.Text(q))
    ensures box.store.lastSearch == "" && box.query == ""
  {
    var target := box.HandleSearch();
    box.HandleClear();
  }
}
