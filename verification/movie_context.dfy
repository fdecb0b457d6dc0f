/** The process-wide movie store: the favourites list (kept free of duplicate
    ids), the last search string and the latest page of search results. The
    favourites are written through to storage after every change; the last
    search is written only when it is non-empty. */
module MovieContext {
  import opened Common
  import opened Storage

  /** `favorites.some(movie => movie.id === id)`. */
  function IsFavorite(favorites: seq<Movie>, id: int): (r: bool)
    ensures r <==> exists i :: 0 <= i < |favorites| && favorites[i].id == id
  {
    if favorites == [] then false
    else favorites[0].id == id || IsFavorite(favorites[1..], id)
  }

  /** How many entries carry `id`. */
  function CountId(favorites: seq<Movie>, id: int): (n: nat)
    ensures n <= |favorites|
    ensures n == 0 <==> !IsFavorite(favorites, id)
  {
    if favorites == [] then 0
    else (if favorites[0].id == id then 1 else 0) + CountId(favorites[1..], id)
  }

  /** No two entries share an id. */
  predicate UniqueIds(favorites: seq<Movie>) {
    forall i, j :: 0 <= i < j < |favorites| ==> favorites[i].id != favorites[j].id
  }

  /** The list `addFavorite(movie)` leaves: the movie appended at the end
      when no entry has its id, the same list otherwise. */
  function WithFavorite(favorites: seq<Movie>, movie: Movie): (r: seq<Movie>)
    ensures IsFavorite(r, movie.id)
    ensures |r| == if IsFavorite(favorites, movie.id) then |favorites| else |favorites| + 1
    ensures r[..|favorites|] == favorites
    ensures |r| > |favorites| ==> r[|favorites|] == movie
  {
    if IsFavorite(favorites, movie.id) then favorites
    else
      var r := favorites + [movie];
      assert r[|favorites|].id == movie.id;
      r
  }

  /** The list `removeFavorite(id)` leaves: every entry with that id
      dropped, every other entry kept, in its original order. */
  function WithoutFavorite(favorites: seq<Movie>, id: int): (r: seq<Movie>)
    ensures !IsFavorite(r, id)
    ensures IsSubsequence(r, favorites)
    ensures forall m :: multiset(r)[m] == if m.id == id then 0 else multiset(favorites)[m]
    ensures !IsFavorite(favorites, id) ==> r == favorites
  {
    var keep := (m: Movie) => m.id != id;
    var r := Filter(favorites, keep);
    FilterIsSubsequence(favorites, keep);
    FilterCounts(favorites, keep);
    assert !IsFavorite(favorites, id) ==> r == favorites by {
      if !IsFavorite(favorites, id) {
        FilterKeepsAll(favorites, keep);
      }
    }
    r
  }

  /** Adding keeps ids unique. */
  lemma WithFavoriteKeepsUnique(favorites: seq<Movie>, movie: Movie)
    requires UniqueIds(favorites)
    ensures UniqueIds(WithFavorite(favorites, movie))
  {
    var r := WithFavorite(favorites, movie);
    if |r| > |favorites| {
      forall i | 0 <= i < |favorites| ensures r[i].id != movie.id {
        assert r[i] == favorites[i];
      }
    }
  }

  /** Appending one movie adds one to its id's count and nothing to others. */
  lemma {:induction false} CountIdAppend(favorites: seq<Movie>, movie: Movie, id: int)
    ensures CountId(favorites + [movie], id) == CountId(favorites, id) + (if movie.id == id then 1 else 0)
  {
    if favorites != [] {
      assert (favorites + [movie])[1..] == favorites[1..] + [movie];
      CountIdAppend(favorites[1..], movie, id);
    }
  }

  /** A list without duplicate ids has at most one entry with any id. */
  lemma {:induction false} UniqueCountAtMostOne(favorites: seq<Movie>, id: int)
    requires UniqueIds(favorites)
    ensures CountId(favorites, id) <= 1
  {
    if favorites != [] {
      UniqueTail(favorites);
      UniqueCountAtMostOne(favorites[1..], id);
    }
  }

  /** Adding the same movie twice is adding it once, and when the list had
      no duplicate ids, or did not hold the movie, exactly one entry carries
      its id afterwards. */
  lemma AddTwiceKeepsOne(favorites: seq<Movie>, movie: Movie)
    requires UniqueIds(favorites) || !IsFavorite(favorites, movie.id)
    ensures WithFavorite(WithFavorite(favorites, movie), movie) == WithFavorite(favorites, movie)
    ensures !IsFavorite(favorites, movie.id) ==> WithFavorite(favorites, movie) == favorites + [movie]
    ensures CountId(WithFavorite(WithFavorite(favorites, movie), movie), movie.id) == 1
  {
    if IsFavorite(favorites, movie.id) {
      UniqueCountAtMostOne(favorites, movie.id);
    } else {
      CountIdAppend(favorites, movie, movie.id);
    }
  }

  /** Dropping the first entry keeps ids unique. */
  lemma UniqueTail(favorites: seq<Movie>)
    requires favorites != [] && UniqueIds(favorites)
    ensures UniqueIds(favorites[1..])
    ensures forall m :: m in favorites[1..] ==> m.id != favorites[0].id
  {
    var rest := favorites[1..];
    forall i, j | 0 <= i < j < |rest| ensures rest[i].id != rest[j].id {
      assert rest[i] == favorites[i + 1] && rest[j] == favorites[j + 1];
    }
    forall m | m in rest ensures m.id != favorites[0].id {
      var i :| 0 <= i < |rest| && rest[i] == m;
      assert rest[i] == favorites[i + 1];
    }
  }

  /** What a filter keeps comes from the original list. */
  lemma FilterKeepsMembers(favorites: seq<Movie>, keep: Movie -> bool, m: Movie)
    requires m in Filter(favorites, keep)
    ensures m in favorites
  {
    FilterCounts(favorites, keep);
    assert m in multiset(Filter(favorites, keep));
  }

  /** Filtering keeps ids unique. */
  lemma {:induction false} FilterKeepsUnique(favorites: seq<Movie>, keep: Movie -> bool)
    requires UniqueIds(favorites)
    ensures UniqueIds(Filter(favorites, keep))
  {
    if favorites != [] {
      var rest := favorites[1..];
      UniqueTail(favorites);
      FilterKeepsUnique(rest, keep);
      if keep(favorites[0]) {
        var tail := Filter(rest, keep);
        var r := [favorites[0]] + tail;
        forall i, j | 0 <= i < j < |r| ensures r[i].id != r[j].id {
          assert r[j] == tail[j - 1];
          if i == 0 {
            FilterKeepsMembers(rest, keep, tail[j - 1]);
          } else {
            assert r[i] == tail[i - 1];
          }
        }
      }
    }
  }

  /** Removing keeps ids unique. */
  lemma WithoutFavoriteKeepsUnique(favorites: seq<Movie>, id: int)
    requires UniqueIds(favorites)
    ensures UniqueIds(WithoutFavorite(favorites, id))
  {
    FilterKeepsUnique(favorites, (m: Movie) => m.id != id);
  }

  /** Adding and then removing an id that was not there gives the list back. */
  lemma RemoveUndoesAdd(favorites: seq<Movie>, movie: Movie)
    requires !IsFavorite(favorites, movie.id)
    ensures WithoutFavorite(WithFavorite(favorites, movie), movie.id) == favorites
  {
    var keep := (m: Movie) => m.id != movie.id;
    var added := favorites + [movie];
    assert Filter(added, keep) == Filter(favorites, keep) + Filter([movie], keep) by {
      FilterConcat(favorites, [movie], keep);
    }
    FilterKeepsAll(favorites, keep);
  }

  /** The provider state of the favourites context, over the shared storage. */
  class MovieStore {
    var favorites: seq<Movie>
    var lastSearch: string
    var searchResults: seq<Movie>
    const storage: LocalStorage

    /** The write-through rule: storage holds the whole favourites list, and
        the last search whenever it is non-empty. */
    ghost predicate Persisted()
      reads this, storage
    {
      && storage.GetItem(FavoritesKey) == Some(FavoritesJson(favorites))
      && (lastSearch != "" ==> storage.GetItem(LastSearchKey) == Some(Text(lastSearch)))
    }

    /** The state before the mount effects have run. */
    constructor (storage: LocalStorage)
      ensures this.storage == storage
      ensures favorites == [] && lastSearch == "" && searchResults == []
    {
      this.storage := storage;
      favorites, lastSearch, searchResults := [], "", [];
    }

    /** The mount effects, in order: hydrate favourites (parsed) and last
        search (read raw, so it cannot fail) from storage, then the save effects run for the initial values, then once
        more for the values that hydration changed. */
    method Mount() returns (outcome: Hydration)
      requires favorites == [] && lastSearch == ""
      requires LastSearchKey in storage.entries ==> storage.entries[LastSearchKey].Text?
      modifies this, storage
      ensures searchResults == old(searchResults)
      ensures outcome.Malformed? ==>
        && favorites == [] && lastSearch == "" && storage.entries == old(storage.entries)
      ensures outcome.Malformed? <==>
        FavoritesKey in old(storage.entries) && Truthy(old(storage.entries[FavoritesKey]))
        && !old(storage.entries[FavoritesKey]).FavoritesJson?
      ensures outcome.Hydrated? ==>
        && favorites == (if FavoritesKey in old(storage.entries) && Truthy(old(storage.entries[FavoritesKey]))
                         then old(storage.entries[FavoritesKey]).movies else [])
        && lastSearch == (if LastSearchKey in old(storage.entries) && Truthy(old(storage.entries[LastSearchKey]))
                          then old(storage.entries[LastSearchKey]).text else "")
        && storage.entries == old(storage.entries)[FavoritesKey := FavoritesJson(favorites)]
        && Persisted()
    {
      // hydration effect
      var hydratedFavorites := favorites;
      var storedFavorites := storage.GetItem(FavoritesKey);
      if storedFavorites.Some? && Truthy(storedFavorites.value) {
        if !storedFavorites.value.FavoritesJson? {
          return Malformed(FavoritesKey);
        }
        hydratedFavorites := storedFavorites.value.movies;
      }
      var hydratedLastSearch := lastSearch;
      var storedLastSearch := storage.GetItem(LastSearchKey);
      if storedLastSearch.Some? && Truthy(storedLastSearch.value) {
        hydratedLastSearch := storedLastSearch.value.text;
      }
      // save effects for the initial render
      storage.SetItem(FavoritesKey, FavoritesJson(favorites));
      // the re-render with the hydrated state
      var favoritesChanged := storedFavorites.Some? && Truthy(storedFavorites.value);
      var lastSearchChanged := hydratedLastSearch != lastSearch;
      favorites, lastSearch := hydratedFavorites, hydratedLastSearch;
      if favoritesChanged {
        storage.SetItem(FavoritesKey, FavoritesJson(favorites));
      }
      if lastSearchChanged && lastSearch != "" {
        storage.SetItem(LastSearchKey, Text(lastSearch));
      }
      outcome := Hydrated;
    }

    /** `addFavorite(movie)`. */
    method AddFavorite(movie: Movie)
      modifies this, storage
      ensures favorites == WithFavorite(old(favorites), movie)
      ensures lastSearch == old(lastSearch) && searchResults == old(searchResults)
      ensures storage.entries ==
        if IsFavorite(old(favorites), movie.id) then old(storage.entries)
        else old(storage.entries)[FavoritesKey := FavoritesJson(favorites)]
      ensures old(Persisted()) ==> Persisted()
    {
      if !IsFavorite(favorites, movie.id) {
        favorites := favorites + [movie];
        storage.SetItem(FavoritesKey, FavoritesJson(favorites));
      }
    }

    /** `removeFavorite(id)`: the filter always yields a new list, so the
        save effect always runs. */
    method RemoveFavorite(id: int)
      modifies this, storage
      ensures favorites == WithoutFavorite(old(favorites), id)
      ensures lastSearch == old(lastSearch) && searchResults == old(searchResults)
      ensures storage.entries == old(storage.entries)[FavoritesKey := FavoritesJson(favorites)]
      ensures old(Persisted()) ==> Persisted()
    {
      favorites := WithoutFavorite(favorites, id);
      storage.SetItem(FavoritesKey, FavoritesJson(favorites));
    }

    /** `updateLastSearch(query)`: the save effect runs when the value
        changed, and writes only a non-empty value. */
    method UpdateLastSearch(query: string)
      modifies this, storage
      ensures lastSearch == query
      ensures favorites == old(favorites) && searchResults == old(searchResults)
      ensures storage.entries ==
        if query != old(lastSearch) && query != "" then old(storage.entries)[LastSearchKey := Text(query)]
        else old(storage.entries)
      ensures old(Persisted()) ==> Persisted()
    {
      var changed := query != lastSearch;
      lastSearch := query;
      if changed && lastSearch != "" {
        storage.SetItem(LastSearchKey, Text(lastSearch));
      }
    }

    /** `updateSearchResults(results)`. */
    method UpdateSearchResults(results: seq<Movie>)
      modifies this
      ensures searchResults == results
      ensures favorites == old(favorites) && lastSearch == old(lastSearch)
    {
      searchResults := results;
    }
  }

  /** Two clicks through the store: after adding, the movie is a favourite
      and storage holds the list; after removing, it is not. */
  method AddThenRemove(store: MovieStore, movie: Movie)
    requires store.Persisted()
    modifies store, store.storage
    ensures store.Persisted()
    ensures !IsFavorite(store.favorites, movie.id)
    ensures !IsFavorite(old(store.favorites), movie.id) ==> store.favorites == old(store.favorites)
    ensures store.lastSearch == old(store.lastSearch) && store.searchResults == old(store.searchResults)
    ensures store.storage.entries == old(store.storage.entries)[FavoritesKey := FavoritesJson(store.favorites)]
    ensures !IsFavorite(old(store.favorites), movie.id) ==> store.storage.entries == old(store.storage.entries)
  {
    ghost var before, stored := store.favorites, store.storage.entries;
    var was := IsFavorite(store.favorites, movie.id);
    if was {
      store.AddFavorite(movie);
      assert store.favorites == before && store.storage.entries == stored;
      store.RemoveFavorite(movie.id);
    } else {
      store.AddFavorite(movie);
      assert store.storage.entries == stored[FavoritesKey := FavoritesJson(before + [movie])];
      store.RemoveFavorite(movie.id);
      RemoveUndoesAdd(before, movie);
      assert store.favorites == before;
      assert stored[FavoritesKey] == FavoritesJson(before);
    }
  }
}
