# Movie browser client: a verified model of its state and request logic

The application is a single-page movie browser over the TMDb REST API. It
lists trending movies, searches by title, discovers movies by genre with
year and rating filters, and shows a details page with a trailer and the
top cast. It also keeps a favourites list, a theme flag and a mock sign-in
session in the browser's `localStorage`.

This Dafny project models the part of the client that holds state or
computes values:

- **Favourites and last-search store** (`MovieContext`). The class
  `MovieStore` owns the favourites list, the last search and the latest
  search results, and writes through to a shared `LocalStorage` object.
- **Pagination controllers of three pages** (`Trending`, `SearchResults`,
  `Discover`). Each page is a class with the fields
  `movies, page, hasMore, loading, error`. Its `State()` is a `Pager`
  value, and the steps a load takes are pure functions on `Pager`
  (`Pagination`).
  - A load is asynchronous, so it is split in two. `LoadMovies` starts it
    and returns the request sent. `Settle` applies the response or error
    when it arrives. The HTTP response is an input.
- **Sign-in form and session** (`Login`, `AuthContext`).
- **Theme flag and palette** (`ThemeContext`).
- **Details-page helpers and search box** (`MovieDetails`, `SearchBar`).
- **API gateway** (`Tmdb`). It covers the start-up configuration check,
  the base URL and the request each of the five calls sends.

Shared definitions:
- `Common` holds the records (`Movie`, `PageData`, `User`, …), `Option`,
  `Result` and a `Filter` with its subsequence and multiset lemmas.
- `Text` holds the JavaScript string behaviour the code relies on. That is
  `trim`'s whitespace set, `length` counted in UTF-16 units, and decimal
  rendering of integers.
- `Storage` holds the key/value store. JSON text is represented by the
  document it encodes.

React effects are modelled in the order React runs them:
- Mount effects run in declaration order.
- A save effect runs once with the initial value and again after the
  hydrated value is set, when that value differs.
- An effect with dependencies runs only when one of them changed.

Behaviour the code has that a reader might not expect:
- A stored favourites, user or theme value that does not parse makes the
  hydration throw (`Malformed` here). It is not replaced by a default.
- `loadMovies` has no `loading` guard of its own. It starts a load even
  while one is in flight: always on Trending, and on Search and Discover
  whenever a query or a genre is set.
- Responses are applied in arrival order. Nothing discards the response to
  an older query or older filters.

## Model

| member | source | states |
|---|---|---|
| Common.Filter | src/context/MovieContext.js:44 | `filter` keeps only elements the test accepts and never lengthens the list |
| Common.FilterIsSubsequence | src/pages/DiscoverPage.js:73 | the filtered list is a subsequence of the original (order kept) |
| Common.FilterCounts | src/context/MovieContext.js:44 | each accepted element occurs as often as in the original, each rejected one not at all |
| Common.FilterKeepsAll | src/context/MovieContext.js:44 | a filter that accepts every element returns the list unchanged |
| Common.FilterConcat | src/context/MovieContext.js:44 | filtering a concatenation filters each part |
| Text.TrimStart | src/components/Login.js:51 | removes exactly the leading JavaScript whitespace |
| Text.TrimEnd | src/components/Login.js:51 | removes exactly the trailing JavaScript whitespace |
| Text.Trim | src/components/Login.js:51 | `trim()` never lengthens the string |
| Text.TrimIsMiddleSlice | src/components/Login.js:51 | `trim()` is the slice of the input that starts after its leading whitespace |
| Text.TrimCutsOnlyWhitespace | src/components/Login.js:51 | only whitespace is cut after that slice |
| Text.TrimmedEnds | src/components/Login.js:51 | the result neither starts nor ends with whitespace |
| Text.TrimEmptyIffBlank | src/components/SearchBar.js:21 | `query.trim()` is empty iff every character is whitespace |
| Text.Utf16Length | src/components/Login.js:57 | `password.length` counts UTF-16 units: between one and two per character, zero only for the empty string |
| Text.NatToString | src/pages/MovieDetailsPage.js:63 | a natural number prints as decimal digits without a leading zero |
| Text.IntToString | src/pages/MovieDetailsPage.js:63 | an integer prints with a leading '-' iff it is negative |
| Text.NatToStringRoundTrip | src/pages/MovieDetailsPage.js:63 | reading the printed digits back gives the number |
| Storage.LocalStorage.GetItem | src/context/MovieContext.js:14 | `getItem` is null iff the key is absent, else the stored value |
| Storage.LocalStorage.SetItem | src/context/MovieContext.js:27 | `setItem` replaces that key's value only |
| Storage.LocalStorage.RemoveItem | src/context/AuthContext.js:30 | `removeItem` drops that key only |
| Tmdb.StripTrailingSlash | src/api/tmdb.js:13 | one trailing '/' is removed when present, otherwise the URL is unchanged |
| Tmdb.Connect | src/api/tmdb.js:6-14 | start-up fails with the configuration message iff the key or the base URL is missing or empty; otherwise the client uses the key and the stripped base URL |
| Tmdb.Lookup | src/api/tmdb.js:18-22 | none iff no entry has the name (which entry is returned is stated by `LookupFirst`) |
| Tmdb.LookupFirst | src/api/tmdb.js:18-22 | an entry preceded only by other names is the one looked up |
| Tmdb.KeyAndLanguage | src/api/tmdb.js:18-20 | a parameter list led by the key and the language sends both |
| Tmdb.TrendingParams | src/api/tmdb.js:18-22 | the trending request sends the key, `en-US` and the page |
| Tmdb.GenresParams | src/api/tmdb.js:42-45 | the genres request sends the key and `en-US`, and no page |
| Tmdb.DiscoverParams | src/api/tmdb.js:61-66 | the discover request sends the key, `en-US`, `with_genres` and the page |
| Tmdb.DetailsParams | src/api/tmdb.js:82-86 | the details request sends the key, `en-US` and `append_to_response=videos,credits`, and no page |
| Tmdb.SearchParams | src/api/tmdb.js:102-108 | the search request sends the key, `en-US`, the query, the page and `include_adult=false` |
| Tmdb.TrendingRequest | src/api/tmdb.js:16-24 | GET `/trending/movie/<window>` on the client's base URL with `api_key`, `language=en-US` and `page`, each name sent once |
| Tmdb.GenresRequest | src/api/tmdb.js:40-46 | GET `/genre/movie/list` on the base URL with `api_key` and `language=en-US` only, each name sent once |
| Tmdb.DiscoverRequest | src/api/tmdb.js:59-67 | GET `/discover/movie` on the base URL with `api_key`, `language=en-US`, `with_genres` and `page`, each name sent once |
| Tmdb.DetailsRequest | src/api/tmdb.js:80-87 | GET `/movie/<id>` on the base URL with `api_key`, `language=en-US` and `append_to_response=videos,credits`, each name sent once |
| Tmdb.SearchRequest | src/api/tmdb.js:100-109 | GET `/search/movie` on the base URL with `api_key`, `language=en-US`, `query`, `page` and `include_adult=false`, each name sent once |
| Tmdb.RequestFor | src/api/tmdb.js:16-109 | every request goes to the client's base URL with `api_key` and `language=en-US`; each call's endpoint, page, `with_genres`, `append_to_response=videos,credits`, `query` and `include_adult=false` |
| Tmdb.TrendingDefaults | src/api/tmdb.js:16-23 | `fetchTrendingMovies()` asks for page 1 of the weekly list |
| Tmdb.GenresOf | src/api/tmdb.js:40-57 | `getGenres` returns only the `genres` field; an error comes back unchanged |
| MovieContext.IsFavorite | src/context/MovieContext.js:47-49 | true iff some entry has the id |
| MovieContext.CountId | src/context/MovieContext.js:38 | the number of entries with an id is zero iff the id is not a favourite |
| MovieContext.WithFavorite | src/context/MovieContext.js:37-41 | the movie is a favourite afterwards; the list grows by one (the movie, at the end) iff its id was absent; earlier entries are kept in order |
| MovieContext.WithoutFavorite | src/context/MovieContext.js:43-45 | the id is gone; the rest is a subsequence keeping every other entry as often as before; an absent id leaves the list unchanged |
| MovieContext.FilterKeepsUnique | src/context/MovieContext.js:44 | filtering a list without duplicate ids gives a list without duplicate ids |
| MovieContext.WithoutFavoriteKeepsUnique | src/context/MovieContext.js:43-45 | removing keeps the ids unique |
| MovieContext.WithFavoriteKeepsUnique | src/context/MovieContext.js:38-39 | adding keeps ids unique |
| MovieContext.CountIdAppend | src/context/MovieContext.js:39 | appending a movie adds one to the count of its id only |
| MovieContext.UniqueCountAtMostOne | src/context/MovieContext.js:37-41 | a list without duplicate ids holds each id at most once |
| MovieContext.AddTwiceKeepsOne | src/context/MovieContext.js:37-41 | adding twice is adding once; for a duplicate-free list, or one without the movie, exactly one entry then has its id |
| MovieContext.RemoveUndoesAdd | src/context/MovieContext.js:37-45 | removing a freshly added id gives the old list back |
| MovieContext.MovieStore.constructor | src/context/MovieContext.js:8-10 | favourites, last search and results start empty |
| MovieContext.MovieStore.Mount | src/context/MovieContext.js:13-35 | stored favourites and last search replace the defaults only when present and non-empty; only favourites that do not parse make hydration fail, the raw last search never does; afterwards storage holds the current favourites |
| MovieContext.MovieStore.AddFavorite | src/context/MovieContext.js:37-41 | favourites become `WithFavorite`; storage is rewritten only when the list changed; storage keeps matching the state |
| MovieContext.MovieStore.RemoveFavorite | src/context/MovieContext.js:43-45 | favourites become `WithoutFavorite`; storage holds the new list |
| MovieContext.MovieStore.UpdateLastSearch | src/context/MovieContext.js:51-53 | the last search becomes the query; storage is written only when it changed and is non-empty |
| MovieContext.MovieStore.UpdateSearchResults | src/context/MovieContext.js:55-57 | the search results are replaced, nothing else changes |
| MovieContext.AddThenRemove | src/context/MovieContext.js:37-45 | after add then remove the movie is not a favourite and storage keeps matching; last search, results and every other storage key are untouched; for a new movie list and storage are as they were |
| Pagination.Started | src/pages/TrendingPage.js:28 | a load start sets `loading` and nothing else |
| Pagination.Settled | src/pages/TrendingPage.js:30-44 | on success reset replaces and append concatenates, `hasMore = page < total_pages`, `page` from the response, error cleared; on failure the error is set and the data kept; `loading` ends false |
| Pagination.Cleared | src/pages/SearchResultsPage.js:26-28 | the list is emptied, page back to 1, `hasMore` true |
| Pagination.LoadMoreStep | src/pages/TrendingPage.js:47-51 | `loadMore` changes nothing while loading or at the last page; otherwise it loads in append mode |
| Pagination.AppendLoadsAccumulate | src/pages/TrendingPage.js:34 | any sequence of append loads yields the old list followed by the successful pages in order |
| Pagination.ScrollToLastPage | src/pages/TrendingPage.js:34-38 | scrolling through the remaining pages of a k-page listing passes every guard and ends at page k with k·n movies |
| Pagination.ScrollWholeListing | src/pages/TrendingPage.js:26-51 | after the first page and k−1 `loadMore` calls there are k·n movies, `hasMore` is false and any further `loadMore` is a no-op |
| Trending.TrendingPage.constructor | src/pages/TrendingPage.js:15-20 | first render: empty list, page 1, `hasMore`, `loading` true, weekly window |
| Trending.TrendingPage.LoadMovies | src/pages/TrendingPage.js:26-29 | sets `loading` and sends the trending request for the page and the current window |
| Trending.TrendingPage.Settle | src/pages/TrendingPage.js:30-44 | the page state becomes `Settled` of the old state |
| Trending.TrendingPage.LoadMore | src/pages/TrendingPage.js:47-51 | no request and no change unless not loading and `hasMore`; then it requests page + 1 in append mode |
| Trending.TrendingPage.Mount | src/pages/TrendingPage.js:22-24 | the mount effect loads page 1 in reset mode |
| Trending.TrendingPage.ChangeTimeWindow | src/pages/TrendingPage.js:53-55 | a different window reloads page 1 in reset mode; the same window does nothing |
| Trending.LoadMoreWhileLoading | src/pages/TrendingPage.js:47-51 | while loading, repeated `loadMore` changes nothing |
| SearchResults.SearchResultsPage.constructor | src/pages/SearchResultsPage.js:14-21 | first render: empty list, page 1, `hasMore`, not loading |
| SearchResults.SearchResultsPage.LoadMovies | src/pages/SearchResultsPage.js:33-38 | nothing happens without a query; otherwise `loading` is set and the search request is sent |
| SearchResults.SearchResultsPage.Settle | src/pages/SearchResultsPage.js:39-54 | the page state becomes `Settled`; the store's search results are the latest page only |
| SearchResults.SearchResultsPage.LoadMore | src/pages/SearchResultsPage.js:57-61 | guarded by `loading`, `hasMore` and the query; requests page + 1 in append mode |
| SearchResults.SearchResultsPage.QueryEffect | src/pages/SearchResultsPage.js:23-31 | a non-empty query becomes the last search, storage gains it only if it changed, the list is cleared and page 1 is loaded in reset mode; otherwise nothing changes |
| SearchResults.SearchResultsPage.Navigate | src/pages/SearchResultsPage.js:23-31 | a URL change runs the effect only when the query changed; unless it changed to a non-empty query, last search and storage stay as they were |
| SearchResults.SettledAsWritten | src/pages/SearchResultsPage.js:23-55 | a successful load is followed by the effect's clear and a fresh page-1 load (empty list, page 1, loading); a failure is not |
| SearchResults.AsWrittenNeverAccumulates | src/pages/SearchResultsPage.js:31 | with the effect as written, every successful load ends with an empty list, page 1 and a load in flight |
| SearchResults.KeyedOnQueryAccumulates | src/pages/SearchResultsPage.js:40-48 | keyed on the query alone, page 2 after page 1 shows both pages in order |
| Discover.PassesFilters | src/pages/DiscoverPage.js:73-81 | inclusive year and rating ranges; an undated movie fails whenever the lower year bound is positive |
| Discover.FilterPage | src/pages/DiscoverPage.js:73-81 | the kept movies are exactly the passing ones, as a subsequence with their multiplicities |
| Discover.Filtered | src/pages/DiscoverPage.js:69-81 | a response keeps its counters and has its results filtered; an error passes through |
| Discover.CountersIgnoreFilter | src/pages/DiscoverPage.js:89-90 | `page`, `hasMore` and `error` do not depend on the filter |
| Discover.DiscoverPage.constructor | src/pages/DiscoverPage.js:20-28 | first render: no genre, years 2000..current year, ratings 0..10 |
| Discover.DiscoverPage.ReceiveGenres | src/pages/DiscoverPage.js:30-41 | the genre list is replaced on success, kept on failure |
| Discover.DiscoverPage.SelectGenre | src/pages/DiscoverPage.js:43-45 | only the selected genre changes |
| Discover.DiscoverPage.SetYearRange | src/pages/DiscoverPage.js:47-49 | only the year range changes, within the slider's 1900..current year |
| Discover.DiscoverPage.SetRatingRange | src/pages/DiscoverPage.js:51-53 | only the rating range changes, within 0..10 |
| Discover.DiscoverPage.LoadMovies | src/pages/DiscoverPage.js:62-69 | nothing without a chosen genre (0 counts as none); otherwise `loading` is set and the discover request is sent with the current ranges captured |
| Discover.DiscoverPage.Settle | src/pages/DiscoverPage.js:70-96 | the state becomes `Settled` of the response filtered by the captured ranges |
| Discover.DiscoverPage.ApplyFilters | src/pages/DiscoverPage.js:55-60 | clears the list, page 1, `hasMore`, then loads page 1 in reset mode |
| Discover.DiscoverPage.LoadMore | src/pages/DiscoverPage.js:99-103 | guarded by `loading`, `hasMore` and the genre; requests page + 1 in append mode |
| Discover.SettledShowsOnlyPassing | src/pages/DiscoverPage.js:73-87 | every newly shown movie (every shown movie after a reset) passes the filter and is dated; in reset mode the list is a subsequence of the page |
| AuthContext.AuthStore.constructor | src/context/AuthContext.js:8-9 | nobody is signed in |
| AuthContext.AuthStore.Mount | src/context/AuthContext.js:11-17 | a stored user signs in; nothing stored leaves the state unchanged; a wrongly typed value fails |
| AuthContext.AuthStore.Login | src/context/AuthContext.js:19-25 | sets the user and the flag and stores the user |
| AuthContext.AuthStore.Logout | src/context/AuthContext.js:27-31 | clears the user and the flag and removes the stored user |
| AuthContext.LoginThenLogout | src/context/AuthContext.js:19-31 | login then logout restores the initial memory and storage state |
| Login.FormErrors | src/components/Login.js:48-59 | a username error iff the trimmed username is empty; a password error iff it has fewer than 6 UTF-16 units, "required" when empty |
| Login.ValidIff | src/components/Login.js:48-62 | the form is valid iff the username has a non-whitespace character and the password has at least 6 units |
| Login.Submit | src/components/Login.js:65-83 | `login` is called iff the form is valid and the password is `password123`, with a payload of username and id only; an invalid form shows its errors |
| Login.BmpUtf16Length | src/components/Login.js:57 | without astral characters, `length` is the character count |
| Login.DemoPasswordNeedsOnlyUsername | src/components/Login.js:69-77 | with the demo password only a blank username blocks login |
| Login.AliceSignsIn | src/components/Login.js:65-83 | "alice" with `password123` signs in with payload ("alice", id) |
| Login.ShortPasswordFailsValidation | src/components/Login.js:55-59 | a non-blank username with a non-empty password under 6 units gets only the length error, and `login` is not called |
| Login.WrongIsShort | src/components/Login.js:57 | "wrong" is under 6 units long |
| Login.ShortWrongPasswordFailsValidation | src/components/Login.js:55-59 | "alice" with "wrong" gets the length error, not the credentials message |
| Login.LoginForm.constructor | src/components/Login.js:21-27 | empty fields, no errors, no message |
| Login.LoginForm.HandleChange | src/components/Login.js:32-46 | only the edited field changes; its own non-empty error is blanked; other errors stay |
| Login.LoginForm.ValidateForm | src/components/Login.js:48-63 | the stored errors are `FormErrors` and the result says there are none |
| Login.LoginForm.HandleSubmit | src/components/Login.js:65-83 | the message is cleared first and set only for wrong credentials; the session signs in with `Submit`'s payload iff accepted, otherwise it is unchanged |
| ThemeContext.PaletteFor | src/context/ThemeContext.js:26-40 | mode "dark" iff dark mode; backgrounds follow the flag; accent colours fixed |
| ThemeContext.ThemeStore.constructor | src/context/ThemeContext.js:9 | dark mode defaults to false |
| ThemeContext.ThemeStore.Mount | src/context/ThemeContext.js:11-20 | a stored flag replaces the default only when present; afterwards storage holds the current flag |
| ThemeContext.ThemeStore.ToggleTheme | src/context/ThemeContext.js:18-24 | the flag is negated and stored |
| ThemeContext.ToggleTwice | src/context/ThemeContext.js:22-24 | toggling twice restores the flag, storage agreeing |
| MovieDetails.JsRemainder60 | src/pages/MovieDetailsPage.js:62 | `% 60` takes the dividend's sign and agrees with the mathematical remainder for non-negative input |
| MovieDetails.RuntimeParts | src/pages/MovieDetailsPage.js:60-62 | for natural minutes, 60·hours + mins = minutes with 0 ≤ mins < 60 |
| MovieDetails.FormatRuntime | src/pages/MovieDetailsPage.js:60-64 | the label ends in "m" |
| MovieDetails.FormatRuntimeReadsBack | src/pages/MovieDetailsPage.js:60-64 | for natural minutes the label is `H + "h " + M + "m"` with numerals reading back to hours and mins under 60 that make up the runtime |
| MovieDetails.FirstTrailer | src/pages/MovieDetailsPage.js:69-71 | `find`: the first YouTube trailer, or none when no video is one |
| MovieDetails.TrailerKey | src/pages/MovieDetailsPage.js:66-74 | the key of the first YouTube trailer; none when the movie, videos or results are missing or nothing matches |
| MovieDetails.TopCast | src/pages/MovieDetailsPage.js:239-245 | the first min(6, n) cast members in order; empty exactly when the section is hidden |
| MovieDetails.PosterUrl | src/pages/MovieDetailsPage.js:152-155 | the w500 URL of the poster when there is one, else the placeholder |
| MovieDetails.HandleFavoriteClick | src/pages/MovieDetailsPage.js:52-58 | favourite status flips: remove when present, add otherwise; storage changes only under the favourites key |
| MovieDetails.ClickTwice | src/pages/MovieDetailsPage.js:52-58 | two clicks on a non-favourite leave the favourites, last search and results unchanged, and storage too when it matched |
| SearchBar.SearchBox.constructor | src/components/SearchBar.js:11 | the box starts empty |
| SearchBar.SearchBox.SyncFromLastSearch | src/components/SearchBar.js:14-16 | the box shows the last search |
| SearchBar.SearchBox.Type | src/components/SearchBar.js:49 | typing sets the box |
| SearchBar.SearchBox.HandleSearch | src/components/SearchBar.js:18-25 | a blank query changes nothing; otherwise the untrimmed query becomes the last search and the navigation target |
| SearchBar.SearchBox.HandleClear | src/components/SearchBar.js:27-30 | box and last search become empty; storage is untouched |
| SearchBar.SearchThenClear | src/components/SearchBar.js:27-30 | after a search and a clear the stored last search is still the searched query |

## Left out

- HTTP transport, status codes and response parsing. A response or an error is an input to `Settle`. Requests are values, not calls.
- JSON text: a stored value is the document it encodes. Well-formed JSON of the wrong shape (say `"1"` for the theme) is treated like text that does not parse.
- Concurrency: two loads in flight at once settle in whatever order their `Settle` calls are made. Nothing ties a response to the query or filters it was issued for.
- Rendering, layout, React Router navigation and `encodeURIComponent`. `HandleSearch` returns the raw query it would navigate to.
- `parseInt` of the release date: a movie's year is given as a number or as absent.
- Floating-point formatting of ratings (`toFixed`, stars): ratings are reals used only in comparisons.
- Clocks: the `Date.now()` id and the current year are parameters.
- Console logging.
- The details page's own fetch state (`movie`, `loading`, `error`): it follows the same load pattern and is not part of this model.
- `showPassword`: a display toggle.
- The view-only files (`App.js`, `Header.js`, `FavoritesPage.js`, `HomePage.js`, `MovieCard.js`, `MovieGrid.js`) are not part of this model.
- MovieDetails.FormatRuntime: its own contract only says the label ends in "m". The hours/minutes reading is proved in `FormatRuntimeReadsBack`, and only for non-negative runtimes.
  - For a negative runtime that is not a whole number of hours, the parts add up to one hour less (`RuntimeParts`).
  - A `null` or missing runtime (`"0h 0m"`, `"NaNh NaNm"`) is not modelled: the runtime is an integer.
- MovieContext.MovieStore.Mount: requires the `lastSearch` key to hold raw text, as every write to that key does. A JSON document written there by some other code would be read back as its JSON text; that text is not modelled, because stored JSON is represented by its document.
- SearchResults.SearchResultsPage: its methods model the query effect keyed on `query` alone. The as-written re-run after every provider re-render is `SearchResults.SettledAsWritten` (see "## Findings").
- Storage.LocalStorage: quota errors and other browser storage failures are not modelled.

## Findings

| source | as written | input that shows it | evidently intended | confidence | as-written member | corrected member |
|---|---|---|---|---|---|---|
| src/pages/SearchResultsPage.js:31 | the query effect also depends on `updateLastSearch`, which the store recreates on every render; each successful load calls `updateSearchResults`, which re-renders the store, so the effect runs again: it clears the list and reloads page 1 | query "matrix", page 1 answered with `page = 1, total_pages = 2`: the list is emptied and page 1 is requested again, so page 2 can never be reached | the effect runs only when the query changes, and pages accumulate as the user scrolls | high, not executed | SearchResults.AsWrittenNeverAccumulates | SearchResults.KeyedOnQueryAccumulates |
