/** The gateway to the movie metadata API: the start-up configuration check,
    the base URL the HTTP client is created with, and the request each of the
    five calls sends. Sending the request is I/O: a caller receives the
    response (or the error) as a value, and the gateway hands it back
    unchanged. */
module Tmdb {
  import opened Common

  const MissingConfigMessage :=
    "Missing TMDb API key or base URL. Please check your .env file and restart the dev server."
  const Language := "en-US"
  const DefaultPage := 1
  const DefaultTimeWindow := "week"
  const DetailsAppend := "videos,credits"

  /** The two environment variables; None when undefined. */
  datatype Env = Env(apiKey: Option<string>, baseUrl: Option<string>)

  /** What the module holds once loaded: the key and the HTTP client's base URL. */
  datatype Client = Client(apiKey: string, baseUrl: string)

  datatype Param = Str(s: string) | Num(n: int) | Flag(b: bool)

  /** One GET request: base URL, endpoint path and the query parameters in
      the order the source lists them. */
  datatype Request = Request(baseUrl: string, endpoint: string, params: seq<(string, Param)>)

  /** The response body of `/genre/movie/list`. */
  datatype GenreListBody = GenreListBody(genres: seq<Genre>)

  predicate EndsWithSlash(url: string) {
    url != [] && url[|url| - 1] == '/'
  }

  /** The base URL with one trailing '/' removed, if it has one. */
  function StripTrailingSlash(url: string): (r: string)
    ensures EndsWithSlash(url) ==> r + "/" == url
    ensures !EndsWithSlash(url) ==> r == url
  {
    if EndsWithSlash(url) then url[..|url| - 1] else url
  }

  predicate Present(v: Option<string>) {
    v.Some? && v.value != ""
  }

  /** Loading the module: an error unless both variables are set and
      non-empty; otherwise the client over the stripped base URL. */
  function Connect(env: Env): (r: Result<Client, string>)
    ensures r.Success? <==> Present(env.apiKey) && Present(env.baseUrl)
    ensures r.Failure? ==> r.error == MissingConfigMessage
    ensures r.Success? ==> r.value.apiKey == env.apiKey.value
    ensures r.Success? ==> r.value.baseUrl + (if EndsWithSlash(env.baseUrl.value) then "/" else "") == env.baseUrl.value
  {
    if !Present(env.apiKey) || !Present(env.baseUrl) then Failure(MissingConfigMessage)
    else Success(Client(env.apiKey.value, StripTrailingSlash(env.baseUrl.value)))
  }

  /** No two parameters of a request share a name, so each is sent once. */
  predicate DistinctNames(params: seq<(string, Param)>) {
    forall i, j :: 0 <= i < j < |params| ==> params[i].0 != params[j].0
  }

  /** The value the request sends for parameter `name`, None if it sends
      none. Every parameter list built here has distinct names. */
  function Lookup(params: seq<(string, Param)>, name: string): (v: Option<Param>)
    ensures v.None? <==> forall i :: 0 <= i < |params| ==> params[i].0 != name
  {
    if params == [] then None
    else if params[0].0 == name then Some(params[0].1)
    else Lookup(params[1..], name)
  }

  /** A parameter is found at the first position that carries its name. */
  lemma {:induction false} LookupFirst(params: seq<(string, Param)>, name: string, i: nat)
    requires i < |params| && params[i].0 == name
    requires forall j :: 0 <= j < i ==> params[j].0 != name
    ensures Lookup(params, name) == Some(params[i].1)
  {
    if i > 0 {
      LookupFirst(params[1..], name, i - 1);
    }
  }

  /** `fetchTrendingMovies(page, timeWindow)`. */
  function TrendingRequest(c: Client, page: int := DefaultPage, timeWindow: string := DefaultTimeWindow): (r: Request)
    ensures r.baseUrl == c.baseUrl && r.endpoint == "/trending/movie/" + timeWindow
    ensures |r.params| == 3 && DistinctNames(r.params)
  {
    Request(c.baseUrl, "/trending/movie/" + timeWindow,
            [("api_key", Str(c.apiKey)), ("language", Str(Language)), ("page", Num(page))])
  }

  /** `getGenres()`. */
  function GenresRequest(c: Client): (r: Request)
    ensures r.baseUrl == c.baseUrl && r.endpoint == "/genre/movie/list"
    ensures |r.params| == 2 && DistinctNames(r.params)
  {
    Request(c.baseUrl, "/genre/movie/list",
            [("api_key", Str(c.apiKey)), ("language", Str(Language))])
  }

  /** `getMoviesByGenre(genreId, page)`. */
  function DiscoverRequest(c: Client, genreId: int, page: int := DefaultPage): (r: Request)
    ensures r.baseUrl == c.baseUrl && r.endpoint == "/discover/movie"
    ensures |r.params| == 4 && DistinctNames(r.params)
  {
    Request(c.baseUrl, "/discover/movie",
            [("api_key", Str(c.apiKey)), ("language", Str(Language)),
             ("with_genres", Num(genreId)), ("page", Num(page))])
  }

  /** `getMovieDetails(id)`; the id is the route parameter, a string. */
  function DetailsRequest(c: Client, id: string): (r: Request)
    ensures r.baseUrl == c.baseUrl && r.endpoint == "/movie/" + id
    ensures |r.params| == 3 && DistinctNames(r.params)
  {
    Request(c.baseUrl, "/movie/" + id,
            [("api_key", Str(c.apiKey)), ("language", Str(Language)),
             ("append_to_response", Str(DetailsAppend))])
  }

  /** `searchMovies(query, page)`. */
  function SearchRequest(c: Client, query: string, page: int := DefaultPage): (r: Request)
    ensures r.baseUrl == c.baseUrl && r.endpoint == "/search/movie"
    ensures |r.params| == 5 && DistinctNames(r.params)
  {
    Request(c.baseUrl, "/search/movie",
            [("api_key", Str(c.apiKey)), ("language", Str(Language)),
             ("query", Str(query)), ("page", Num(page)), ("include_adult", Flag(false))])
  }

  /** The key and the language lead every parameter list. */
  lemma KeyAndLanguage(params: seq<(string, Param)>, key: string)
    requires |params| >= 2 && params[0] == ("api_key", Str(key)) && params[1] == ("language", Str(Language))
    ensures Lookup(params, "api_key") == Some(Str(key))
    ensures Lookup(params, "language") == Some(Str(Language))
  {
    LookupFirst(params, "api_key", 0);
    LookupFirst(params, "language", 1);
  }

  lemma TrendingParams(c: Client, page: int, timeWindow: string)
    ensures var ps := TrendingRequest(c, page, timeWindow).params;
      && Lookup(ps, "api_key") == Some(Str(c.apiKey)) && Lookup(ps, "language") == Some(Str(Language))
      && Lookup(ps, "page") == Some(Num(page))
  {
    var ps := TrendingRequest(c, page, timeWindow).params;
    KeyAndLanguage(ps, c.apiKey);
    LookupFirst(ps, "page", 2);
  }

  lemma GenresParams(c: Client)
    ensures var ps := GenresRequest(c).params;
      && Lookup(ps, "api_key") == Some(Str(c.apiKey)) && Lookup(ps, "language") == Some(Str(Language))
      && Lookup(ps, "page").None?
  {
    KeyAndLanguage(GenresRequest(c).params, c.apiKey);
  }

  lemma DiscoverParams(c: Client, genreId: int, page: int)
    ensures var ps := DiscoverRequest(c, genreId, page).params;
      && Lookup(ps, "api_key") == Some(Str(c.apiKey)) && Lookup(ps, "language") == Some(Str(Language))
      && Lookup(ps, "with_genres") == Some(Num(genreId)) && Lookup(ps, "page") == Some(Num(page))
  {
    var ps := DiscoverRequest(c, genreId, page).params;
    KeyAndLanguage(ps, c.apiKey);
    LookupFirst(ps, "with_genres", 2);
    LookupFirst(ps, "page", 3);
  }

  lemma DetailsParams(c: Client, id: string)
    ensures var ps := DetailsRequest(c, id).params;
      && Lookup(ps, "api_key") == Some(Str(c.apiKey)) && Lookup(ps, "language") == Some(Str(Language))
      && Lookup(ps, "append_to_response") == Some(Str(DetailsAppend)) && Lookup(ps, "page").None?
  {
    var ps := DetailsRequest(c, id).params;
    KeyAndLanguage(ps, c.apiKey);
    LookupFirst(ps, "append_to_response", 2);
  }

  lemma SearchParams(c: Client, query: string, page: int)
    ensures var ps := SearchRequest(c, query, page).params;
      && Lookup(ps, "api_key") == Some(Str(c.apiKey)) && Lookup(ps, "language") == Some(Str(Language))
      && Lookup(ps, "query") == Some(Str(query)) && Lookup(ps, "page") == Some(Num(page))
      && Lookup(ps, "include_adult") == Some(Flag(false))
  {
    var ps := SearchRequest(c, query, page).params;
    KeyAndLanguage(ps, c.apiKey);
    LookupFirst(ps, "query", 2);
    LookupFirst(ps, "page", 3);
    LookupFirst(ps, "include_adult", 4);
  }

  /** The five calls of the gateway, with their arguments. */
  datatype Call =
    | Trending(page: int, timeWindow: string)
    | Genres
    | Discover(genreId: int, page: int)
    | Details(id: string)
    | Search(query: string, page: int)

  /** The request a call sends. Every request goes to the client's base URL
      with the key and `language=en-US`; per call, the endpoint and the
      parameters that select what is fetched. */
  function RequestFor(c: Client, call: Call): (r: Request)
    ensures r.baseUrl == c.baseUrl
    ensures Lookup(r.params, "api_key") == Some(Str(c.apiKey))
    ensures Lookup(r.params, "language") == Some(Str(Language))
    ensures call.Trending? ==>
      && r.endpoint == "/trending/movie/" + call.timeWindow
      && Lookup(r.params, "page") == Some(Num(call.page))
    ensures call.Genres? ==>
      && r.endpoint == "/genre/movie/list"
      && Lookup(r.params, "page").None?
    ensures call.Discover? ==>
      && r.endpoint == "/discover/movie"
      && Lookup(r.params, "with_genres") == Some(Num(call.genreId))
      && Lookup(r.params, "page") == Some(Num(call.page))
    ensures call.Details? ==>
      && r.endpoint == "/movie/" + call.id
      && Lookup(r.params, "append_to_response") == Some(Str(DetailsAppend))
      && Lookup(r.params, "page").None?
    ensures call.Search? ==>
      && r.endpoint == "/search/movie"
      && Lookup(r.params, "query") == Some(Str(call.query))
      && Lookup(r.params, "page") == Some(Num(call.page))
      && Lookup(r.params, "include_adult") == Some(Flag(false))
  {
    match call
    case Trending(p, w) =>
      TrendingParams(c, p, w);
      TrendingRequest(c, p, w)
    case Genres =>
      GenresParams(c);
      GenresRequest(c)
    case Discover(g, p) =>
      DiscoverParams(c, g, p);
      DiscoverRequest(c, g, p)
    case Details(id) =>
      DetailsParams(c, id);
      DetailsRequest(c, id)
    case Search(q, p) =>
      SearchParams(c, q, p);
      SearchRequest(c, q, p)
  }

  /** The defaults of `fetchTrendingMovies()`: page 1 of the weekly list. */
  lemma TrendingDefaults(c: Client)
    ensures TrendingRequest(c) == RequestFor(c, Trending(1, "week"))
  {
  }

  /** `getGenres` hands back only the `genres` field of the body; an error
      is rethrown as it came, with no retry. */
  function GenresOf(response: Result<GenreListBody, ApiError>): (r: Result<seq<Genre>, ApiError>)
    ensures response.Success? <==> r.Success?
    ensures r.Success? ==> r.value == response.value.genres
    ensures r.Failure? ==> r.error == response.error
  {
    match response
    case Success(body) => Success(body.genres)
    case Failure(e) => Failure(e)
  }
}
