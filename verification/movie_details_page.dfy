/** The pure helpers of the Movie Details page: the favourite button, the
    runtime label, the trailer lookup, the top-cast strip and the poster. */
module MovieDetails {
  import opened Common
  import opened Text
  import MovieContext
  import Storage

  const PosterBase := "https://image.tmdb.org/t/p/w500"
  const PlaceholderPoster := "/placeholder-poster.png"
  const TopCastSize := 6

  /** JavaScript's `%` by 60: the remainder takes the sign of the dividend. */
  function JsRemainder60(n: int): (r: int)
    ensures n >= 0 ==> r == n % 60
    ensures -60 < r < 60
    ensures n < 0 ==> r <= 0 && (n - r) % 60 == 0
  {
    if n >= 0 then n % 60 else -((-n) % 60)
  }

  /** `Math.floor(minutes / 60)` and `minutes % 60`. For a non-negative
      runtime they are the hours and the leftover minutes; for a negative
      one that is not a whole number of hours, the two parts add up to one
      hour less than the runtime. */
  function RuntimeParts(minutes: int): (hm: (int, int))
    ensures minutes >= 0 ==> hm.0 >= 0 && 0 <= hm.1 < 60 && 60 * hm.0 + hm.1 == minutes
    ensures minutes < 0 && minutes % 60 != 0 ==> hm.0 < 0 && 60 * hm.0 + hm.1 == minutes - 60
  {
    assert minutes == 60 * (minutes / 60) + minutes % 60;
    (minutes / 60, JsRemainder60(minutes))
  }

  /** `formatRuntime(minutes)`: `${hours}h ${mins}m`. */
  function FormatRuntime(minutes: int): (s: string)
    ensures |s| > 0 && s[|s| - 1] == 'm'
  {
    var hm := RuntimeParts(minutes);
    IntToString(hm.0) + "h " + IntToString(hm.1) + "m"
  }

  /** For a non-negative runtime the label is two numerals, and reading
      them back gives hours and minutes that make up the runtime, with the
      minutes under 60. */
  lemma FormatRuntimeReadsBack(minutes: nat)
    ensures var hours, mins := NatToString(minutes / 60), NatToString(minutes % 60);
      && FormatRuntime(minutes) == hours + "h " + mins + "m"
      && 60 * DigitsValue(hours) + DigitsValue(mins) == minutes
      && DigitsValue(mins) < 60
  {
    NatToStringRoundTrip(minutes / 60);
    NatToStringRoundTrip(minutes % 60);
  }

  /** The video `getTrailerKey` looks for. */
  predicate IsYouTubeTrailer(v: Video) {
    v.kind == "Trailer" && v.site == "YouTube"
  }

  /** `Array.prototype.find`: the index of the first YouTube trailer. */
  function FirstTrailer(videos: seq<Video>): (r: Option<nat>)
    ensures r.Some? ==> r.value < |videos| && IsYouTubeTrailer(videos[r.value])
    ensures r.Some? ==> forall j :: 0 <= j < r.value ==> !IsYouTubeTrailer(videos[j])
    ensures r.None? ==> forall j :: 0 <= j < |videos| ==> !IsYouTubeTrailer(videos[j])
  {
    if videos == [] then None
    else if IsYouTubeTrailer(videos[0]) then Some(0)
    else match FirstTrailer(videos[1..])
      case Some(i) => Some(i + 1)
      case None => None
  }

  /** The loaded movie's video list, when every link on the way is there. */
  function VideosOf(movie: Option<Movie>): Option<seq<Video>> {
    if movie.Some? && movie.value.videos.Some? && movie.value.videos.value.results.Some?
    then movie.value.videos.value.results
    else None
  }

  /** `getTrailerKey()`: the key of the first YouTube trailer; nothing when
      the movie, its videos or their results are missing, or no video is a
      YouTube trailer. */
  function TrailerKey(movie: Option<Movie>): (r: Option<string>)
    ensures r.Some? <==>
      VideosOf(movie).Some? && exists j :: 0 <= j < |VideosOf(movie).value| && IsYouTubeTrailer(VideosOf(movie).value[j])
    ensures r.Some? ==>
      exists j :: (&& 0 <= j < |VideosOf(movie).value| && IsYouTubeTrailer(VideosOf(movie).value[j])
                   && VideosOf(movie).value[j].key == r.value
                   && forall k :: 0 <= k < j ==> !IsYouTubeTrailer(VideosOf(movie).value[k]))
  {
    match VideosOf(movie)
    case None => None
    case Some(videos) =>
      match FirstTrailer(videos)
      case Some(i) => Some(videos[i].key)
      case None => None
  }

  /** Whether the Top Cast section renders. */
  predicate ShowsCast(movie: Movie) {
    movie.credits.Some? && movie.credits.value.cast.Some? && |movie.credits.value.cast.value| > 0
  }

  /** `movie.credits.cast.slice(0, 6)` under its guard: the first six
      members, in billing order, or all of them when there are fewer. */
  function TopCast(movie: Movie): (r: seq<CastMember>)
    ensures r != [] <==> ShowsCast(movie)
    ensures |r| <= TopCastSize
    ensures ShowsCast(movie) ==>
      var cast := movie.credits.value.cast.value;
      && |r| == (if |cast| < TopCastSize then |cast| else TopCastSize)
      && r == cast[..|r|]
  {
    if !ShowsCast(movie) then []
    else
      var cast := movie.credits.value.cast.value;
      cast[..if |cast| < TopCastSize then |cast| else TopCastSize]
  }

  /** Whether `movie.poster_path` is truthy. */
  predicate HasPoster(posterPath: Option<string>) {
    posterPath.Some? && posterPath.value != ""
  }

  /** The poster image source: the w500 rendition of the poster, or the
      placeholder. */
  function PosterUrl(posterPath: Option<string>): (url: string)
    ensures HasPoster(posterPath) <==> |url| > |PosterBase| && url[..|PosterBase|] == PosterBase
    ensures HasPoster(posterPath) ==> url[|PosterBase|..] == posterPath.value
    ensures !HasPoster(posterPath) ==> url == PlaceholderPoster
  {
    if HasPoster(posterPath) then PosterBase + posterPath.value else PlaceholderPoster
  }

  /** `handleFavoriteClick` for the loaded movie: remove it when it is a
      favourite, add it otherwise. */
  method HandleFavoriteClick(store: MovieContext.MovieStore, movie: Movie)
    modifies store, store.storage
    ensures MovieContext.IsFavorite(store.favorites, movie.id) <==> !old(MovieContext.IsFavorite(store.favorites, movie.id))
    ensures store.favorites ==
      if old(MovieContext.IsFavorite(store.favorites, movie.id))
      then MovieContext.WithoutFavorite(old(store.favorites), movie.id)
      else MovieContext.WithFavorite(old(store.favorites), movie)
    ensures store.lastSearch == old(store.lastSearch) && store.searchResults == old(store.searchResults)
    ensures store.storage.entries == old(store.storage.entries)[Storage.FavoritesKey := Storage.FavoritesJson(store.favorites)]
    ensures old(store.Persisted()) ==> store.Persisted()
  {
    var favorite := MovieContext.IsFavorite(store.favorites, movie.id);
    if favorite {
      store.RemoveFavorite(movie.id);
    } else {
      store.AddFavorite(movie);
    }
  }

  /** Two clicks on a movie that was not a favourite leave the favourites
      as they were. */
  method ClickTwice(store: MovieContext.MovieStore, movie: Movie)
    requires !MovieContext.IsFavorite(store.favorites, movie.id)
    modifies store, store.storage
    ensures store.favorites == old(store.favorites)
    ensures store.lastSearch == old(store.lastSearch) && store.searchResults == old(store.searchResults)
    ensures store.storage.entries == old(store.storage.entries)[Storage.FavoritesKey := Storage.FavoritesJson(store.favorites)]
    ensures old(store.Persisted()) ==> store.Persisted() && store.storage.entries == old(store.storage.entries)
  {
    ghost var before, stored := store.favorites, store.storage.entries;
    HandleFavoriteClick(store, movie);
    assert store.favorites == MovieContext.WithFavorite(before, movie);
    HandleFavoriteClick(store, movie);
    MovieContext.RemoveUndoesAdd(before, movie);
    assert store.favorites == before;
    assert store.storage.entries == stored[Storage.FavoritesKey := Storage.FavoritesJson(before)];
  }
}
