/** The Discover page: movies of one genre, fetched page by page, of which
    the client keeps those whose release year and rating fall inside the
    chosen ranges. */
module Discover {
  import opened Common
  import opened Pagination
  import Tmdb

  const SliderMinYear := 1900
  const MinRating := 0.0
  const MaxRating := 10.0
  const DefaultFromYear := 2000

  /** The year the filter compares: the release year, 0 for a movie
      without a release date. */
  function MovieYear(m: Movie): int {
    match m.releaseYear
    case Some(y) => y
    case None => 0
  }

  /** The filter predicate, inclusive at both ends of both ranges. An
      undated movie counts as year 0, so it fails whenever the lower year
      bound is positive. */
  predicate PassesFilters(m: Movie, years: (int, int), ratings: (real, real))
    ensures m.releaseYear.None? && years.0 > 0 ==> !PassesFilters(m, years, ratings)
  {
    && years.0 <= MovieYear(m) <= years.1
    && ratings.0 <= m.voteAverage <= ratings.1
  }

  /** `data.results.filter(...)`: the movies of one page that pass. */
  function FilterPage(results: seq<Movie>, years: (int, int), ratings: (real, real)): (r: seq<Movie>)
    ensures IsSubsequence(r, results)
    ensures forall m :: multiset(r)[m] == if PassesFilters(m, years, ratings) then multiset(results)[m] else 0
    ensures forall i :: 0 <= i < |r| ==> PassesFilters(r[i], years, ratings)
  {
    var keep := (m: Movie) => PassesFilters(m, years, ratings);
    FilterIsSubsequence(results, keep);
    FilterCounts(results, keep);
    Filter(results, keep)
  }

  /** The response with its results filtered and its counters untouched. */
  function Filtered(outcome: Result<PageData, ApiError>, years: (int, int), ratings: (real, real)): (r: Result<PageData, ApiError>)
    ensures r.Success? <==> outcome.Success?
    ensures r.Failure? ==> r == outcome
    ensures r.Success? ==>
      && r.value.page == outcome.value.page && r.value.totalPages == outcome.value.totalPages
      && r.value.results == FilterPage(outcome.value.results, years, ratings)
  {
    match outcome
    case Success(data) => Success(data.(results := FilterPage(data.results, years, ratings)))
    case Failure(e) => Failure(e)
  }

  /** `page` and `hasMore` come from the API's counters, however many
      movies the filter lets through. */
  lemma CountersIgnoreFilter(s: Pager, reset: bool, outcome: Result<PageData, ApiError>, years: (int, int), ratings: (real, real))
    ensures Settled(s, reset, Filtered(outcome, years, ratings)).page == Settled(s, reset, outcome).page
    ensures Settled(s, reset, Filtered(outcome, years, ratings)).hasMore == Settled(s, reset, outcome).hasMore
    ensures Settled(s, reset, Filtered(outcome, years, ratings)).error == Settled(s, reset, outcome).error
  {
  }

  /** A load in flight, with the filters its closure captured. */
  datatype DiscoverLoad = DiscoverLoad(request: Tmdb.Request, reset: bool, years: (int, int), ratings: (real, real))

  /** `if (!selectedGenre)`: a genre is chosen (ids are numbers; 0 is falsy). */
  predicate GenreChosen(selected: Option<int>) {
    selected.Some? && selected.value != 0
  }

  class DiscoverPage {
    var movies: seq<Movie>
    var loading: bool
    var error: Option<ApiError>
    var page: int
    var hasMore: bool
    var genres: seq<Genre>
    var selectedGenre: Option<int>
    var yearRange: (int, int)
    var ratingRange: (real, real)
    const currentYear: int
    const client: Tmdb.Client

    function State(): Pager
      reads this
    {
      Pager(movies, page, hasMore, loading, error)
    }

    /** The ranges stay where the sliders can put them. */
    ghost predicate RangesOnSliders()
      reads this
    {
      && SliderMinYear <= yearRange.0 <= yearRange.1 <= currentYear
      && MinRating <= ratingRange.0 <= ratingRange.1 <= MaxRating
    }

    /** The first render; the clock's year is an input. */
    constructor (client: Tmdb.Client, currentYear: int)
      ensures this.client == client && this.currentYear == currentYear
      ensures State() == Pager([], 1, true, false, None)
      ensures genres == [] && selectedGenre.None?
      ensures yearRange == (DefaultFromYear, currentYear) && ratingRange == (MinRating, MaxRating)
      ensures currentYear >= DefaultFromYear ==> RangesOnSliders()
    {
      this.client, this.currentYear := client, currentYear;
      movies, loading, error, page, hasMore := [], false, None, 1, true;
      genres, selectedGenre := [], None;
      yearRange, ratingRange := (DefaultFromYear, currentYear), (MinRating, MaxRating);
    }

    /** The mount effect's genre list arriving: kept on success; on failure
        it is only logged. */
    method ReceiveGenres(response: Result<Tmdb.GenreListBody, ApiError>)
      modifies this
      ensures var r := Tmdb.GenresOf(response);
        genres == if r.Success? then r.value else old(genres)
      ensures State() == old(State()) && selectedGenre == old(selectedGenre)
      ensures yearRange == old(yearRange) && ratingRange == old(ratingRange)
    {
      var list := Tmdb.GenresOf(response);
      if list.Success? {
        genres := list.value;
      }
    }

    method SelectGenre(g: int)
      modifies this
      ensures selectedGenre == Some(g)
      ensures State() == old(State()) && genres == old(genres)
      ensures yearRange == old(yearRange) && ratingRange == old(ratingRange)
    {
      selectedGenre := Some(g);
    }

    /** Moving the year slider; the slider keeps both ends in its range. */
    method SetYearRange(years: (int, int))
      requires SliderMinYear <= years.0 <= years.1 <= currentYear
      modifies this
      ensures yearRange == years
      ensures State() == old(State()) && genres == old(genres) && selectedGenre == old(selectedGenre)
      ensures ratingRange == old(ratingRange)
      ensures old(RangesOnSliders()) ==> RangesOnSliders()
    {
      yearRange := years;
    }

    /** Moving the rating slider. */
    method SetRatingRange(ratings: (real, real))
      requires MinRating <= ratings.0 <= ratings.1 <= MaxRating
      modifies this
      ensures ratingRange == ratings
      ensures State() == old(State()) && genres == old(genres) && selectedGenre == old(selectedGenre)
      ensures yearRange == old(yearRange)
      ensures old(RangesOnSliders()) ==> RangesOnSliders()
    {
      ratingRange := ratings;
    }

    /** The start of `loadMovies(pageToLoad, reset)`; nothing happens
        without a genre. The closure keeps the ranges of this moment. */
    method LoadMovies(pageToLoad: int, reset: bool) returns (p: Option<DiscoverLoad>)
      modifies this
      ensures genres == old(genres) && selectedGenre == old(selectedGenre)
      ensures yearRange == old(yearRange) && ratingRange == old(ratingRange)
      ensures !GenreChosen(selectedGenre) ==> p.None? && State() == old(State())
      ensures GenreChosen(selectedGenre) ==>
        && p == Some(DiscoverLoad(Tmdb.RequestFor(client, Tmdb.Discover(selectedGenre.value, pageToLoad)),
                                  reset, yearRange, ratingRange))
        && State() == Started(old(State()))
    {
      if !GenreChosen(selectedGenre) {
        return None;
      }
      loading := true;
      p := Some(DiscoverLoad(Tmdb.DiscoverRequest(client, selectedGenre.value, pageToLoad),
                             reset, yearRange, ratingRange));
    }

    /** The end of `loadMovies` for the load `p`: the page is filtered with
        the ranges the load started with, and the counters are the API's. */
    method Settle(p: DiscoverLoad, outcome: Result<PageData, ApiError>)
      modifies this
      ensures State() == Settled(old(State()), p.reset, Filtered(outcome, p.years, p.ratings))
      ensures genres == old(genres) && selectedGenre == old(selectedGenre)
      ensures yearRange == old(yearRange) && ratingRange == old(ratingRange)
    {
      if outcome.Success? {
        var data := outcome.value;
        var filteredResults := FilterPage(data.results, p.years, p.ratings);
        if p.reset {
          movies := filteredResults;
        } else {
          movies := movies + filteredResults;
        }
        hasMore := data.page < data.totalPages;
        page := data.page;
        error := None;
      } else {
        error := Some(outcome.error);
      }
      loading := false;
    }

    /** `handleApplyFilters`: clear, then load page 1 in reset mode. The
        clearing happens even when no genre is chosen. */
    method ApplyFilters() returns (p: Option<DiscoverLoad>)
      modifies this
      ensures genres == old(genres) && selectedGenre == old(selectedGenre)
      ensures yearRange == old(yearRange) && ratingRange == old(ratingRange)
      ensures !GenreChosen(selectedGenre) ==> p.None? && State() == Cleared(old(State()))
      ensures GenreChosen(selectedGenre) ==>
        && p == Some(DiscoverLoad(Tmdb.RequestFor(client, Tmdb.Discover(selectedGenre.value, 1)),
                                  true, yearRange, ratingRange))
        && State() == Started(Cleared(old(State())))
    {
      movies := [];
      page := 1;
      hasMore := true;
      p := LoadMovies(1, true);
    }

    /** `loadMore`: the next page in append mode, unless a load is in
        flight or the last page is already there. It uses the genre and
        ranges selected now, applied or not. */
    method LoadMore() returns (p: Option<DiscoverLoad>)
      modifies this
      ensures genres == old(genres) && selectedGenre == old(selectedGenre)
      ensures yearRange == old(yearRange) && ratingRange == old(ratingRange)
      ensures !CanLoadMore(old(State())) || !GenreChosen(selectedGenre) ==> p.None? && State() == old(State())
      ensures CanLoadMore(old(State())) && GenreChosen(selectedGenre) ==>
        && p == Some(DiscoverLoad(Tmdb.RequestFor(client, Tmdb.Discover(selectedGenre.value, old(page) + 1)),
                                  false, yearRange, ratingRange))
        && State() == Started(old(State()))
    {
      if !loading && hasMore {
        p := LoadMovies(page + 1, false);
      } else {
        p := None;
      }
    }
  }

  /** What a settled Discover load shows: with the slider's lower year
      bound, no undated movie ever enters the list; in reset mode the list
      is exactly the page's passing movies, in the page's order. */
  lemma SettledShowsOnlyPassing(s: Pager, p: DiscoverLoad, data: PageData)
    requires p.years.0 >= SliderMinYear
    ensures var r := Settled(s, p.reset, Filtered(Success(data), p.years, p.ratings));
      && (forall i :: 0 <= i < |r.movies| && (p.reset || i >= |s.movies|) ==> PassesFilters(r.movies[i], p.years, p.ratings))
      && (p.reset ==> IsSubsequence(r.movies, data.results))
      && (forall i :: 0 <= i < |r.movies| && (p.reset || i >= |s.movies|) ==> r.movies[i].releaseYear.Some?)
  {
    var shown := FilterPage(data.results, p.years, p.ratings);
    var r := Settled(s, p.reset, Filtered(Success(data), p.years, p.ratings));
    forall i | 0 <= i < |r.movies| && (p.reset || i >= |s.movies|)
      ensures PassesFilters(r.movies[i], p.years, p.ratings) && r.movies[i].releaseYear.Some?
    {
      var j := if p.reset then i else i - |s.movies|;
      assert r.movies[i] == shown[j];
    }
  }
}
