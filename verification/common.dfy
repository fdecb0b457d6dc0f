/** Values shared by the whole client: the records that arrive from the movie
    metadata API, the envelope of a paginated listing, the errors a request can
    fail with, the session user, and the order-keeping filter that several
    parts of the client apply to lists of movies. */
module Common {

  datatype Option<+T> = None | Some(value: T)

  datatype Result<+T, +E> = Success(value: T) | Failure(error: E)

  /** An entry of `videos.results`; `kind` is the API's `type` field. */
  datatype Video = Video(key: string, site: string, kind: string)

  /** The `videos` object of a details response; `results` may be missing. */
  datatype VideoList = VideoList(results: Option<seq<Video>>)

  datatype CastMember = CastMember(id: int, name: string, character: string, profilePath: Option<string>)

  /** The `credits` object of a details response; `cast` may be missing. */
  datatype Credits = Credits(cast: Option<seq<CastMember>>)

  datatype Genre = Genre(id: int, name: string)

  /** A movie snapshot as the API sends it. `posterPath` is None when the
      path is missing or empty; `releaseYear` is the number in front of the
      first '-' of `release_date`, None when the date is missing or empty. */
  datatype Movie = Movie(
    id: int,
    title: string,
    posterPath: Option<string>,
    releaseYear: Option<int>,
    voteAverage: real,
    runtime: int,
    videos: Option<VideoList>,
    credits: Option<Credits>)

  /** The body of a paginated listing: `{results, page, total_pages}`. */
  datatype PageData = PageData(results: seq<Movie>, page: int, totalPages: int)

  /** Why a request failed: no response at all, or a non-2xx status with the
      provider's message body. */
  datatype ApiError = Transport(message: string) | Http(status: int, body: string)

  /** The login payload kept by the session store; it has no password. */
  datatype User = User(username: string, id: string)

  /** `sub` can be obtained from `s` by deleting elements, keeping order. */
  predicate IsSubsequence<T(==)>(sub: seq<T>, s: seq<T>)
    decreases |s|
  {
    if s == [] then sub == []
    else (sub != [] && sub[0] == s[0] && IsSubsequence(sub[1..], s[1..]))
         || IsSubsequence(sub, s[1..])
  }

  /** JavaScript's `Array.prototype.filter`: the elements that `keep`
      accepts, in their original order. */
  function Filter<T>(s: seq<T>, keep: T -> bool): (r: seq<T>)
    ensures |r| <= |s|
    ensures forall i :: 0 <= i < |r| ==> keep(r[i])
  {
    if s == [] then []
    else if keep(s[0]) then [s[0]] + Filter(s[1..], keep)
    else Filter(s[1..], keep)
  }

  /** The filtered list keeps the order of the original. */
  lemma {:induction false} FilterIsSubsequence<T>(s: seq<T>, keep: T -> bool)
    ensures IsSubsequence(Filter(s, keep), s)
  {
    if s != [] {
      FilterIsSubsequence(s[1..], keep);
    }
  }

  /** The filtered list holds each accepted element as often as the
      original, and no other element. */
  lemma {:induction false} FilterCounts<T(!new)>(s: seq<T>, keep: T -> bool)
    ensures forall x :: multiset(Filter(s, keep))[x] == if keep(x) then multiset(s)[x] else 0
  {
    if s != [] {
      FilterCounts(s[1..], keep);
      assert s == [s[0]] + s[1..];
    }
  }

  /** Filtering with a test that accepts every element gives the list back. */
  lemma {:induction false} FilterKeepsAll<T>(s: seq<T>, keep: T -> bool)
    requires forall i :: 0 <= i < |s| ==> keep(s[i])
    ensures Filter(s, keep) == s
  {
    if s != [] {
      FilterKeepsAll(s[1..], keep);
    }
  }

  /** Filtering distributes over concatenation. */
  lemma {:induction false} FilterConcat<T>(a: seq<T>, b: seq<T>, keep: T -> bool)
    ensures Filter(a + b, keep) == Filter(a, keep) + Filter(b, keep)
  {
    if a == [] {
      assert a + b == b;
    } else {
      assert (a + b)[0] == a[0] && (a + b)[1..] == a[1..] + b;
      FilterConcat(a[1..], b, keep);
    }
  }
}
