/** The metadata gateway: the two derivation helpers (`tmdb_poster_url`,
    `tmdb_year`), request building with its two credential styles
    (`tmdb_request`), and the search and details mappings (`tmdb_search`,
    `tmdb_details`). The network call itself is not modelled: the parsed
    upstream answer, or the text of the exception the call raised, is a
    parameter. */
module Tmdb {
  import opened Wrappers
  import opened Http
  import opened Text
  import Models

  const PosterBase := "https://image.tmdb.org/t/p/w500"
  const ApiRoot := "https://api.themoviedb.org/3"

  /** `tmdb_poster_url(path)`: absent exactly when the path is `None` or
      empty, otherwise the fixed image base followed by the path. */
  function PosterUrl(path: Option<string>): (r: Option<string>)
    ensures r.None? <==> !Truthy(path)
    ensures r.Some? ==>
              && |r.value| == |PosterBase| + |path.value|
              && r.value[..|PosterBase|] == PosterBase
              && r.value[|PosterBase|..] == path.value
  {
    if !Truthy(path) then None else Some(PosterBase + path.value)
  }

  /** `s.split("-")[0]`: everything before the first hyphen. */
  function FirstSegment(s: string): (r: string)
    ensures |r| <= |s| && r == s[..|r|]
    ensures '-' !in r
    ensures |r| < |s| ==> s[|r|] == '-'
  {
    if s == [] || s[0] == '-' then [] else [s[0]] + FirstSegment(s[1..])
  }

  /** `tmdb_year(date)`: `None` for a missing or empty date and wherever
      `int(...)` of the leading segment raises; it never fails. */
  function TmdbYear(date: Option<string>): (r: Option<int>)
    ensures !Truthy(date) ==> r.None?
  {
    if !Truthy(date) then None else ParseInt(FirstSegment(date.value))
  }

  lemma {:induction false} FirstSegmentOf(ds: string, rest: string)
    requires '-' !in ds
    requires rest == [] || rest[0] == '-'
    ensures FirstSegment(ds + rest) == ds
  {
    if ds != [] {
      assert (ds + rest)[1..] == ds[1..] + rest;
      FirstSegmentOf(ds[1..], rest);
    }
  }

  /** A date whose leading segment is a run of digits yields the number
      those digits denote, or `None` when `int()` refuses that many digits. */
  lemma YearOfDigits(ds: string, rest: string)
    requires ds != [] && AllDigits(ds)
    requires rest == [] || rest[0] == '-'
    ensures TmdbYear(Some(ds + rest)) == if |ds| <= MaxStrDigits then Some(DigitsValue(ds)) else None
  {
    assert '-' !in ds by {
      forall i | 0 <= i < |ds| ensures ds[i] != '-' { assert IsDigit(ds[i]); }
    }
    FirstSegmentOf(ds, rest);
    ParseDigits(ds);
  }

  /** The year of the ISO text of a date is that date's year. */
  lemma YearOfIsoDate(d: Models.Date)
    ensures TmdbYear(Some(Models.IsoText(d))) == Some(d.year as int)
  {
    var t := Models.IsoText(d);
    assert t == t[..4] + t[4..];
    YearOfDigits(t[..4], t[4..]);
    Models.IsoYearDigits(d);
  }

  /** A leading segment holding a character that `int()` can never accept
      there (anything but a digit, whitespace, `+` or `_`) gives `None`. */
  lemma YearRejectsNonInteger(date: string, j: nat)
    requires j < |FirstSegment(date)|
    requires var c := FirstSegment(date)[j]; !IsDigit(c) && c !in Whitespace && c != '+' && c != '_'
    ensures TmdbYear(Some(date)) == None
  {
    ParseIntRejects(FirstSegment(date), j);
  }

  type Pairs = seq<(string, string)>

  /** The value a key has in an ordered dictionary, or `None`. */
  function Lookup(ps: Pairs, k: string): Option<string>
  {
    if ps == [] then None else if ps[0].0 == k then Some(ps[0].1) else Lookup(ps[1..], k)
  }

  /** `d[k] = v` on an ordered dictionary: an existing key keeps its place,
      a new key goes last. */
  function Assign(ps: Pairs, k: string, v: string): (r: Pairs)
    ensures Lookup(r, k) == Some(v)
    ensures forall k' :: k' != k ==> Lookup(r, k') == Lookup(ps, k')
    ensures Lookup(ps, k).None? ==> r == ps + [(k, v)]
  {
    if ps == [] then [(k, v)]
    else if ps[0].0 == k then [(k, v)] + ps[1..]
    else
      var r := [ps[0]] + Assign(ps[1..], k, v);
      assert r[1..] == Assign(ps[1..], k, v);
      r
  }

  /** A dictionary the request builder writes into (`params`). */
  class Params {
    var entries: Pairs

    constructor (entries: Pairs)
      ensures this.entries == entries
    {
      this.entries := entries;
    }

    method Put(k: string, v: string)
      modifies this
      ensures entries == Assign(old(entries), k, v)
    {
      entries := Assign(entries, k, v);
    }
  }

  /** An outgoing request: URL without query, the query parameters in
      order, and the headers. Percent-encoding of the query is not modelled. */
  datatype Request = Request(url: string, query: Pairs, headers: Pairs)

  /** A read-access token (a JWT, recognised by its `eyJ` prefix) rather
      than a v3 API key. */
  predicate IsBearerToken(apiKey: string) {
    StartsWith(apiKey, "eyJ")
  }

  /** The request `tmdb_request` sends for a configured key: a token goes in
      an `Authorization: Bearer` header and the parameters are left alone;
      any other key goes in the `api_key` parameter and no `Authorization`
      header is sent. */
  function BuildRequest(apiKey: string, endpoint: string, params: Pairs): (r: Request)
    ensures r.url == ApiRoot + endpoint
    ensures Lookup(r.headers, "Accept") == Some("application/json")
    ensures Lookup(r.headers, "Authorization").Some? <==> IsBearerToken(apiKey)
    ensures IsBearerToken(apiKey) ==>
              Lookup(r.headers, "Authorization") == Some("Bearer " + apiKey) && r.query == params
    ensures !IsBearerToken(apiKey) ==>
              && Lookup(r.query, "api_key") == Some(apiKey)
              && forall k :: k != "api_key" ==> Lookup(r.query, k) == Lookup(params, k)
  {
    if IsBearerToken(apiKey) then
      Request(ApiRoot + endpoint, params, [("Accept", "application/json"), ("Authorization", "Bearer " + apiKey)])
    else
      Request(ApiRoot + endpoint, Assign(params, "api_key", apiKey), [("Accept", "application/json")])
  }

  /** `get_tmdb_key` found no key. */
  const KeyNotConfigured := HttpError(500, "TMDB API key is not configured", [])

  /** `str(exc)` of an `HTTPException`. */
  function ExceptionText(e: HttpError): string {
    IntToString(e.status) + ": " + e.detail
  }

  /** `tmdb_request` up to the network call. With a v3 key the caller's
      dictionary gains `api_key` in place; with a token it is untouched. */
  method TmdbRequest(apiKey: Option<string>, endpoint: string, params: Params) returns (res: Result<Request, HttpError>)
    modifies params
    ensures !Truthy(apiKey) ==> res == Err(KeyNotConfigured) && params.entries == old(params.entries)
    ensures Truthy(apiKey) ==> res == Ok(BuildRequest(apiKey.value, endpoint, old(params.entries)))
    ensures Truthy(apiKey) && IsBearerToken(apiKey.value) ==> params.entries == old(params.entries)
    ensures Truthy(apiKey) && !IsBearerToken(apiKey.value) ==>
              params.entries == Assign(old(params.entries), "api_key", apiKey.value)
  {
    if !Truthy(apiKey) {
      return Err(KeyNotConfigured);
    }
    var key := apiKey.value;
    if IsBearerToken(key) {
      res := Ok(Request(ApiRoot + endpoint, params.entries,
                        [("Accept", "application/json"), ("Authorization", "Bearer " + key)]));
    } else {
      params.Put("api_key", key);
      res := Ok(Request(ApiRoot + endpoint, params.entries, [("Accept", "application/json")]));
    }
  }

  /** One element of the upstream `results` list; every field may be absent. */
  datatype SearchHit = SearchHit(
    id: Option<int>,
    mediaType: Option<string>,
    title: Option<string>,
    name: Option<string>,
    releaseDate: Option<string>,
    firstAirDate: Option<string>,
    overview: Option<string>,
    posterPath: Option<string>,
    voteAverage: Option<real>)

  /** One element of the search answer. */
  datatype Summary = Summary(
    id: Option<int>,
    mediaType: string,
    title: Option<string>,
    releaseDate: Option<string>,
    year: Option<int>,
    overview: Option<string>,
    posterUrl: Option<string>,
    rating: Option<real>)

  /** A hit the search keeps: a movie or a series, of the requested kind
      when a kind was requested. */
  predicate Kept(h: SearchHit, filter: Option<string>) {
    && h.mediaType.Some?
    && h.mediaType.value in {"movie", "tv"}
    && (!Truthy(filter) || h.mediaType.value == filter.value)
  }

  /** A kept hit in the answer's shape: the title falls back to the name,
      the release date to the first air date. */
  function Summarize(h: SearchHit): Summary
    requires h.mediaType.Some?
  {
    var releaseDate := Or(h.releaseDate, h.firstAirDate);
    Summary(h.id, h.mediaType.value, Or(h.title, h.name), releaseDate, TmdbYear(releaseDate),
            h.overview, PosterUrl(h.posterPath), h.voteAverage)
  }

  /** The search answer for the upstream hits: the kept ones, summarised, in
      upstream order. Only movies and series appear, and only of the
      requested kind. */
  function Summaries(hits: seq<SearchHit>, filter: Option<string>): (r: seq<Summary>)
    ensures |r| <= |hits|
    ensures forall k :: 0 <= k < |r| ==>
              r[k].mediaType in {"movie", "tv"} && (Truthy(filter) ==> r[k].mediaType == filter.value)
  {
    if hits == [] then []
    else
      var last := hits[|hits| - 1];
      Summaries(hits[..|hits| - 1], filter) + (if Kept(last, filter) then [Summarize(last)] else [])
  }

  /** Upstream order is kept: the answer for two runs of hits is the answer
      for the first followed by the answer for the second. */
  lemma {:induction false} SummariesAppend(a: seq<SearchHit>, b: seq<SearchHit>, filter: Option<string>)
    ensures Summaries(a + b, filter) == Summaries(a, filter) + Summaries(b, filter)
  {
    if b == [] {
      assert a + b == a;
    } else {
      assert (a + b)[..|a + b| - 1] == a + b[..|b| - 1];
      SummariesAppend(a, b[..|b| - 1], filter);
    }
  }

  /** Every kept hit is in the answer, and everything in the answer is a
      kept hit, summarised. */
  lemma {:induction false} SummariesExact(hits: seq<SearchHit>, filter: Option<string>)
    ensures forall h :: h in hits && Kept(h, filter) ==> Summarize(h) in Summaries(hits, filter)
    ensures forall s :: s in Summaries(hits, filter) ==> exists h :: h in hits && Kept(h, filter) && s == Summarize(h)
  {
    if hits != [] {
      var init := hits[..|hits| - 1];
      SummariesExact(init, filter);
      assert hits == init + [hits[|hits| - 1]];
    }
  }

  /** The parameters `tmdb_search` sends. */
  function SearchParams(query: string): Pairs {
    [("query", query), ("include_adult", "false")]
  }

  /** `tmdb_search`. `sent` is the request that went upstream, if any;
      `upstream` is what that call gave. A blank query answers `[]` without
      a call; any failure of the call, including a missing key (whose 500
      the handler itself catches), becomes a 502. */
  method Search(query: string, mediaType: Option<string>, apiKey: Option<string>,
                upstream: Result<seq<SearchHit>, string>)
    returns (res: Result<seq<Summary>, HttpError>, sent: Option<Request>)
    ensures IsBlank(query) ==> res == Ok([]) && sent == None
    ensures !IsBlank(query) && !Truthy(apiKey) ==>
              sent == None && res == Err(BadGateway("TMDB search failed: " + ExceptionText(KeyNotConfigured)))
    ensures !IsBlank(query) && Truthy(apiKey) ==>
              sent == Some(BuildRequest(apiKey.value, "/search/multi", SearchParams(query)))
    ensures !IsBlank(query) && Truthy(apiKey) && upstream.Err? ==>
              res == Err(BadGateway("TMDB search failed: " + upstream.error))
    ensures !IsBlank(query) && Truthy(apiKey) && upstream.Ok? ==>
              res == Ok(Summaries(upstream.value, mediaType))
  {
    if IsBlank(query) {
      return Ok([]), None;
    }
    var params := new Params(SearchParams(query));
    var request := TmdbRequest(apiKey, "/search/multi", params);
    if request.Err? {
      return Err(BadGateway("TMDB search failed: " + ExceptionText(request.error))), None;
    }
    sent := Some(request.value);
    if upstream.Err? {
      res := Err(BadGateway("TMDB search failed: " + upstream.error));
      return;
    }
    var results := CollectSummaries(upstream.value, mediaType);
    res := Ok(results);
  }

  /** The filtering loop of `tmdb_search`: walks the upstream hits in order
      and appends the summary of each kept one. */
  method CollectSummaries(hits: seq<SearchHit>, mediaType: Option<string>) returns (results: seq<Summary>)
    ensures results == Summaries(hits, mediaType)
  {
    results := [];
    var i := 0;
    while i < |hits|
      invariant 0 <= i <= |hits|
      invariant results == Summaries(hits[..i], mediaType)
    {
      var item := hits[i];
      assert hits[..i + 1][..i] == hits[..i];
      if Kept(item, mediaType) {
        results := results + [Summarize(item)];
      }
      i := i + 1;
    }
    assert hits[..|hits|] == hits;
  }

  /** The upstream detail record; a missing `genres` or `episode_run_time`
      is the empty list. */
  datatype DetailResponse = DetailResponse(
    id: Option<int>,
    title: Option<string>,
    name: Option<string>,
    releaseDate: Option<string>,
    firstAirDate: Option<string>,
    overview: Option<string>,
    genres: seq<string>,
    runtime: Option<int>,
    episodeRunTime: seq<int>,
    voteAverage: Option<real>,
    posterPath: Option<string>)

  /** The details answer, in the shape of the item records. */
  datatype DetailRecord = DetailRecord(
    tmdbId: Option<int>,
    title: Option<string>,
    contentType: string,
    synopsis: Option<string>,
    releaseYear: Option<int>,
    releaseDate: Option<string>,
    runtime: Option<int>,
    genres: string,
    tmdbRating: Option<real>,
    posterUrl: Option<string>)

  /** What a lookup answered and which request, if any, it sent upstream. */
  datatype Outcome<T> = Outcome(result: Result<T, HttpError>, sent: Option<Request>)

  function MapDetails(mediaType: string, resp: DetailResponse): DetailRecord
  {
    var releaseDate := Or(resp.releaseDate, resp.firstAirDate);
    var runtime :=
      if mediaType == "movie" then resp.runtime
      else if resp.episodeRunTime == [] then None
      else Some(resp.episodeRunTime[0]);
    DetailRecord(
      resp.id, Or(resp.title, resp.name), if mediaType == "movie" then "Movie" else "TV Series",
      resp.overview, TmdbYear(releaseDate), releaseDate, runtime, Join(", ", resp.genres),
      resp.voteAverage, PosterUrl(resp.posterPath))
  }

  /** `tmdb_details`. An unsupported kind is a 400 before anything is sent;
      a call failure (a missing key included) is a 502; the content type is
      "Movie" exactly for movies; a movie's runtime is its `runtime`, a
      series' the first episode runtime, if any. */
  function Details(mediaType: string, tmdbId: int, apiKey: Option<string>, upstream: Result<DetailResponse, string>)
    : (r: Outcome<DetailRecord>)
    ensures mediaType !in {"movie", "tv"} ==> r == Outcome(Err(BadRequest("Unsupported media type")), None)
    ensures r.sent.Some? <==> mediaType in {"movie", "tv"} && Truthy(apiKey)
    ensures r.sent.Some? ==> r.sent.value == BuildRequest(apiKey.value, "/" + mediaType + "/" + IntToString(tmdbId), [])
    ensures mediaType in {"movie", "tv"} && !Truthy(apiKey) ==>
              r.result == Err(BadGateway("TMDB details failed: " + ExceptionText(KeyNotConfigured)))
    ensures r.sent.Some? && upstream.Err? ==> r.result == Err(BadGateway("TMDB details failed: " + upstream.error))
    ensures r.result.Ok? <==> r.sent.Some? && upstream.Ok?
    ensures r.result.Ok? ==> (r.result.value.contentType == "Movie" <==> mediaType == "movie")
    ensures r.result.Ok? ==> r.result.value.contentType in {"Movie", "TV Series"}
    ensures r.result.Ok? && mediaType == "movie" ==> r.result.value.runtime == upstream.value.runtime
    ensures r.result.Ok? && mediaType == "tv" ==>
              r.result.value.runtime == if upstream.value.episodeRunTime == [] then None
                                        else Some(upstream.value.episodeRunTime[0])
  {
    if mediaType !in {"movie", "tv"} then Outcome(Err(BadRequest("Unsupported media type")), None)
    else if !Truthy(apiKey) then
      Outcome(Err(BadGateway("TMDB details failed: " + ExceptionText(KeyNotConfigured))), None)
    else
      var request := BuildRequest(apiKey.value, "/" + mediaType + "/" + IntToString(tmdbId), []);
      match upstream
      case Err(message) => Outcome(Err(BadGateway("TMDB details failed: " + message)), Some(request))
      case Ok(resp) => Outcome(Ok(MapDetails(mediaType, resp)), Some(request))
  }

  /** A movie with `runtime: 120` and one genre "Drama" gives runtime 120 and
      genres "Drama"; a series with `episode_run_time: [45, 42]` gives 45. */
  lemma DetailsExamples(key: string, movie: DetailResponse, series: DetailResponse)
    requires key != ""
    requires movie.runtime == Some(120) && movie.genres == ["Drama"]
    requires series.episodeRunTime == [45, 42]
    ensures var r := Details("movie", 1, Some(key), Ok(movie)).result;
            r.Ok? && r.value.runtime == Some(120) && r.value.genres == "Drama"
    ensures var r := Details("tv", 2, Some(key), Ok(series)).result;
            r.Ok? && r.value.runtime == Some(45) && r.value.contentType == "TV Series"
  {
  }
}
