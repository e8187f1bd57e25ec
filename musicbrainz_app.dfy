/**
 * The application's MusicBrainz service: the requests for an artist search
 * and for an artist's releases, sent to the development proxy under `/api`,
 * the projection of their answers, and the error message for a failed
 * request. The answer of each request is a parameter.
 */
module MusicBrainzApp {
  import opened Wrappers
  import opened Text
  import opened Models
  import opened Http

  const BaseUrl := "/api"
  const DefaultArtistLimit := 10
  const DefaultReleaseLimit := 100

  datatype ArtistSearchResponse = ArtistSearchResponse(count: int, offset: int, artists: seq<Artist>)
  datatype ReleaseSearchResponse = ReleaseSearchResponse(count: int, offset: int, releases: seq<Release>)

  // ---------------------------------------------------------------------------
  // Errors

  /** The message of `handleError` for each class of failure. */
  function MessageOf(c: ErrorClass): string {
    match c
    case Unavailable => "MusicBrainz service is temporarily unavailable. Please try again later."
    case RateLimited => "Rate limit exceeded. Please wait before making another request."
    case Unreachable => "Network error. Please check your internet connection." + " (API requests may be blocked by CORS)"
    case OtherStatus => "An error occurred while fetching data from MusicBrainz."
  }

  /** The message of `handleError` for a failed request with the given status. */
  function ErrorMessage(status: int): string {
    MessageOf(Classify(status))
  }

  /** `handleError`: the failure becomes an error, never a value. */
  function HandleError<T>(status: int): (r: Outcome<T>)
    ensures r.Err? && r.message == ErrorMessage(status)
  {
    Err(ErrorMessage(status))
  }

  /** Two statuses give the same message exactly when they are of the same class. */
  lemma ErrorMessageDistinguishes(a: int, b: int)
    ensures ErrorMessage(a) == ErrorMessage(b) <==> Classify(a) == Classify(b)
  {
    MessageLength(Classify(a));
    MessageLength(Classify(b));
  }

  /** The messages have pairwise different lengths. */
  function Length(c: ErrorClass): nat {
    match c
    case Unavailable => 71
    case RateLimited => 63
    case Unreachable => 91
    case OtherStatus => 55
  }

  lemma MessageLength(c: ErrorClass)
    ensures |MessageOf(c)| == Length(c)
  {
  }

  // ---------------------------------------------------------------------------
  // Requests

  /** `searchArtists`, the request: the query, the limit (10 by default) and `fmt=json`. */
  function ArtistSearchRequest(query: string, limit: int := DefaultArtistLimit): (req: Request)
    ensures req.url == "/api/artist" && req.headers == []
    ensures req.params == [("query", query), ("limit", IntToString(limit)), ("fmt", "json")]
  {
    SetThree("query", query, "limit", IntToString(limit), "fmt", "json");
    Request(
      BaseUrl + "/artist", [],
      SetParam(SetParam(SetParam([], "query", query), "limit", IntToString(limit)), "fmt", "json"))
  }

  /** `searchArtists`, the answer: the artists of the response, or the error. */
  function ArtistSearchResult(answer: HttpAnswer<ArtistSearchResponse>): (r: Outcome<seq<Artist>>)
    ensures answer.Body? ==> r == Ok(answer.value.artists)
    ensures answer.Failure? ==> r == Err(ErrorMessage(answer.status))
  {
    match answer
    case Body(response) => Ok(response.artists)
    case Failure(status) => HandleError(status)
  }

  /** `getArtistReleases`, the request: the artist, `inc=labels`, the limit (100 by default) and `fmt=json`. */
  function ArtistReleasesRequest(artistId: string, limit: int := DefaultReleaseLimit): (req: Request)
    ensures req.url == "/api/release" && req.headers == []
    ensures req.params == [("artist", artistId), ("inc", "labels"), ("limit", IntToString(limit)), ("fmt", "json")]
  {
    var three := [("artist", artistId), ("inc", "labels"), ("limit", IntToString(limit))];
    SetThree("artist", artistId, "inc", "labels", "limit", IntToString(limit));
    KeysOfThree("artist", artistId, "inc", "labels", "limit", IntToString(limit));
    SetParamNew(three, "fmt", "json");
    Request(
      BaseUrl + "/release", [],
      SetParam(SetParam(SetParam(SetParam([], "artist", artistId), "inc", "labels"), "limit", IntToString(limit)), "fmt", "json"))
  }

  /** `getArtistReleases`, the answer: the releases of the response, or the error. */
  function ArtistReleasesResult(answer: HttpAnswer<ReleaseSearchResponse>): (r: Outcome<seq<Release>>)
    ensures answer.Body? ==> r == Ok(answer.value.releases)
    ensures answer.Failure? ==> r == Err(ErrorMessage(answer.status))
  {
    match answer
    case Body(response) => Ok(response.releases)
    case Failure(status) => HandleError(status)
  }

  /** Without an explicit limit, an artist search asks for 10 artists and a release listing for 100 releases. */
  lemma DefaultLimits(query: string, artistId: string)
    ensures Lookup(ArtistSearchRequest(query).params, "limit") == Some("10")
    ensures Lookup(ArtistReleasesRequest(artistId).params, "limit") == Some("100")
  {
    assert DigitChar(0) == '0' && DigitChar(1) == '1';
    assert IntToString(10) == "10" by {
      assert NatToString(10) == NatToString(1) + [DigitChar(0)];
    }
    assert IntToString(100) == "100" by {
      assert NatToString(100) == NatToString(10) + [DigitChar(0)];
      assert NatToString(10) == NatToString(1) + [DigitChar(0)];
    }
    var r := ArtistReleasesRequest(artistId).params;
    assert Lookup(r, "limit") == Lookup(r[1..], "limit") == Lookup(r[1..][1..], "limit");
  }
}
