/**
 * The library's MusicBrainz service: the same two requests as the
 * application's, sent directly to the MusicBrainz web service with a fixed
 * `User-Agent` header, and its own error messages.
 */
module MusicBrainzLib {
  import opened Wrappers
  import opened Text
  import opened Models
  import opened Http
  import App = MusicBrainzApp

  const BaseUrl := "https://musicbrainz.org/ws/2"
  const UserAgent := "AngularPlayground/1.0.0 (claude-assistant@example.com)"
  const DefaultArtistLimit := 10
  const DefaultReleaseLimit := 100

  datatype ArtistSearchResponse = ArtistSearchResponse(count: int, offset: int, artists: seq<Artist>)
  datatype ReleaseSearchResponse = ReleaseSearchResponse(count: int, offset: int, releases: seq<Release>)

  // ---------------------------------------------------------------------------
  // Errors

  /** The message of `handleError` for each class of failure. */
  function MessageOf(c: ErrorClass): string {
    match c
    case Unavailable => "MusicBrainz service is temporarily unavailable. Please try again later."
    case RateLimited => "Rate limit exceeded. Please wait before making another request."
    case Unreachable => "Network error. Please check your internet connection."
    case OtherStatus => "An error occurred while fetching data from MusicBrainz."
  }

  function ErrorMessage(status: int): string {
    MessageOf(Classify(status))
  }

  /** `handleError`: the failure becomes an error, never a value. */
  function HandleError<T>(status: int): (r: Outcome<T>)
    ensures r.Err? && r.message == ErrorMessage(status)
  {
    Err(ErrorMessage(status))
  }

  /**
   * The library tells the same statuses apart as the application and words
   * them the same, except that its network message lacks the remark on CORS.
   */
  lemma SameMessagesAsApp(status: int)
    ensures status != 0 ==> ErrorMessage(status) == App.ErrorMessage(status)
    ensures status == 0 ==> App.ErrorMessage(status) == ErrorMessage(status) + " (API requests may be blocked by CORS)"
  {
  }

  /** Two statuses give the same message exactly when they are of the same class. */
  lemma ErrorMessageDistinguishes(a: int, b: int)
    ensures ErrorMessage(a) == ErrorMessage(b) <==> Classify(a) == Classify(b)
  {
    MessageLength(Classify(a));
    MessageLength(Classify(b));
  }

  /** The messages have pairwise different lengths. */
  function Length(c: ErrorClass): nat {
    match c
    case Unavailable => 71
    case RateLimited => 63
    case Unreachable => 53
    case OtherStatus => 55
  }

  lemma MessageLength(c: ErrorClass)
    ensures |MessageOf(c)| == Length(c)
  {
  }

  // ---------------------------------------------------------------------------
  // Requests

  /** The headers of every request: only the fixed `User-Agent`. */
  const Headers: Params := [("User-Agent", UserAgent)]

  /** `searchArtists`, the request: the query, the limit (10 by default) and `fmt=json`. */
  function ArtistSearchRequest(query: string, limit: int := DefaultArtistLimit): (req: Request)
    ensures req.url == "https://musicbrainz.org/ws/2/artist"
    ensures Lookup(req.headers, "User-Agent") == Some(UserAgent) && Keys(req.headers) == ["User-Agent"]
    ensures req.params == [("query", query), ("limit", IntToString(limit)), ("fmt", "json")]
  {
    SetThree("query", query, "limit", IntToString(limit), "fmt", "json");
    Request(
      BaseUrl + "/artist", Headers,
      SetParam(SetParam(SetParam([], "query", query), "limit", IntToString(limit)), "fmt", "json"))
  }

  /** `searchArtists`, the answer: the artists of the response, or the error. */
  function ArtistSearchResult(answer: HttpAnswer<ArtistSearchResponse>): (r: Outcome<seq<Artist>>)
    ensures answer.Body? ==> r == Ok(answer.value.artists)
    ensures answer.Failure? ==> r == Err(ErrorMessage(answer.status))
  {
    match answer
    case Body(response) => Ok(response.artists)
    case Failure(status) => HandleError(status)
  }

  /** `getArtistReleases`, the request: the artist, `inc=labels`, the limit (100 by default) and `fmt=json`. */
  function ArtistReleasesRequest(artistId: string, limit: int := DefaultReleaseLimit): (req: Request)
    ensures req.url == "https://musicbrainz.org/ws/2/release"
    ensures Lookup(req.headers, "User-Agent") == Some(UserAgent) && Keys(req.headers) == ["User-Agent"]
    ensures req.params == [("artist", artistId), ("inc", "labels"), ("limit", IntToString(limit)), ("fmt", "json")]
  {
    var three := [("artist", artistId), ("inc", "labels"), ("limit", IntToString(limit))];
    SetThree("artist", artistId, "inc", "labels", "limit", IntToString(limit));
    KeysOfThree("artist", artistId, "inc", "labels", "limit", IntToString(limit));
    SetParamNew(three, "fmt", "json");
    Request(
      BaseUrl + "/release", Headers,
      SetParam(SetParam(SetParam(SetParam([], "artist", artistId), "inc", "labels"), "limit", IntToString(limit)), "fmt", "json"))
  }

  /** `getArtistReleases`, the answer: the releases of the response, or the error. */
  function ArtistReleasesResult(answer: HttpAnswer<ReleaseSearchResponse>): (r: Outcome<seq<Release>>)
    ensures answer.Body? ==> r == Ok(answer.value.releases)
    ensures answer.Failure? ==> r == Err(ErrorMessage(answer.status))
  {
    match answer
    case Body(response) => Ok(response.releases)
    case Failure(status) => HandleError(status)
  }

  /** The library asks for the same parameters as the application, only elsewhere and with the header. */
  lemma SameParamsAsApp(query: string, artistId: string, limit: int)
    ensures ArtistSearchRequest(query, limit).params == App.ArtistSearchRequest(query, limit).params
    ensures ArtistReleasesRequest(artistId, limit).params == App.ArtistReleasesRequest(artistId, limit).params
    ensures ArtistSearchRequest(query).params == App.ArtistSearchRequest(query).params
    ensures ArtistReleasesRequest(artistId).params == App.ArtistReleasesRequest(artistId).params
  {
  }
}
