/**
 * The Spotify service: its session state (token, user, flag, credentials),
 * the creation of a playlist named after a label, and the population of
 * that playlist: one track search per release, the first `trackCount`
 * results of each appended to one list of URIs, and that list sent in
 * batches of 100. Every HTTP answer is a parameter; the calls the service
 * makes, and its pauses, are returned as a trace.
 */
module SpotifyService {
  import opened Wrappers
  import opened Text
  import opened Seqs

  /** Spotify's limit on URIs per add-tracks request. */
  const BatchSize := 100

  /** The pause after each answered search, in milliseconds. */
  const SearchPause := 100

  /** The pause between two add-tracks requests, in milliseconds. */
  const BatchPause := 200

  datatype AuthConfig = AuthConfig(clientId: string, clientSecret: string, redirectUri: string)

  /** A `Partial<SpotifyAuthConfig>`: the fields the caller supplies. */
  datatype ConfigUpdate = ConfigUpdate(clientId: Option<string>, clientSecret: Option<string>, redirectUri: Option<string>)

  datatype User = User(id: string, displayName: string, email: string)

  datatype Playlist = Playlist(id: string, name: string, description: string)

  datatype SpotifyTrack = SpotifyTrack(id: string, name: string, uri: string)

  /** One release of a playlist request and how many of its tracks to add. */
  datatype ReleaseRequest = ReleaseRequest(artistName: string, releaseName: string, trackCount: int)

  datatype CreationRequest = CreationRequest(labelName: string, releases: seq<ReleaseRequest>)

  /**
   * What awaiting a search gave: the HTTP answer (its track items, or an
   * error), or a rejection of the awaited call itself.
   */
  datatype Lookup = Answered(response: Outcome<seq<SpotifyTrack>>) | Threw

  /** A request the service sends, or a pause it takes. */
  datatype Call =
    | SearchCall(query: string, limit: int)
    | CreateCall(userId: string, name: string, description: string, isPublic: bool)
    | AddCall(playlistId: string, uris: seq<string>)
    | Pause(ms: int)

  // ---------------------------------------------------------------------------
  // Configuration

  /** `{ ...config, ...update }`: each supplied field replaces the current one. */
  function Merge(config: AuthConfig, update: ConfigUpdate): (r: AuthConfig)
    ensures update.clientId.None? ==> r.clientId == config.clientId
    ensures update.clientSecret.None? ==> r.clientSecret == config.clientSecret
    ensures update.redirectUri.None? ==> r.redirectUri == config.redirectUri
    ensures update.clientId.Some? ==> r.clientId == update.clientId.value
    ensures update.clientSecret.Some? ==> r.clientSecret == update.clientSecret.value
    ensures update.redirectUri.Some? ==> r.redirectUri == update.redirectUri.value
  {
    AuthConfig(update.clientId.GetOr(config.clientId), update.clientSecret.GetOr(config.clientSecret),
               update.redirectUri.GetOr(config.redirectUri))
  }

  /** Applying the same update twice is applying it once, and an empty update changes nothing. */
  lemma MergeIdempotent(config: AuthConfig, update: ConfigUpdate)
    ensures Merge(Merge(config, update), update) == Merge(config, update)
    ensures Merge(config, ConfigUpdate(None, None, None)) == config
  {
  }

  // ---------------------------------------------------------------------------
  // Request headers and the add-tracks answer

  /** `getAuthHeaders`: the bearer token, written `null` when there is none, and the JSON content type. */
  function AuthHeaders(token: Option<string>): (h: seq<(string, string)>)
    ensures |h| == 2 && h[0].0 == "Authorization" && h[1] == ("Content-Type", "application/json")
    ensures token.Some? ==> h[0].1 == "Bearer " + token.value
    ensures token.None? ==> h[0].1 == "Bearer null"
  {
    [("Authorization", "Bearer " + token.GetOr("null")), ("Content-Type", "application/json")]
  }

  /**
   * Different tokens give different headers, but a service without a token
   * sends exactly the headers of the token `null`.
   */
  lemma AuthHeadersTellTokensApart(a: string, b: string)
    ensures AuthHeaders(Some(a)) == AuthHeaders(Some(b)) ==> a == b
    ensures AuthHeaders(None) == AuthHeaders(Some("null"))
  {
    var ha := AuthHeaders(Some(a))[0].1;
    var hb := AuthHeaders(Some(b))[0].1;
    assert ha[7..] == a && hb[7..] == b;
  }

  /** `addTracksToPlaylist`'s result: whether the request was answered rather than failed. */
  function AddTracksResult<T>(answer: Outcome<T>): (added: bool)
    ensures added <==> answer.Ok?
  {
    match answer
    case Ok(_) => true
    case Err(_) => false
  }

  // ---------------------------------------------------------------------------
  // Searching

  /** `searchTracks`: the items of the answer; an HTTP error gives no tracks. */
  function SearchTracks(response: Outcome<seq<SpotifyTrack>>): (r: seq<SpotifyTrack>)
    ensures response.Err? ==> r == []
    ensures response.Ok? ==> r == response.value
  {
    match response
    case Ok(items) => items
    case Err(_) => []
  }

  function Uris(tracks: seq<SpotifyTrack>): (r: seq<string>)
    ensures |r| == |tracks| && forall i :: 0 <= i < |r| ==> r[i] == tracks[i].uri
  {
    seq(|tracks|, i requires 0 <= i < |tracks| => tracks[i].uri)
  }

  /** The search query of a release: `artist:"A" album:"R"`. */
  function Query(r: ReleaseRequest): string {
    "artist:\"" + r.artistName + "\" album:\"" + r.releaseName + "\""
  }

  /** A query reads back the artist and the album it names, when neither holds a double quote. */
  lemma QueryReadsBack(r: ReleaseRequest)
    requires '"' !in r.artistName && '"' !in r.releaseName
    ensures Query(r)[..8] == "artist:\""
    ensures BeforeFirst(Query(r)[8..], '"') == r.artistName
    ensures Query(r)[8 + |r.artistName|..16 + |r.artistName|] == "\" album:"
    ensures BeforeFirst(Query(r)[17 + |r.artistName|..], '"') == r.releaseName
  {
    var a := r.artistName;
    var b := r.releaseName;
    var middle := "\" album:\"";
    var rest := middle[1..] + b + "\"";
    QuerySlices("artist:\"", a, middle, b, "\"", 8);
    assert |middle| == 9 && middle[..8] == "\" album:";
    assert a + (middle + b + "\"") == a + ['"'] + rest by {
      assert middle == ['"'] + middle[1..];
    }
    BeforeFirstOf(a, '"', rest);
    assert b + "\"" == b + ['"'] + [];
    BeforeFirstOf(b, '"', []);
  }

  /** Where the pieces of a text put together from five pieces lie in it. */
  lemma QuerySlices(p: string, a: string, m: string, b: string, e: string, k: nat)
    requires k <= |m|
    ensures var q := p + a + m + b + e;
      && q[..|p|] == p
      && q[|p|..] == a + (m + b + e)
      && q[|p| + |a|..|p| + |a| + k] == m[..k]
      && q[|p| + |a| + |m|..] == b + e
  {
    var q := p + a + m + b + e;
    assert q == p + (a + (m + b + e));
    assert q[|p| + |a|..] == m + (b + e);
  }

  /** The URIs one release contributes: the first `trackCount` of its search, or none when the await threw. */
  function Contribution(r: ReleaseRequest, l: Lookup): seq<string> {
    match l
    case Threw => []
    case Answered(response) => Uris(Take(SearchTracks(response), r.trackCount))
  }

  /** The URIs of a release are, in order, the URIs of the first tracks its search returned. */
  lemma ContributionIsPrefix(r: ReleaseRequest, response: Outcome<seq<SpotifyTrack>>)
    ensures var u := Contribution(r, Answered(response));
      var tracks := SearchTracks(response);
      && |u| <= |tracks|
      && (0 <= r.trackCount ==> |u| == if r.trackCount < |tracks| then r.trackCount else |tracks|)
      && forall i :: 0 <= i < |u| ==> u[i] == tracks[i].uri
  {
  }

  /** All URIs gathered from the releases, in release order. */
  function Accumulated(releases: seq<ReleaseRequest>, lookups: seq<Lookup>): seq<string>
    requires |lookups| == |releases|
  {
    if releases == [] then []
    else Contribution(releases[0], lookups[0]) + Accumulated(releases[1..], lookups[1..])
  }

  /** The calls of the search phase: each release's search, and the pause after an answered one. */
  function SearchCalls(releases: seq<ReleaseRequest>, lookups: seq<Lookup>): seq<Call>
    requires |lookups| == |releases|
  {
    if releases == [] then []
    else
      var n := |releases| - 1;
      SearchCalls(releases[..n], lookups[..n]) + ReleaseCalls(releases[n], lookups[n])
  }

  function ReleaseCalls(r: ReleaseRequest, l: Lookup): seq<Call> {
    [SearchCall(Query(r), r.trackCount)] + (if l.Answered? then [Pause(SearchPause)] else [])
  }

  lemma AccumulatedStep(releases: seq<ReleaseRequest>, lookups: seq<Lookup>, i: int)
    requires |lookups| == |releases| && 0 <= i < |releases|
    ensures Accumulated(releases[..i + 1], lookups[..i + 1])
         == Accumulated(releases[..i], lookups[..i]) + Contribution(releases[i], lookups[i])
    ensures SearchCalls(releases[..i + 1], lookups[..i + 1])
         == SearchCalls(releases[..i], lookups[..i]) + ReleaseCalls(releases[i], lookups[i])
  {
    assert releases[..i + 1] == releases[..i] + [releases[i]];
    assert lookups[..i + 1] == lookups[..i] + [lookups[i]];
    AccumulatedAppend(releases[..i], lookups[..i], [releases[i]], [lookups[i]]);
    assert Accumulated([releases[i]], [lookups[i]]) == Contribution(releases[i], lookups[i]) + [];
    assert releases[..i + 1][..i] == releases[..i];
    assert lookups[..i + 1][..i] == lookups[..i];
  }

  /**
   * The URIs of several releases are those of each release, one after the
   * other: nothing is dropped, merged or de-duplicated.
   */
  lemma {:induction false} AccumulatedAppend(rs1: seq<ReleaseRequest>, ls1: seq<Lookup>, rs2: seq<ReleaseRequest>, ls2: seq<Lookup>)
    requires |ls1| == |rs1| && |ls2| == |rs2|
    ensures Accumulated(rs1 + rs2, ls1 + ls2) == Accumulated(rs1, ls1) + Accumulated(rs2, ls2)
  {
    if rs1 == [] {
      assert rs1 + rs2 == rs2 && ls1 + ls2 == ls2;
    } else {
      assert (rs1 + rs2)[0] == rs1[0] && (rs1 + rs2)[1..] == rs1[1..] + rs2;
      assert (ls1 + ls2)[0] == ls1[0] && (ls1 + ls2)[1..] == ls1[1..] + ls2;
      AccumulatedAppend(rs1[1..], ls1[1..], rs2, ls2);
      var c, rest := Contribution(rs1[0], ls1[0]), Accumulated(rs1[1..], ls1[1..]);
      assert c + (rest + Accumulated(rs2, ls2)) == (c + rest) + Accumulated(rs2, ls2);
    }
  }

  /** Two releases whose searches return the same track both add its URI. */
  lemma NoDeduplication(a: ReleaseRequest, b: ReleaseRequest, t: SpotifyTrack)
    requires a.trackCount >= 1 && b.trackCount >= 1
    ensures Accumulated([a, b], [Answered(Ok([t])), Answered(Ok([t]))]) == [t.uri, t.uri]
  {
    var l := Answered(Ok([t]));
    assert Take([t], a.trackCount) == [t] && Take([t], b.trackCount) == [t];
    assert Uris([t]) == [t.uri];
    assert Contribution(a, l) == [t.uri] && Contribution(b, l) == [t.uri];
    assert [a, b][1..] == [b] && [l, l][1..] == [l];
    assert [b][1..] == [] && [l][1..] == [];
    assert Accumulated([b], [l]) == [t.uri] + [];
  }

  // ---------------------------------------------------------------------------
  // Batches

  function Min(a: int, b: int): int {
    if a < b then a else b
  }

  /** The batches of `uris` from position `i` on: consecutive slices of `BatchSize`, the last one possibly shorter. */
  function BatchesFrom(uris: seq<string>, i: nat): seq<seq<string>>
    decreases |uris| - i
  {
    if i >= |uris| then [] else [uris[i..Min(i + BatchSize, |uris|)]] + BatchesFrom(uris, i + BatchSize)
  }

  function Batches(uris: seq<string>): seq<seq<string>> {
    BatchesFrom(uris, 0)
  }

  /** The batches put back together are the URIs, each batch holds 1 to 100 of them, and there are ceil(n/100). */
  lemma {:induction false} BatchesFromSpec(uris: seq<string>, i: nat)
    requires i <= |uris|
    ensures Flatten(BatchesFrom(uris, i)) == uris[i..]
    ensures forall k :: 0 <= k < |BatchesFrom(uris, i)| ==> 1 <= |BatchesFrom(uris, i)[k]| <= BatchSize
    ensures |BatchesFrom(uris, i)| == (|uris| - i + BatchSize - 1) / BatchSize
    decreases |uris| - i
  {
    if i < |uris| {
      var j := Min(i + BatchSize, |uris|);
      var rest := BatchesFrom(uris, i + BatchSize);
      if i + BatchSize <= |uris| {
        BatchesFromSpec(uris, i + BatchSize);
        assert uris[i..] == uris[i..j] + uris[i + BatchSize..];
      } else {
        assert rest == [];
        assert uris[i..j] == uris[i..];
      }
      var b := BatchesFrom(uris, i);
      assert b == [uris[i..j]] + rest;
      assert b[1..] == rest;
      forall k | 0 <= k < |b|
        ensures 1 <= |b[k]| <= BatchSize
      {
        if k > 0 {
          assert b[k] == rest[k - 1];
        }
      }
    }
  }

  lemma BatchesSpec(uris: seq<string>)
    ensures Flatten(Batches(uris)) == uris
    ensures forall k :: 0 <= k < |Batches(uris)| ==> 1 <= |Batches(uris)[k]| <= BatchSize
    ensures |Batches(uris)| == (|uris| + BatchSize - 1) / BatchSize
    ensures uris == [] <==> Batches(uris) == []
  {
    BatchesFromSpec(uris, 0);
    assert uris[0..] == uris;
  }

  /** The add-tracks calls from position `i` on, each but the last followed by the pause. */
  function BatchCallsFrom(playlistId: string, uris: seq<string>, i: nat): seq<Call>
    decreases |uris| - i
  {
    if i >= |uris| then []
    else
      [AddCall(playlistId, uris[i..Min(i + BatchSize, |uris|)])]
      + (if i + BatchSize < |uris| then [Pause(BatchPause)] else [])
      + BatchCallsFrom(playlistId, uris, i + BatchSize)
  }

  /** One add-tracks call per batch, with a pause between two of them and none after the last. */
  function Separated(playlistId: string, batches: seq<seq<string>>): (r: seq<Call>)
    ensures batches == [] ==> r == []
    ensures batches != [] ==> |r| == 2 * |batches| - 1
  {
    if batches == [] then []
    else if |batches| == 1 then [AddCall(playlistId, batches[0])]
    else [AddCall(playlistId, batches[0]), Pause(BatchPause)] + Separated(playlistId, batches[1..])
  }

  /** In the add phase, even positions send the batches in order and odd positions pause. */
  lemma {:induction false} SeparatedShape(playlistId: string, batches: seq<seq<string>>)
    ensures forall j :: 0 <= j < |Separated(playlistId, batches)| ==>
      Separated(playlistId, batches)[j] == if j % 2 == 0 then AddCall(playlistId, batches[j / 2]) else Pause(BatchPause)
  {
    if |batches| > 1 {
      var r := Separated(playlistId, batches);
      var rest := Separated(playlistId, batches[1..]);
      SeparatedShape(playlistId, batches[1..]);
      forall j | 2 <= j < |r|
        ensures r[j] == if j % 2 == 0 then AddCall(playlistId, batches[j / 2]) else Pause(BatchPause)
      {
        assert r[j] == rest[j - 2];
        assert batches[1..][(j - 2) / 2] == batches[j / 2];
      }
    }
  }

  lemma {:induction false} BatchCallsSeparated(playlistId: string, uris: seq<string>, i: nat)
    ensures BatchCallsFrom(playlistId, uris, i) == Separated(playlistId, BatchesFrom(uris, i))
    decreases |uris| - i
  {
    if i < |uris| {
      BatchCallsSeparated(playlistId, uris, i + BatchSize);
      var b := BatchesFrom(uris, i);
      assert b[1..] == BatchesFrom(uris, i + BatchSize);
    }
  }

  /** The add-tracks calls of one batch and, unless it is the last, the pause after it. */
  lemma BatchCallsStep(playlistId: string, uris: seq<string>, k: nat)
    requires k < |uris|
    ensures BatchCallsFrom(playlistId, uris, k) ==
      [AddCall(playlistId, uris[k..Min(k + BatchSize, |uris|)])]
      + (if k + BatchSize < |uris| then [Pause(BatchPause)] else [])
      + BatchCallsFrom(playlistId, uris, k + BatchSize)
  {
  }

  /** The second loop of `populatePlaylistFromReleases`: batches of 100 URIs, a pause between two of them. */
  method AddInBatches(playlistId: string, uris: seq<string>) returns (calls: seq<Call>)
    ensures calls == BatchCallsFrom(playlistId, uris, 0)
  {
    calls := [];
    var k := 0;
    while k < |uris|
      invariant calls + BatchCallsFrom(playlistId, uris, k) == BatchCallsFrom(playlistId, uris, 0)
    {
      BatchCallsStep(playlistId, uris, k);
      var batch := uris[k..Min(k + BatchSize, |uris|)];
      ghost var pause: seq<Call> := if k + BatchSize < |uris| then [Pause(BatchPause)] else [];
      ghost var rest := BatchCallsFrom(playlistId, uris, k + BatchSize);
      ghost var before := calls;
      calls := calls + [AddCall(playlistId, batch)];
      if k + BatchSize < |uris| {
        calls := calls + [Pause(BatchPause)];
      }
      assert calls == before + ([AddCall(playlistId, batch)] + pause);
      assert calls + rest == before + ([AddCall(playlistId, batch)] + pause + rest);
      k := k + BatchSize;
    }
  }

  /**
   * `populatePlaylistFromReleases`: one search per release, gathering up to
   * `trackCount` URIs from each answered search, then the gathered URIs in
   * batches of 100 with a pause between two batches. The answers of the
   * add-tracks calls are not looked at.
   */
  method PopulatePlaylistFromReleases(playlistId: string, releases: seq<ReleaseRequest>, lookups: seq<Lookup>)
    returns (uris: seq<string>, calls: seq<Call>)
    requires |lookups| == |releases|
    ensures uris == Accumulated(releases, lookups)
    ensures calls == SearchCalls(releases, lookups) + Separated(playlistId, Batches(uris))
  {
    uris := [];
    calls := [];
    var i := 0;
    while i < |releases|
      invariant 0 <= i <= |releases|
      invariant uris == Accumulated(releases[..i], lookups[..i])
      invariant calls == SearchCalls(releases[..i], lookups[..i])
    {
      AccumulatedStep(releases, lookups, i);
      var release := releases[i];
      calls := calls + [SearchCall(Query(release), release.trackCount)];
      match lookups[i] {
        case Threw =>
        case Answered(response) =>
          var tracks := SearchTracks(response);
          uris := uris + Uris(Take(tracks, release.trackCount));
          calls := calls + [Pause(SearchPause)];
      }
      i := i + 1;
    }
    assert releases[..i] == releases && lookups[..i] == lookups;
    if |uris| > 0 {
      var added := AddInBatches(playlistId, uris);
      calls := calls + added;
    } else {
      assert BatchCallsFrom(playlistId, uris, 0) == [];
    }
    BatchCallsSeparated(playlistId, uris, 0);
  }

  // ---------------------------------------------------------------------------
  // Playlist naming

  function PlaylistName(labelName: string): string {
    labelName + " - Label Playlist"
  }

  function PlaylistDescription(labelName: string): string {
    "Curated playlist from " + labelName + " releases"
  }

  // ---------------------------------------------------------------------------
  // The service's state

  class Service {
    var isAuthenticated: bool
    var currentUser: Option<User>
    var accessToken: Option<string>
    var config: AuthConfig

    /** The service starts from the token stored by an earlier session, if any, and the environment's credentials. */
    constructor (storedToken: Option<string>, environment: AuthConfig)
      ensures Truthy(storedToken) ==> accessToken == storedToken && isAuthenticated
      ensures !Truthy(storedToken) ==> accessToken == None && !isAuthenticated
      ensures currentUser == None && config == environment
    {
      config := environment;
      currentUser := None;
      if Truthy(storedToken) {
        accessToken := storedToken;
        isAuthenticated := true;
      } else {
        accessToken := None;
        isAuthenticated := false;
      }
    }

    /** `configure`: the supplied fields replace the current ones, the others stay. */
    method Configure(update: ConfigUpdate)
      modifies this
      ensures config == Merge(old(config), update)
      ensures isAuthenticated == old(isAuthenticated) && currentUser == old(currentUser) && accessToken == old(accessToken)
    {
      config := Merge(config, update);
    }

    /** `signOut`: token, user and flag are cleared; the credentials stay. */
    method SignOut()
      modifies this
      ensures accessToken == None && currentUser == None && !isAuthenticated
      ensures config == old(config)
    {
      accessToken := None;
      currentUser := None;
      isAuthenticated := false;
    }

    /** The profile request answered. */
    method UserLoaded(user: User)
      modifies this
      ensures currentUser == Some(user)
      ensures accessToken == old(accessToken) && isAuthenticated == old(isAuthenticated) && config == old(config)
    {
      currentUser := Some(user);
    }

    /** There is a user with a non-empty id to create the playlist for. */
    predicate HasUserId()
      reads this
    {
      currentUser.Some? && currentUser.value.id != ""
    }

    /**
     * `createPlaylist`: without a user id nothing is requested and the result
     * is `null`; otherwise one creation request is sent and its answer, or
     * `null` on an HTTP error, is the result.
     */
    method CreatePlaylist(name: string, description: string, isPublic: bool, response: Option<Playlist>)
      returns (result: Option<Playlist>, calls: seq<Call>)
      ensures !HasUserId() ==> result == None && calls == []
      ensures HasUserId() ==> result == response && calls == [CreateCall(currentUser.value.id, name, description, isPublic)]
    {
      if currentUser.None? || currentUser.value.id == "" {
        return None, [];
      }
      result := response;
      calls := [CreateCall(currentUser.value.id, name, description, isPublic)];
    }

    /**
     * `createPlaylistFromLabelReleases`: a public playlist named after the
     * label is created, and only a created playlist is populated.
     */
    method CreatePlaylistFromLabelReleases(request: CreationRequest, response: Option<Playlist>, lookups: seq<Lookup>)
      returns (result: Option<Playlist>, calls: seq<Call>)
      requires |lookups| == |request.releases|
      ensures !HasUserId() ==> result == None && calls == []
      ensures HasUserId() ==> result == response
      ensures HasUserId() && response.None? ==>
        calls == [CreateCall(currentUser.value.id, PlaylistName(request.labelName), PlaylistDescription(request.labelName), true)]
      ensures HasUserId() && response.Some? ==>
        var uris := Accumulated(request.releases, lookups);
        calls == [CreateCall(currentUser.value.id, PlaylistName(request.labelName), PlaylistDescription(request.labelName), true)]
                 + SearchCalls(request.releases, lookups) + Separated(response.value.id, Batches(uris))
    {
      var name := PlaylistName(request.labelName);
      var description := PlaylistDescription(request.labelName);
      result, calls := CreatePlaylist(name, description, true, response);
      if result.Some? {
        var uris, more := PopulatePlaylistFromReleases(result.value.id, request.releases, lookups);
        calls := calls + more;
      }
    }

    /**
     * `createPlaylistFromLabelReleases` as evidently intended: the playlist
     * takes the name chosen by the caller instead of one derived from the label.
     */
    method CreateNamedPlaylistFromLabelReleases(name: string, request: CreationRequest, response: Option<Playlist>,
                                                lookups: seq<Lookup>)
      returns (result: Option<Playlist>, calls: seq<Call>)
      requires |lookups| == |request.releases|
      ensures !HasUserId() ==> result == None && calls == []
      ensures HasUserId() ==> result == response
      ensures HasUserId() && response.None? ==>
        calls == [CreateCall(currentUser.value.id, name, PlaylistDescription(request.labelName), true)]
      ensures HasUserId() && response.Some? ==>
        var uris := Accumulated(request.releases, lookups);
        calls == [CreateCall(currentUser.value.id, name, PlaylistDescription(request.labelName), true)]
                 + SearchCalls(request.releases, lookups) + Separated(response.value.id, Batches(uris))
    {
      var description := PlaylistDescription(request.labelName);
      result, calls := CreatePlaylist(name, description, true, response);
      if result.Some? {
        var uris, more := PopulatePlaylistFromReleases(result.value.id, request.releases, lookups);
        calls := calls + more;
      }
    }
  }
}
