/**
 * The Spotify playlist creator of a label: it builds a selection of releases
 * (from the artists' releases cached by the family tree, or else from the
 * MusicBrainz answers), lets the user set how many tracks of each release to
 * take, and turns the selections with a positive count into a playlist
 * request. The answers of the services are parameters.
 */
module PlaylistCreator {
  import opened Wrappers
  import opened Text
  import opened Seqs
  import opened Models
  import SpotifyService

  /** At most this many artists are looked at. */
  const MaxArtists := 10

  /** At most this many releases are taken from each artist. */
  const MaxReleasesPerArtist := 5

  const DefaultTrackCount := 5

  const DefaultMaxTracks := 10

  const LoadFailedMessage := "Failed to load label releases. Please try again."

  const CreateFailedMessage := "Failed to create playlist. Please try again."

  datatype LabelWithReleaseCount = LabelWithReleaseCount(lbl: Option<Label>, releaseCount: int)

  /** A release as the family tree cached it: the primary type is that of its release group. */
  datatype CachedRelease = CachedRelease(id: string, title: string, date: Option<string>, primaryType: Option<string>)

  /** An artist's releases as the family tree cached them. */
  datatype CachedArtist = CachedArtist(
    artistName: string,
    releaseIds: seq<string>,
    releaseDetails: Option<seq<CachedRelease>>,
    labelName: string)

  datatype Selection = Selection(release: Release, artistName: string, trackCount: int, maxTracks: int)

  /** What awaiting one artist's releases gave: a value (possibly `undefined`), or a rejection. */
  datatype ReleasesLookup = Fetched(releases: Option<seq<Release>>) | Failed

  // ---------------------------------------------------------------------------
  // Building the selections

  predicate IsAlbumOrEP(primaryType: Option<string>) {
    primaryType == Some("Album") || primaryType == Some("EP")
  }

  /** A selection of a release with the default counts. */
  function DefaultSelection(release: Release, artistName: string): Selection {
    Selection(release, artistName, DefaultTrackCount, DefaultMaxTracks)
  }

  /** The selections of one cached artist: the first five albums or EPs of its details. */
  function CachedArtistSelections(a: CachedArtist): (r: seq<Selection>)
    ensures |r| <= MaxReleasesPerArtist
    ensures forall k :: 0 <= k < |r| ==>
      r[k].artistName == a.artistName && r[k].trackCount == DefaultTrackCount && r[k].maxTracks == DefaultMaxTracks
      && IsAlbumOrEP(r[k].release.groupPrimaryType)
  {
    if a.releaseDetails.None? || a.releaseDetails.value == [] then []
    else
      var albums := Filter(a.releaseDetails.value, (d: CachedRelease) => IsAlbumOrEP(d.primaryType));
      var taken := Take(albums, MaxReleasesPerArtist);
      FilterMembers(a.releaseDetails.value, (d: CachedRelease) => IsAlbumOrEP(d.primaryType));
      assert forall k :: 0 <= k < |taken| ==> taken[k] in albums;
      seq(|taken|, k requires 0 <= k < |taken| =>
        DefaultSelection(Release(taken[k].id, taken[k].title, taken[k].date, taken[k].primaryType), a.artistName))
  }

  /** The selections of the given cached artists, in their order. */
  function CachedSelectionsOf(artists: seq<CachedArtist>): (r: seq<Selection>)
    ensures |r| <= MaxReleasesPerArtist * |artists|
  {
    if artists == [] then []
    else
      var n := |artists| - 1;
      CachedSelectionsOf(artists[..n]) + CachedArtistSelections(artists[n])
  }

  /** The releases of one artist kept on the fallback path, each with the artist's name. */
  function ArtistReleases(artist: Artist, lookup: ReleasesLookup): (r: seq<(Release, string)>)
    ensures |r| <= MaxReleasesPerArtist
    ensures forall k :: 0 <= k < |r| ==> r[k].1 == artist.name && IsAlbumOrEP(r[k].0.groupPrimaryType)
  {
    if lookup.Failed? || lookup.releases.None? then []
    else
      var albums := Filter(lookup.releases.value, (rel: Release) => IsAlbumOrEP(rel.groupPrimaryType));
      var taken := Take(albums, MaxReleasesPerArtist);
      FilterMembers(lookup.releases.value, (rel: Release) => IsAlbumOrEP(rel.groupPrimaryType));
      assert forall k :: 0 <= k < |taken| ==> taken[k] in albums;
      seq(|taken|, k requires 0 <= k < |taken| => (taken[k], artist.name))
  }

  /** The releases of the given artists on the fallback path, in their order. */
  function FallbackReleasesOf(artists: seq<Artist>, lookup: string -> ReleasesLookup): (r: seq<(Release, string)>)
    ensures |r| <= MaxReleasesPerArtist * |artists|
  {
    if artists == [] then []
    else
      var n := |artists| - 1;
      FallbackReleasesOf(artists[..n], lookup) + ArtistReleases(artists[n], lookup(artists[n].id))
  }

  lemma CachedStep(artists: seq<CachedArtist>, i: int)
    requires 0 <= i < |artists|
    ensures CachedSelectionsOf(artists[..i + 1]) == CachedSelectionsOf(artists[..i]) + CachedArtistSelections(artists[i])
  {
    assert artists[..i + 1][..i] == artists[..i];
  }

  lemma FallbackStep(artists: seq<Artist>, lookup: string -> ReleasesLookup, i: int)
    requires 0 <= i < |artists|
    ensures FallbackReleasesOf(artists[..i + 1], lookup)
         == FallbackReleasesOf(artists[..i], lookup) + ArtistReleases(artists[i], lookup(artists[i].id))
  {
    assert artists[..i + 1][..i] == artists[..i];
  }

  /** The cached path: the selections of the first ten cached artists, pushed artist by artist. */
  method BuildCachedSelections(cached: seq<CachedArtist>) returns (selections: seq<Selection>)
    ensures selections == CachedSelectionsOf(Take(cached, MaxArtists))
    ensures |selections| <= MaxArtists * MaxReleasesPerArtist
  {
    var artists := Take(cached, MaxArtists);
    selections := [];
    var i := 0;
    while i < |artists|
      invariant 0 <= i <= |artists|
      invariant selections == CachedSelectionsOf(artists[..i])
    {
      CachedStep(artists, i);
      var a := artists[i];
      if a.releaseDetails.Some? && |a.releaseDetails.value| > 0 {
        selections := selections + CachedArtistSelections(a);
      }
      i := i + 1;
    }
    assert artists[..i] == artists;
  }

  /** The fallback path: the releases of the first ten artists, pushed artist by artist; a failed lookup adds nothing. */
  method CollectFallbackReleases(artists: seq<Artist>, lookup: string -> ReleasesLookup)
    returns (all: seq<(Release, string)>)
    ensures all == FallbackReleasesOf(Take(artists, MaxArtists), lookup)
    ensures |all| <= MaxArtists * MaxReleasesPerArtist
  {
    var first := Take(artists, MaxArtists);
    all := [];
    var i := 0;
    while i < |first|
      invariant 0 <= i <= |first|
      invariant all == FallbackReleasesOf(first[..i], lookup)
    {
      FallbackStep(first, lookup, i);
      match lookup(first[i].id) {
        case Failed =>
        case Fetched(releases) =>
          if releases.Some? {
            all := all + ArtistReleases(first[i], Fetched(releases));
          }
      }
      i := i + 1;
    }
    assert first[..i] == first;
  }

  /** The fallback selections: every collected release with the default counts. */
  function FallbackSelections(all: seq<(Release, string)>): (r: seq<Selection>)
    ensures |r| == |all|
    ensures forall k :: 0 <= k < |r| ==> r[k] == DefaultSelection(all[k].0, all[k].1)
  {
    seq(|all|, k requires 0 <= k < |all| => DefaultSelection(all[k].0, all[k].1))
  }

  /**
   * Every cached selection is an album or EP of one of the first ten cached
   * artists, with five tracks of at most ten, and an artist without details adds nothing.
   */
  lemma {:induction false} CachedSelectionsSpec(artists: seq<CachedArtist>, k: int)
    requires 0 <= k < |CachedSelectionsOf(artists)|
    ensures var s := CachedSelectionsOf(artists)[k];
      && s.trackCount == DefaultTrackCount && s.maxTracks == DefaultMaxTracks
      && IsAlbumOrEP(s.release.groupPrimaryType)
      && exists j :: 0 <= j < |artists| && artists[j].artistName == s.artistName
  {
    var n := |artists| - 1;
    var front := CachedSelectionsOf(artists[..n]);
    var last := CachedArtistSelections(artists[n]);
    var r := CachedSelectionsOf(artists);
    assert r == front + last;
    if k < |front| {
      assert r[k] == front[k];
      CachedSelectionsSpec(artists[..n], k);
      var j :| 0 <= j < n && artists[..n][j].artistName == r[k].artistName;
      assert artists[j].artistName == r[k].artistName;
    } else {
      assert r[k] == last[k - |front|];
      assert artists[n].artistName == r[k].artistName;
    }
  }

  /** An artist beyond the tenth contributes nothing: only the first ten are looked at. */
  lemma OnlyFirstTenArtists(cached: seq<CachedArtist>, extra: seq<CachedArtist>)
    requires |cached| >= MaxArtists
    ensures CachedSelectionsOf(Take(cached + extra, MaxArtists)) == CachedSelectionsOf(Take(cached, MaxArtists))
  {
    assert Take(cached + extra, MaxArtists) == Take(cached, MaxArtists);
  }

  // ---------------------------------------------------------------------------
  // Track counts

  /** `parseInt(value) || 0`: text that is not a number counts as 0. */
  function ParseCount(value: string): int {
    match ParseInt(value)
    case None => 0
    case Some(n) => n
  }

  /** `Math.max(0, Math.min(n, maxTracks))`. */
  function Clamp(n: int, maxTracks: int): (c: int)
    ensures c >= 0
    ensures 0 <= maxTracks ==> c <= maxTracks
    ensures 0 <= n <= maxTracks ==> c == n
  {
    var m := if n < maxTracks then n else maxTracks;
    if m < 0 then 0 else m
  }

  /** `updateTrackCount`: every selection of the release gets the clamped count; the others are untouched. */
  function UpdateCounts(selections: seq<Selection>, releaseId: string, value: string): (r: seq<Selection>)
    ensures |r| == |selections|
    ensures forall k :: 0 <= k < |r| && selections[k].release.id != releaseId ==> r[k] == selections[k]
    ensures forall k :: 0 <= k < |r| && selections[k].release.id == releaseId ==>
      r[k] == selections[k].(trackCount := Clamp(ParseCount(value), selections[k].maxTracks))
  {
    var n := ParseCount(value);
    seq(|selections|, k requires 0 <= k < |selections| =>
      if selections[k].release.id == releaseId
      then selections[k].(trackCount := Clamp(n, selections[k].maxTracks))
      else selections[k])
  }

  /** Every count lies between 0 and its release's maximum. */
  ghost predicate CountsInRange(selections: seq<Selection>) {
    forall k :: 0 <= k < |selections| ==> 0 <= selections[k].trackCount <= selections[k].maxTracks
  }

  /** Updating a count keeps every count in range. */
  lemma UpdateKeepsRange(selections: seq<Selection>, releaseId: string, value: string)
    requires CountsInRange(selections)
    ensures CountsInRange(UpdateCounts(selections, releaseId, value))
  {
    var r := UpdateCounts(selections, releaseId, value);
    forall k | 0 <= k < |r|
      ensures 0 <= r[k].trackCount <= r[k].maxTracks
    {
      if selections[k].release.id == releaseId {
        assert 0 <= selections[k].maxTracks;
      }
    }
  }

  /** A typed number within range is taken as is; text that is not a number sets the count to 0. */
  lemma UpdateWithNumber(selections: seq<Selection>, k: int, n: nat, value: string)
    requires 0 <= k < |selections|
    ensures n <= selections[k].maxTracks ==>
      UpdateCounts(selections, selections[k].release.id, NatToString(n))[k].trackCount == n
    ensures ParseInt(value).None? ==> UpdateCounts(selections, selections[k].release.id, value)[k].trackCount == 0
  {
    ParseNonNegative(n, []);
    assert NatToString(n) + [] == NatToString(n);
  }

  // ---------------------------------------------------------------------------
  // Totals and the request

  /** `totalSelectedTracks`: the sum of the counts. */
  function TotalTracks(selections: seq<Selection>): int {
    if selections == [] then 0 else selections[0].trackCount + TotalTracks(selections[1..])
  }

  predicate Chosen(s: Selection) {
    s.trackCount > 0
  }

  /** `selectedReleaseCount`: the selections with a positive count. */
  function SelectedCount(selections: seq<Selection>): (n: nat)
    ensures n <= |selections|
  {
    |Filter(selections, Chosen)|
  }

  /** With no negative count, the total is 0 exactly when no release is selected, and never below the count of selected releases. */
  lemma {:induction false} TotalAndSelected(selections: seq<Selection>)
    requires forall k :: 0 <= k < |selections| ==> selections[k].trackCount >= 0
    ensures TotalTracks(selections) == 0 <==> SelectedCount(selections) == 0
    ensures SelectedCount(selections) <= TotalTracks(selections)
  {
    if selections != [] {
      TotalAndSelected(selections[1..]);
    }
  }

  /** The releases of the request: the selections with a positive count, in order. */
  function RequestReleases(selections: seq<Selection>): (r: seq<SpotifyService.ReleaseRequest>)
    ensures |r| == SelectedCount(selections)
  {
    var chosen := Filter(selections, Chosen);
    seq(|chosen|, k requires 0 <= k < |chosen| =>
      SpotifyService.ReleaseRequest(chosen[k].artistName, chosen[k].release.title, chosen[k].trackCount))
  }

  function RequestedTracks(releases: seq<SpotifyService.ReleaseRequest>): int {
    if releases == [] then 0 else releases[0].trackCount + RequestedTracks(releases[1..])
  }

  /** With no negative count, the request asks for exactly the selected total of tracks. */
  lemma {:induction false} RequestKeepsTotal(selections: seq<Selection>)
    requires forall k :: 0 <= k < |selections| ==> selections[k].trackCount >= 0
    ensures RequestedTracks(RequestReleases(selections)) == TotalTracks(selections)
  {
    if selections != [] {
      var s := selections[0];
      var tail := selections[1..];
      RequestKeepsTotal(tail);
      var r := RequestReleases(selections);
      var rt := RequestReleases(tail);
      assert selections == [s] + tail;
      if Chosen(s) {
        assert Filter(selections, Chosen) == [s] + Filter(tail, Chosen);
        assert r[1..] == rt;
      } else {
        assert Filter(selections, Chosen) == Filter(tail, Chosen);
        assert r == rt;
      }
    }
  }

  /** `labelName`: the label's name, or the empty text without label data. */
  function LabelName(data: Option<LabelWithReleaseCount>): (name: string)
    ensures data.None? || data.value.lbl.None? ==> name == ""
    ensures data.Some? && data.value.lbl.Some? ==> name == data.value.lbl.value.name
  {
    if data.None? || data.value.lbl.None? then "" else data.value.lbl.value.name
  }

  // ---------------------------------------------------------------------------
  // The component's state

  class Creator {
    var labelData: Option<LabelWithReleaseCount>
    var releases: seq<Release>
    var releaseSelections: seq<Selection>
    var isLoading: bool
    var isCreating: bool
    var error: Option<string>
    var createdPlaylist: Option<SpotifyService.Playlist>
    /** The form's playlist name; the form is valid when it is not empty. */
    var playlistName: string
    /** The playlists announced to the parent. */
    var emitted: seq<SpotifyService.Playlist>

    constructor (data: Option<LabelWithReleaseCount>)
      ensures labelData == data && releases == [] && releaseSelections == []
      ensures isLoading && !isCreating && error == None && createdPlaylist == None
      ensures playlistName == "Label Playlist" && emitted == []
    {
      labelData := data;
      releases := [];
      releaseSelections := [];
      isLoading := true;
      isCreating := false;
      error := None;
      createdPlaylist := None;
      playlistName := "Label Playlist";
      emitted := [];
    }

    /**
     * `loadReleases`: with cached artists the selections come from them and no
     * request is made; otherwise the label's artists are asked for (`artists`,
     * an error standing for a rejection) and then each of the first ten
     * artists' releases (`lookup`).
     */
    method LoadReleases(cached: seq<CachedArtist>, artists: Outcome<Option<seq<Artist>>>,
                        lookup: string -> ReleasesLookup)
      modifies this
      ensures !isLoading
      ensures labelData.None? ==>
        (error == Some("Label data not available") && releaseSelections == old(releaseSelections) && releases == old(releases))
      ensures labelData.Some? && cached != [] ==>
        (error == None && releaseSelections == CachedSelectionsOf(Take(cached, MaxArtists)) && releases == old(releases))
      ensures labelData.Some? && cached == [] && labelData.value.lbl.None? ==>
        (error == Some(LoadFailedMessage) && releaseSelections == old(releaseSelections))
      ensures labelData.Some? && cached == [] && labelData.value.lbl.Some? && artists.Err? ==>
        (error == Some(LoadFailedMessage) && releaseSelections == old(releaseSelections))
      ensures (labelData.Some? && cached == [] && labelData.value.lbl.Some? && artists.Ok?
               && (artists.value.None? || artists.value.value == [])) ==>
        (error == Some("No artists found for this label") && releaseSelections == old(releaseSelections))
      ensures (labelData.Some? && cached == [] && labelData.value.lbl.Some? && artists.Ok?
               && artists.value.Some? && artists.value.value != []) ==>
        var all := FallbackReleasesOf(Take(artists.value.value, MaxArtists), lookup);
        && error == None
        && releaseSelections == FallbackSelections(all)
        && releases == seq(|all|, k requires 0 <= k < |all| => all[k].0)
      ensures |releaseSelections| <= MaxArtists * MaxReleasesPerArtist || releaseSelections == old(releaseSelections)
      ensures labelData == old(labelData) && playlistName == old(playlistName)
      ensures createdPlaylist == old(createdPlaylist) && isCreating == old(isCreating) && emitted == old(emitted)
    {
      isLoading := true;
      error := None;
      if labelData.None? {
        error := Some("Label data not available");
        isLoading := false;
        return;
      }
      if |cached| > 0 {
        var selections := BuildCachedSelections(cached);
        releaseSelections := selections;
        isLoading := false;
        return;
      }
      if labelData.value.lbl.None? || artists.Err? {
        error := Some(LoadFailedMessage);
      } else if artists.value.None? || |artists.value.value| == 0 {
        error := Some("No artists found for this label");
      } else {
        var all := CollectFallbackReleases(artists.value.value, lookup);
        releases := seq(|all|, k requires 0 <= k < |all| => all[k].0);
        releaseSelections := FallbackSelections(all);
      }
      isLoading := false;
    }

    /**
     * `ngOnInit`: with label data the releases are loaded and the form's name
     * becomes the label's playlist name; a label missing from the data makes
     * that step fail.
     */
    method Init(cached: seq<CachedArtist>, artists: Outcome<Option<seq<Artist>>>, lookup: string -> ReleasesLookup)
      modifies this
      ensures labelData.None? ==> playlistName == old(playlistName) && releaseSelections == old(releaseSelections)
      ensures labelData.Some? && labelData.value.lbl.Some? ==>
        playlistName == SpotifyService.PlaylistName(labelData.value.lbl.value.name)
      ensures labelData.Some? && labelData.value.lbl.None? ==>
        playlistName == old(playlistName) && error == Some("Failed to initialize component")
      ensures labelData == old(labelData)
    {
      if labelData.Some? {
        LoadReleases(cached, artists, lookup);
        if labelData.value.lbl.Some? {
          playlistName := labelData.value.lbl.value.name + " - Label Playlist";
        } else {
          error := Some("Failed to initialize component");
        }
      }
    }

    method UpdateTrackCount(releaseId: string, value: string)
      modifies this
      ensures releaseSelections == UpdateCounts(old(releaseSelections), releaseId, value)
      ensures labelData == old(labelData) && releases == old(releases) && playlistName == old(playlistName)
      ensures error == old(error) && createdPlaylist == old(createdPlaylist) && emitted == old(emitted)
      ensures isLoading == old(isLoading) && isCreating == old(isCreating)
    {
      releaseSelections := UpdateCounts(releaseSelections, releaseId, value);
    }

    /**
     * `createPlaylist`: nothing happens with an empty name or no tracks;
     * otherwise the request goes to the service and `answer` is what it
     * gave (an error standing for a rejection).
     */
    method CreatePlaylist(answer: Outcome<Option<SpotifyService.Playlist>>)
      returns (request: Option<SpotifyService.CreationRequest>)
      modifies this
      ensures playlistName == "" || TotalTracks(releaseSelections) == 0 ==>
        request == None && error == old(error) && createdPlaylist == old(createdPlaylist)
        && emitted == old(emitted) && isCreating == old(isCreating)
      ensures playlistName != "" && TotalTracks(releaseSelections) != 0 ==>
        && request == Some(SpotifyService.CreationRequest(LabelName(labelData), RequestReleases(releaseSelections)))
        && !isCreating
        && (answer.Ok? && answer.value.Some? ==>
              createdPlaylist == answer.value && emitted == old(emitted) + [answer.value.value] && error == old(error))
        && (answer.Err? || answer.value.None? ==>
              error == Some(CreateFailedMessage) && createdPlaylist == old(createdPlaylist) && emitted == old(emitted))
      ensures releaseSelections == old(releaseSelections) && labelData == old(labelData)
      ensures playlistName == old(playlistName) && releases == old(releases) && isLoading == old(isLoading)
    {
      if playlistName == "" || TotalTracks(releaseSelections) == 0 {
        return None;
      }
      isCreating := true;
      request := Some(SpotifyService.CreationRequest(LabelName(labelData), RequestReleases(releaseSelections)));
      if answer.Ok? && answer.value.Some? {
        createdPlaylist := answer.value;
        emitted := emitted + [answer.value.value];
      } else {
        error := Some(CreateFailedMessage);
      }
      isCreating := false;
    }
  }

  /** The name the form proposes is the name the service gives the label's playlist. */
  lemma ProposedNameIsServiceName(data: LabelWithReleaseCount)
    requires data.lbl.Some?
    ensures LabelName(Some(data)) + " - Label Playlist" == SpotifyService.PlaylistName(LabelName(Some(data)))
  {
  }

  /**
   * The name typed into the form does not reach Spotify: whatever the user
   * enters, the playlist is created under the label's default name.
   */
  method RenamedPlaylistIgnored(data: LabelWithReleaseCount, selections: seq<Selection>, typed: string,
                                user: SpotifyService.User)
    returns (formName: string, createdName: string)
    requires data.lbl.Some? && TotalTracks(selections) != 0
    requires typed != "" && user.id != ""
    ensures formName == typed
    ensures createdName == SpotifyService.PlaylistName(data.lbl.value.name)
  {
    var creator := new Creator(Some(data));
    creator.releaseSelections := selections;
    creator.playlistName := typed;
    var request := creator.CreatePlaylist(Ok(None));
    var service := new SpotifyService.Service(Some("token"), SpotifyService.AuthConfig("", "", ""));
    service.UserLoaded(user);
    var lookups := seq(|request.value.releases|, _ => SpotifyService.Threw);
    var result, calls := service.CreatePlaylistFromLabelReleases(request.value, None, lookups);
    formName := creator.playlistName;
    createdName := calls[0].name;
  }

  /** With the form's name handed to the service, the playlist is created under the name the user typed. */
  method RenamedPlaylistKept(data: LabelWithReleaseCount, selections: seq<Selection>, typed: string,
                             user: SpotifyService.User)
    returns (formName: string, createdName: string)
    requires data.lbl.Some? && TotalTracks(selections) != 0
    requires typed != "" && user.id != ""
    ensures formName == typed && createdName == formName
  {
    var creator := new Creator(Some(data));
    creator.releaseSelections := selections;
    creator.playlistName := typed;
    var request := creator.CreatePlaylist(Ok(None));
    var service := new SpotifyService.Service(Some("token"), SpotifyService.AuthConfig("", "", ""));
    service.UserLoaded(user);
    var lookups := seq(|request.value.releases|, _ => SpotifyService.Threw);
    var result, calls := service.CreateNamedPlaylistFromLabelReleases(creator.playlistName, request.value, None, lookups);
    formName := creator.playlistName;
    createdName := calls[0].name;
  }
}
