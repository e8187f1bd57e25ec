/**
 * The card of one release group in the discography: its display texts
 * (duration, year, types, artist credit, track artists), and expanding it,
 * which loads the details of at most three of its releases once. The
 * answers of the MusicBrainz requests are parameters.
 */
module ReleaseCard {
  import opened Wrappers
  import opened Text
  import opened Models

  /** At most this many releases of the group have their details loaded. */
  const MaxDetailedReleases := 3

  // ---------------------------------------------------------------------------
  // Display texts

  /** JavaScript's `a % b` for `b > 0`: the remainder takes the sign of `a`. */
  function JsRemainder(a: int, b: int): (r: int)
    requires b > 0
    ensures a >= 0 ==> r == a % b
    ensures -b < r < b
  {
    if a >= 0 then a % b else -((-a) % b)
  }

  /**
   * `formatDuration`: nothing for 0; otherwise whole minutes, a colon and the
   * remaining whole seconds padded to two digits.
   */
  function FormatDuration(ms: int): (s: string)
    ensures ms == 0 ==> s == ""
    ensures ms != 0 ==> ':' in s
  {
    if ms == 0 then ""
    else
      var minutes := ms / 60000;
      var seconds := JsRemainder(ms, 60000) / 1000;
      var m := IntToString(minutes);
      var r := m + ":" + PadStart2(IntToString(seconds));
      assert r[|m|] == ':';
      r
  }

  /**
   * A positive duration shows minutes `m` and two-digit seconds `s < 60`
   * that together are the duration truncated to whole seconds.
   */
  lemma FormatDurationReadsBack(ms: int)
    requires ms > 0
    ensures exists m: nat, sec: nat ::
      && sec < 60
      && FormatDuration(ms) == NatToString(m) + ":" + PadStart2(NatToString(sec))
      && |PadStart2(NatToString(sec))| == 2
      && m * 60000 + sec * 1000 <= ms < m * 60000 + sec * 1000 + 1000
  {
    var m: nat := ms / 60000;
    var sec: nat := (ms % 60000) / 1000;
    NatToStringLength(sec, 2);
    assert Pow10(2) == 100;
    assert FormatDuration(ms) == NatToString(m) + ":" + PadStart2(NatToString(sec));
    assert m * 60000 + sec * 1000 <= ms < m * 60000 + sec * 1000 + 1000;
  }

  /** A negative duration is shown with both parts negative, as the JavaScript arithmetic gives. */
  lemma FormatNegativeDuration()
    ensures FormatDuration(-1) == "-1:-1"
  {
    assert JsRemainder(-1, 60000) == -1;
    assert -1 / 60000 == -1 && -1 / 1000 == -1;
    assert NatToString(1) == "1";
    var m := IntToString(-1);
    assert m == "-1";
    assert PadStart2(m) == m;
    assert FormatDuration(-1) == m + ":" + m;
  }

  /** `releaseYear`: `Unknown` without a date, else the text before the first `-`. */
  function ReleaseYear(rg: ReleaseGroup): (y: string)
    ensures !Truthy(rg.firstReleaseDate) ==> y == "Unknown"
    ensures Truthy(rg.firstReleaseDate) ==> y <= rg.firstReleaseDate.value && '-' !in y
  {
    if !Truthy(rg.firstReleaseDate) then "Unknown" else BeforeFirst(rg.firstReleaseDate.value, '-')
  }

  /** A date `Y-...` shows the year `Y`. */
  lemma ReleaseYearOfDate(rg: ReleaseGroup, year: string, rest: string)
    requires '-' !in year
    requires rg.firstReleaseDate == Some(year + "-" + rest)
    ensures ReleaseYear(rg) == year
  {
    BeforeFirstOf(year, '-', rest);
  }

  /** `primaryType`: the primary type, `Other` when missing or empty. */
  function PrimaryTypeText(rg: ReleaseGroup): (t: string)
    ensures Truthy(rg.primaryType) ==> t == rg.primaryType.value
    ensures !Truthy(rg.primaryType) ==> t == "Other"
  {
    OrElse(rg.primaryType, "Other")
  }

  /** `secondaryTypes`: the types joined by `, `, or nothing. */
  function SecondaryTypesText(rg: ReleaseGroup): (t: string)
    ensures rg.secondaryTypes.None? ==> t == ""
  {
    match rg.secondaryTypes
    case None => ""
    case Some(types) => Join(types, ", ")
  }

  /** Each further secondary type is added after `, `, and a single type is shown alone. */
  lemma SecondaryTypesAppend(rg: ReleaseGroup, types: seq<string>, t: string)
    ensures rg.secondaryTypes == Some([t]) ==> SecondaryTypesText(rg) == t
    ensures types != [] && rg.secondaryTypes == Some(types + [t]) ==>
      SecondaryTypesText(rg) == SecondaryTypesText(rg.(secondaryTypes := Some(types))) + ", " + t
  {
    JoinAppend(types, t, ", ");
  }

  /** One credit as shown: the name followed by its join phrase, if any. */
  function CreditText(c: Credit): string {
    c.name + OrElse(c.joinphrase, "")
  }

  function CreditTexts(credits: seq<Credit>): (r: seq<string>)
    ensures |r| == |credits| && forall i :: 0 <= i < |r| ==> r[i] == CreditText(credits[i])
  {
    seq(|credits|, i requires 0 <= i < |credits| => CreditText(credits[i]))
  }

  /** `artistCredit`: every credit's text, one after the other; nothing without credits. */
  function ArtistCreditText(rg: ReleaseGroup): (t: string)
    ensures rg.artistCredit.None? || rg.artistCredit.value == [] ==> t == ""
  {
    if rg.artistCredit.None? || |rg.artistCredit.value| == 0 then ""
    else Concat(CreditTexts(rg.artistCredit.value))
  }

  /** A further credit adds its name and join phrase at the end. */
  lemma ArtistCreditAppend(rg: ReleaseGroup, credits: seq<Credit>, c: Credit)
    requires rg.artistCredit == Some(credits + [c])
    ensures ArtistCreditText(rg) == ArtistCreditText(rg.(artistCredit := Some(credits))) + c.name + OrElse(c.joinphrase, "")
  {
    assert CreditTexts(credits + [c]) == CreditTexts(credits) + [CreditText(c)];
    ConcatAppend(CreditTexts(credits), CreditText(c));
    if credits == [] {
      assert Concat(CreditTexts([])) == "";
    }
  }

  function CreditNames(credits: seq<Credit>): (r: seq<string>)
    ensures |r| == |credits| && forall i :: 0 <= i < |r| ==> r[i] == credits[i].name
  {
    seq(|credits|, i requires 0 <= i < |credits| => credits[i].name)
  }

  /** `getTrackArtists`: the recording's credited names joined by `, `, or nothing. */
  function TrackArtists(track: Track): (t: string)
    ensures track.recordingCredits.None? || track.recordingCredits.value == [] ==> t == ""
  {
    if track.recordingCredits.None? || |track.recordingCredits.value| == 0 then ""
    else Join(CreditNames(track.recordingCredits.value), ", ")
  }

  /** A further credited name is added after `, `, and a single name is shown alone. */
  lemma TrackArtistsAppend(track: Track, credits: seq<Credit>, c: Credit)
    ensures track.recordingCredits == Some([c]) ==> TrackArtists(track) == c.name
    ensures credits != [] && track.recordingCredits == Some(credits + [c]) ==>
      TrackArtists(track) == TrackArtists(track.(recordingCredits := Some(credits))) + ", " + c.name
  {
    assert CreditNames([c]) == [c.name];
    assert CreditNames(credits + [c]) == CreditNames(credits) + [c.name];
    JoinAppend(CreditNames(credits), c.name, ", ");
  }

  /** The details that arrived, in order: `filter(r => r)`. */
  function Present(details: seq<Option<DetailedRelease>>): (r: seq<DetailedRelease>)
    ensures |r| <= |details|
    ensures forall d :: d in r <==> Some(d) in details
  {
    if details == [] then []
    else
      assert details == [details[0]] + details[1..];
      (if details[0].Some? then [details[0].value] else []) + Present(details[1..])
  }

  // ---------------------------------------------------------------------------
  // The card's state

  datatype CardEvent = Expanded(id: string) | Collapsed(id: string)

  class Card {
    var releaseGroup: ReleaseGroup
    var detailedReleases: seq<DetailedRelease>
    var loadingDetails: bool
    var error: Option<string>
    /** The events emitted to the discography, in order. */
    var events: seq<CardEvent>

    constructor (rg: ReleaseGroup)
      ensures releaseGroup == rg && detailedReleases == [] && !loadingDetails && error == None && events == []
    {
      releaseGroup := rg;
      detailedReleases := [];
      loadingDetails := false;
      error := None;
      events := [];
    }

    /**
     * `toggleExpanded`: the flag flips and the matching event is emitted;
     * expanding asks for the releases unless details are already there.
     */
    method ToggleExpanded() returns (requested: bool)
      modifies this
      ensures releaseGroup == old(releaseGroup).(expanded := !old(releaseGroup).expanded)
      ensures old(releaseGroup).expanded ==> events == old(events) + [Collapsed(releaseGroup.id)] && !requested
      ensures !old(releaseGroup).expanded ==> events == old(events) + [Expanded(releaseGroup.id)]
      ensures requested <==> !old(releaseGroup).expanded && old(detailedReleases) == []
      ensures requested ==> loadingDetails && error == None
      ensures !requested ==> loadingDetails == old(loadingDetails) && error == old(error)
      ensures detailedReleases == old(detailedReleases)
    {
      if releaseGroup.expanded {
        releaseGroup := releaseGroup.(expanded := false);
        events := events + [Collapsed(releaseGroup.id)];
        requested := false;
      } else {
        releaseGroup := releaseGroup.(expanded := true);
        events := events + [Expanded(releaseGroup.id)];
        requested := LoadDetailedReleases();
      }
    }

    /** `loadDetailedReleases`, up to the request: nothing when details are already loaded. */
    method LoadDetailedReleases() returns (requested: bool)
      modifies this
      ensures requested <==> old(detailedReleases) == []
      ensures requested ==> loadingDetails && error == None
      ensures !requested ==> loadingDetails == old(loadingDetails) && error == old(error)
      ensures releaseGroup == old(releaseGroup) && detailedReleases == old(detailedReleases) && events == old(events)
    {
      if |detailedReleases| > 0 {
        return false;
      }
      loadingDetails := true;
      error := None;
      requested := true;
    }

    /**
     * The group's releases arrived (their ids), or the request failed: at
     * most the first three releases have their details asked for.
     */
    method ReleasesAnswered(answer: Outcome<seq<string>>) returns (toLoad: seq<string>)
      modifies this
      ensures |toLoad| <= MaxDetailedReleases
      ensures answer.Err? ==> toLoad == [] && error == Some("Failed to load releases for this release group") && !loadingDetails
      ensures answer.Ok? && answer.value == [] ==>
        toLoad == [] && error == Some("No releases found for this release group") && !loadingDetails
      ensures answer.Ok? && answer.value != [] ==>
        toLoad != [] && toLoad <= answer.value && (|answer.value| >= MaxDetailedReleases ==> |toLoad| == MaxDetailedReleases)
        && toLoad == (if |answer.value| <= MaxDetailedReleases then answer.value else answer.value[..MaxDetailedReleases])
        && error == old(error) && loadingDetails == old(loadingDetails)
      ensures releaseGroup == old(releaseGroup) && detailedReleases == old(detailedReleases) && events == old(events)
    {
      match answer {
        case Err(_) =>
          error := Some("Failed to load releases for this release group");
          loadingDetails := false;
          toLoad := [];
        case Ok(ids) =>
          if |ids| == 0 {
            error := Some("No releases found for this release group");
            loadingDetails := false;
            toLoad := [];
          } else {
            toLoad := if |ids| <= MaxDetailedReleases then ids else ids[..MaxDetailedReleases];
          }
      }
    }

    /** The details arrived together, or one of them failed: the arrived ones are kept, in order. */
    method DetailsAnswered(answer: Outcome<seq<Option<DetailedRelease>>>)
      modifies this
      ensures !loadingDetails
      ensures answer.Ok? ==> detailedReleases == Present(answer.value) && error == old(error)
      ensures answer.Err? ==> detailedReleases == old(detailedReleases) && error == Some("Failed to load release details")
      ensures releaseGroup == old(releaseGroup) && events == old(events)
    {
      match answer {
        case Ok(details) =>
          detailedReleases := Present(details);
        case Err(_) =>
          error := Some("Failed to load release details");
      }
      loadingDetails := false;
    }
  }
}
