/**
 * The artist roster panel of a label: filtering the roster by relationship
 * kind, sorting it by one of three keys in either direction, its summary
 * counts, the period text of an entry, and its CSV export. `compare` stands
 * for `localeCompare`, whose collation is left abstract.
 */
module ArtistRoster {
  import opened Wrappers
  import opened Text
  import opened Sorting
  import opened Models

  datatype SortField = ByName | ByPeriod | ByReleases

  datatype Direction = Asc | Desc

  /** `'all'`, or one relationship kind. */
  datatype RosterFilter = All | Only(relation: RosterRelation)

  // ---------------------------------------------------------------------------
  // Filtering and sorting

  predicate Matches(e: RosterEntry, filter: RosterFilter) {
    filter.All? || e.relationshipType == Some(filter.relation)
  }

  /** The filter step of `filteredAndSortedRoster`. */
  function FilterRoster(roster: seq<RosterEntry>, filter: RosterFilter): (r: seq<RosterEntry>)
    ensures filter.All? ==> r == roster
    ensures |r| <= |roster|
  {
    if roster == [] then []
    else (if Matches(roster[0], filter) then [roster[0]] else []) + FilterRoster(roster[1..], filter)
  }

  /** With a relationship kind selected, exactly the entries of that kind remain. */
  lemma {:induction false} FilterRosterMembers(roster: seq<RosterEntry>, filter: RosterFilter)
    ensures forall e :: e in FilterRoster(roster, filter) <==> e in roster && Matches(e, filter)
  {
    if roster != [] {
      FilterRosterMembers(roster[1..], filter);
      assert roster == [roster[0]] + roster[1..];
    }
  }

  /** The period key: the begin date, or `'9999'` when there is none. */
  function PeriodKey(e: RosterEntry): string {
    OrElse(e.period.begin, "9999")
  }

  /** The comparison of the chosen key, before the direction is applied. */
  function KeyOrder(field: SortField, compare: (string, string) -> int): (RosterEntry, RosterEntry) -> int {
    match field
    case ByName => (a: RosterEntry, b: RosterEntry) => compare(a.artist.name, b.artist.name)
    case ByPeriod => (a: RosterEntry, b: RosterEntry) => compare(PeriodKey(a), PeriodKey(b))
    case ByReleases => (a: RosterEntry, b: RosterEntry) => a.releaseCount - b.releaseCount
  }

  /** The comparator handed to `sort`: the key order, negated for `desc`. */
  function EntryOrder(field: SortField, dir: Direction, compare: (string, string) -> int): (RosterEntry, RosterEntry) -> int {
    if dir == Desc then Negated(KeyOrder(field, compare)) else KeyOrder(field, compare)
  }

  lemma KeyOrderConsistent(field: SortField, compare: (string, string) -> int)
    requires Consistent(compare)
    ensures Consistent(KeyOrder(field, compare))
  {
    var cmp := KeyOrder(field, compare);
    match field
    case ByName =>
      forall a, b
        ensures cmp(a, b) < 0 <==> cmp(b, a) > 0
      {
        assert compare(a.artist.name, b.artist.name) < 0 <==> compare(b.artist.name, a.artist.name) > 0;
      }
      forall a, b, c | cmp(a, b) <= 0 && cmp(b, c) <= 0
        ensures cmp(a, c) <= 0
      {
        assert compare(a.artist.name, b.artist.name) <= 0 && compare(b.artist.name, c.artist.name) <= 0;
      }
    case ByPeriod =>
      forall a, b
        ensures cmp(a, b) < 0 <==> cmp(b, a) > 0
      {
        assert compare(PeriodKey(a), PeriodKey(b)) < 0 <==> compare(PeriodKey(b), PeriodKey(a)) > 0;
      }
      forall a, b, c | cmp(a, b) <= 0 && cmp(b, c) <= 0
        ensures cmp(a, c) <= 0
      {
        assert compare(PeriodKey(a), PeriodKey(b)) <= 0 && compare(PeriodKey(b), PeriodKey(c)) <= 0;
      }
    case ByReleases =>
  }

  lemma EntryOrderConsistent(field: SortField, dir: Direction, compare: (string, string) -> int)
    requires Consistent(compare)
    ensures Consistent(EntryOrder(field, dir, compare))
  {
    KeyOrderConsistent(field, compare);
    if dir == Desc {
      NegatedConsistent(KeyOrder(field, compare));
    }
  }

  /** `filteredAndSortedRoster`: the filtered entries, sorted on a copy. */
  function FilteredAndSortedRoster(roster: seq<RosterEntry>, filter: RosterFilter, field: SortField,
                                   dir: Direction, compare: (string, string) -> int): (r: seq<RosterEntry>)
    ensures multiset(r) == multiset(FilterRoster(roster, filter))
  {
    Sort(FilterRoster(roster, filter), EntryOrder(field, dir, compare))
  }

  /**
   * The shown roster holds exactly the matching entries, each as often as in
   * the roster, and is ordered by the chosen key in the chosen direction.
   */
  lemma FilteredAndSortedRosterSpec(roster: seq<RosterEntry>, filter: RosterFilter, field: SortField,
                                    dir: Direction, compare: (string, string) -> int)
    requires Consistent(compare)
    ensures SortedBy(FilteredAndSortedRoster(roster, filter, field, dir, compare), EntryOrder(field, dir, compare))
    ensures forall e :: e in FilteredAndSortedRoster(roster, filter, field, dir, compare) <==> e in roster && Matches(e, filter)
  {
    var cmp := EntryOrder(field, dir, compare);
    EntryOrderConsistent(field, dir, compare);
    SortSorted(FilterRoster(roster, filter), cmp);
    SortMembers(FilterRoster(roster, filter), cmp);
    FilterRosterMembers(roster, filter);
  }

  /** In descending order, each entry's key comes at or after the next one's. */
  lemma DescendingReversesKey(roster: seq<RosterEntry>, filter: RosterFilter, field: SortField,
                              compare: (string, string) -> int, i: int)
    requires Consistent(compare)
    requires 0 <= i && i + 1 < |FilteredAndSortedRoster(roster, filter, field, Desc, compare)|
    ensures var r := FilteredAndSortedRoster(roster, filter, field, Desc, compare);
      KeyOrder(field, compare)(r[i], r[i + 1]) >= 0
  {
    FilteredAndSortedRosterSpec(roster, filter, field, Desc, compare);
  }

  // ---------------------------------------------------------------------------
  // Summary counts

  datatype RosterStats = RosterStats(total: int, current: int, former: int, totalReleases: int)

  function CountOf(roster: seq<RosterEntry>, relation: Option<RosterRelation>): (k: nat)
    ensures k <= |roster|
  {
    if roster == [] then 0
    else (if roster[0].relationshipType == relation then 1 else 0) + CountOf(roster[1..], relation)
  }

  function SumReleases(roster: seq<RosterEntry>): int {
    if roster == [] then 0 else roster[0].releaseCount + SumReleases(roster[1..])
  }

  /** `rosterStats`. */
  function Stats(roster: seq<RosterEntry>): (s: RosterStats)
    ensures s.current + s.former <= s.total == |roster|
  {
    CountsPartition(roster);
    RosterStats(|roster|, CountOf(roster, Some(Current)), CountOf(roster, Some(Former)), SumReleases(roster))
  }

  /** Every entry has one of the three kinds or none, so the four counts add up to the total. */
  lemma {:induction false} CountsPartition(roster: seq<RosterEntry>)
    ensures CountOf(roster, Some(Current)) + CountOf(roster, Some(Former))
          + CountOf(roster, Some(Distributed)) + CountOf(roster, None) == |roster|
  {
    if roster != [] {
      CountsPartition(roster[1..]);
      match roster[0].relationshipType
      case None =>
      case Some(Current) =>
      case Some(Former) =>
      case Some(Distributed) =>
    }
  }

  /** The `current` and `former` counts are the lengths of the roster filtered to that kind. */
  lemma {:induction false} CountIsFilteredLength(roster: seq<RosterEntry>, relation: RosterRelation)
    ensures CountOf(roster, Some(relation)) == |FilterRoster(roster, Only(relation))|
  {
    if roster != [] {
      CountIsFilteredLength(roster[1..], relation);
    }
  }

  /** Adding an entry adds its release count to the total. */
  lemma {:induction false} SumReleasesAppend(roster: seq<RosterEntry>, e: RosterEntry)
    ensures SumReleases(roster + [e]) == SumReleases(roster) + e.releaseCount
  {
    if roster != [] {
      assert (roster + [e])[1..] == roster[1..] + [e];
      SumReleasesAppend(roster[1..], e);
    }
  }

  // ---------------------------------------------------------------------------
  // Sort controls

  /** The sort state after clicking a column: the same field flips the direction, another resets to ascending. */
  function NextSort(field: SortField, dir: Direction, clicked: SortField): (r: (SortField, Direction))
    ensures r.0 == clicked
    ensures field == clicked ==> r.1 != dir
    ensures field != clicked ==> r.1 == Asc
  {
    if field == clicked then (field, if dir == Asc then Desc else Asc) else (clicked, Asc)
  }

  /** Clicking the same column twice restores the direction. */
  lemma NextSortTwice(field: SortField, dir: Direction, clicked: SortField)
    ensures var s := NextSort(field, dir, clicked);
      NextSort(s.0, s.1, clicked) == if field == clicked then (field, dir) else (clicked, Desc)
  {
  }

  // ---------------------------------------------------------------------------
  // Period text

  /** `formatYear`: the text before the first `-`. */
  function FormatYear(date: string): (y: string)
    ensures y <= date && '-' !in y
  {
    BeforeFirst(date, '-')
  }

  /** The year of a `YYYY-MM-DD` style date is the part before the dash. */
  lemma FormatYearOfDate(year: string, rest: string)
    requires '-' !in year
    ensures FormatYear(year + "-" + rest) == year
  {
    BeforeFirstOf(year, '-', rest);
  }

  /** `formatPeriod`. */
  function FormatPeriod(e: RosterEntry): (s: string)
    ensures Truthy(e.period.begin) && Truthy(e.period.end) ==>
      s == FormatYear(e.period.begin.value) + " - " + FormatYear(e.period.end.value)
    ensures Truthy(e.period.begin) && !Truthy(e.period.end) ==> s == FormatYear(e.period.begin.value) + " - present"
    ensures !Truthy(e.period.begin) && Truthy(e.period.end) ==> s == "Until " + FormatYear(e.period.end.value)
    ensures !Truthy(e.period.begin) && !Truthy(e.period.end) ==> s == "Unknown period"
  {
    var begin := e.period.begin;
    var end := e.period.end;
    if Truthy(begin) && Truthy(end) then FormatYear(begin.value) + " - " + FormatYear(end.value)
    else if Truthy(begin) then FormatYear(begin.value) + " - present"
    else if Truthy(end) then "Until " + FormatYear(end.value)
    else "Unknown period"
  }

  // ---------------------------------------------------------------------------
  // CSV export

  const RosterCsvHeader := "Label,Artist Name,Artist Type,Country,Relationship Type,Period Start,Period End,Release Count\n"

  /** `name.replace(/"/g, '""')`: every double quote doubled. */
  function EscapeQuotes(s: string): (r: string)
    ensures |r| >= |s|
  {
    if s == [] then []
    else (if s[0] == '"' then "\"\"" else [s[0]]) + EscapeQuotes(s[1..])
  }

  /** Reading a quoted CSV field back: a doubled quote stands for one quote. */
  function UnescapeQuotes(s: string): string
    decreases |s|
  {
    if s == [] then []
    else if |s| >= 2 && s[0] == '"' && s[1] == '"' then "\"" + UnescapeQuotes(s[2..])
    else [s[0]] + UnescapeQuotes(s[1..])
  }

  /** The escaped name reads back as the original name. */
  lemma {:induction false} UnescapeEscape(s: string)
    ensures UnescapeQuotes(EscapeQuotes(s)) == s
  {
    if s != [] {
      var e := EscapeQuotes(s);
      UnescapeEscape(s[1..]);
      if s[0] == '"' {
        assert e == "\"\"" + EscapeQuotes(s[1..]);
        assert e[2..] == EscapeQuotes(s[1..]);
      } else {
        assert e == [s[0]] + EscapeQuotes(s[1..]);
        assert e[1..] == EscapeQuotes(s[1..]);
      }
      assert s == [s[0]] + s[1..];
    }
  }

  /** The relationship column: the kind's name, or `Unknown`. */
  function RelationText(r: Option<RosterRelation>): string {
    match r
    case None => "Unknown"
    case Some(Current) => "current"
    case Some(Former) => "former"
    case Some(Distributed) => "distributed"
  }

  /** `getRelationshipBadgeClass`: the kind's name after `badge-`, and `badge-unknown` without a kind. */
  function BadgeClass(r: Option<RosterRelation>): (c: string)
    ensures r.None? ==> c == "badge-unknown"
    ensures r.Some? ==> c == "badge-" + RelationText(r)
  {
    match r
    case None => "badge-unknown"
    case Some(Current) => "badge-current"
    case Some(Former) => "badge-former"
    case Some(Distributed) => "badge-distributed"
  }

  /** Each kind, and the missing kind, has a badge class of its own. */
  lemma BadgeClassInjective(a: Option<RosterRelation>, b: Option<RosterRelation>)
    ensures BadgeClass(a) == BadgeClass(b) ==> a == b
  {
  }

  /** The artist types with their own icon, lower-cased, and those icons in the same order. */
  const ArtistTypes: seq<string> := ["person", "group", "orchestra", "choir", "character"]
  const ArtistIcons: seq<string> := ["\U{1F464}", "\U{1F465}", "\U{1F3BC}", "\U{1F3B5}", "\U{1F3AD}"]
  /** The icon of a missing or unknown artist type. */
  const DefaultArtistIcon: string := "\U{1F3A4}"

  function ArtistIconOfLowered(t: string): string {
    if t == ArtistTypes[0] then ArtistIcons[0]
    else if t == ArtistTypes[1] then ArtistIcons[1]
    else if t == ArtistTypes[2] then ArtistIcons[2]
    else if t == ArtistTypes[3] then ArtistIcons[3]
    else if t == ArtistTypes[4] then ArtistIcons[4]
    else DefaultArtistIcon
  }

  /** `getArtistTypeIcon`: chosen by the lower-cased artist type, the default for a missing or unknown one. */
  function ArtistTypeIcon(artist: Artist): (icon: string)
    ensures artist.artistType.None? ==> icon == DefaultArtistIcon
    ensures artist.artistType.Some? ==> (icon == DefaultArtistIcon <==> ToLower(artist.artistType.value) !in ArtistTypes)
  {
    match artist.artistType
    case None => DefaultArtistIcon
    case Some(t) => ArtistIconOfLowered(ToLower(t))
  }

  /** A type that lower-cases to the `i`-th known type shows the `i`-th icon. */
  lemma ArtistTypeIconOfKnown(artist: Artist, i: nat)
    requires i < |ArtistTypes|
    requires artist.artistType.Some? && ToLower(artist.artistType.value) == ArtistTypes[i]
    ensures ArtistTypeIcon(artist) == ArtistIcons[i]
  {
  }

  /** The icon does not depend on letter case. */
  lemma ArtistTypeIconIgnoresCase(artist: Artist)
    requires artist.artistType.Some?
    ensures ArtistTypeIcon(artist) == ArtistTypeIcon(artist.(artistType := Some(ToLower(artist.artistType.value))))
  {
    ToLowerIdempotent(artist.artistType.value);
  }

  /** The CSV line of one entry. */
  function RosterCsvRow(labelName: string, e: RosterEntry): string {
    "\"" + labelName + "\",\"" + EscapeQuotes(e.artist.name) + "\",\"" + OrElse(e.artist.artistType, "Unknown")
    + "\",\"" + OrElse(e.artist.country, "Unknown") + "\",\"" + RelationText(e.relationshipType)
    + "\",\"" + OrElse(e.period.begin, "") + "\",\"" + OrElse(e.period.end, "") + "\","
    + IntToString(e.releaseCount) + "\n"
  }

  /** The lines of the given entries, in order. */
  function RosterCsvLines(labelName: string, roster: seq<RosterEntry>): string {
    if roster == [] then ""
    else RosterCsvLines(labelName, roster[..|roster| - 1]) + RosterCsvRow(labelName, roster[|roster| - 1])
  }

  /** `convertRosterToCsv`: the header and one line per entry, in the roster's order. */
  method ConvertRosterToCsv(roster: seq<RosterEntry>, labelName: string) returns (csv: string)
    ensures csv == RosterCsvHeader + RosterCsvLines(labelName, roster)
  {
    csv := RosterCsvHeader;
    var i := 0;
    while i < |roster|
      invariant 0 <= i <= |roster|
      invariant csv == RosterCsvHeader + RosterCsvLines(labelName, roster[..i])
    {
      RosterCsvLinesStep(labelName, roster, i);
      AppendAssoc(RosterCsvHeader, RosterCsvLines(labelName, roster[..i]), RosterCsvRow(labelName, roster[i]));
      csv := csv + RosterCsvRow(labelName, roster[i]);
      i := i + 1;
    }
    assert roster[..i] == roster;
  }

  lemma RosterCsvLinesStep(labelName: string, roster: seq<RosterEntry>, i: int)
    requires 0 <= i < |roster|
    ensures RosterCsvLines(labelName, roster[..i + 1])
         == RosterCsvLines(labelName, roster[..i]) + RosterCsvRow(labelName, roster[i])
  {
    assert roster[..i + 1][..i] == roster[..i];
  }

  /** The export holds one line per entry, and the lines of a longer roster extend those of a prefix. */
  lemma {:induction false} RosterCsvLinesSplit(labelName: string, a: seq<RosterEntry>, b: seq<RosterEntry>)
    ensures RosterCsvLines(labelName, a + b) == RosterCsvLines(labelName, a) + RosterCsvLines(labelName, b)
    decreases |b|
  {
    if b == [] {
      assert a + b == a;
    } else {
      var b' := b[..|b| - 1];
      var last := RosterCsvRow(labelName, b[|b| - 1]);
      assert (a + b)[..|a + b| - 1] == a + b';
      assert (a + b)[|a + b| - 1] == b[|b| - 1];
      assert RosterCsvLines(labelName, a + b) == RosterCsvLines(labelName, a + b') + last;
      RosterCsvLinesSplit(labelName, a, b');
      AppendAssoc(RosterCsvLines(labelName, a), RosterCsvLines(labelName, b'), last);
    }
  }

  // ---------------------------------------------------------------------------
  // The panel's state

  class ArtistRosterView {
    var artistRoster: seq<RosterEntry>
    var isLoading: bool
    var error: Option<string>
    var sortBy: SortField
    var sortDirection: Direction
    var filterType: RosterFilter

    constructor ()
      ensures artistRoster == [] && !isLoading && error == None
      ensures sortBy == ByName && sortDirection == Asc && filterType == All
    {
      artistRoster := [];
      isLoading := false;
      error := None;
      sortBy := ByName;
      sortDirection := Asc;
      filterType := All;
    }

    /** `hasRoster`. */
    function HasRoster(): (b: bool)
      reads this
      ensures b <==> artistRoster != []
    {
      |artistRoster| > 0
    }

    /** The shown roster; computing it leaves `artistRoster` as it is. */
    function Shown(compare: (string, string) -> int): seq<RosterEntry>
      reads this
    {
      FilteredAndSortedRoster(artistRoster, filterType, sortBy, sortDirection, compare)
    }

    method SetSortBy(field: SortField)
      modifies this
      ensures (sortBy, sortDirection) == NextSort(old(sortBy), old(sortDirection), field)
      ensures old(sortBy) == field ==> sortBy == field && sortDirection != old(sortDirection)
      ensures old(sortBy) != field ==> sortBy == field && sortDirection == Asc
      ensures artistRoster == old(artistRoster) && filterType == old(filterType)
      ensures isLoading == old(isLoading) && error == old(error)
    {
      if sortBy == field {
        sortDirection := if sortDirection == Asc then Desc else Asc;
      } else {
        sortBy := field;
        sortDirection := Asc;
      }
    }

    method SetFilter(filter: RosterFilter)
      modifies this
      ensures filterType == filter
      ensures artistRoster == old(artistRoster) && sortBy == old(sortBy) && sortDirection == old(sortDirection)
      ensures isLoading == old(isLoading) && error == old(error)
    {
      filterType := filter;
    }

    /**
     * `loadArtistRoster`, up to the request: a non-empty roster on the node is
     * used as is; otherwise loading starts and `fetch` tells the caller to request it.
     */
    method LoadArtistRoster(node: TreeNode) returns (fetch: bool)
      modifies this
      ensures node.artistRoster.Some? && |node.artistRoster.value| > 0 ==>
        !fetch && artistRoster == node.artistRoster.value && isLoading == old(isLoading) && error == old(error)
      ensures !(node.artistRoster.Some? && |node.artistRoster.value| > 0) ==>
        fetch && isLoading && error == None && artistRoster == old(artistRoster)
      ensures sortBy == old(sortBy) && sortDirection == old(sortDirection) && filterType == old(filterType)
    {
      if node.artistRoster.Some? && |node.artistRoster.value| > 0 {
        artistRoster := node.artistRoster.value;
        return false;
      }
      isLoading := true;
      error := None;
      return true;
    }

    /** The roster request answered: the roster, or the error message (with a default when empty). */
    method RosterLoaded(outcome: Outcome<seq<RosterEntry>>)
      modifies this
      ensures !isLoading
      ensures outcome.Ok? ==> artistRoster == outcome.value && error == old(error)
      ensures outcome.Err? ==>
        artistRoster == old(artistRoster) && error == Some(OrElse(Some(outcome.message), "Failed to load artist roster"))
      ensures sortBy == old(sortBy) && sortDirection == old(sortDirection) && filterType == old(filterType)
    {
      match outcome
      case Ok(roster) =>
        artistRoster := roster;
        isLoading := false;
      case Err(message) =>
        error := Some(OrElse(Some(message), "Failed to load artist roster"));
        isLoading := false;
    }
  }
}
