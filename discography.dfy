/**
 * The discography panel: a search, type, decade and genre filter over the
 * artist's release groups followed by a sort by title, date or type in
 * either direction, and the getters that feed its controls (the distinct
 * types, the decades, the top genres, the career span). `compare` stands for
 * `localeCompare`, whose collation is left abstract.
 */
module Discography {
  import opened Wrappers
  import opened Text
  import opened Sorting
  import opened Seqs
  import opened Models

  datatype SortField = ByDate | ByTitle | ByType

  datatype Direction = Asc | Desc

  /** The text of the four filter controls; an empty text leaves its filter off. */
  datatype Controls = Controls(searchTerm: string, filterByType: string, filterByDecade: string, filterByGenre: string)

  const NoFilters := Controls("", "", "", "")

  // ---------------------------------------------------------------------------
  // The four filters

  /** The search: the lower-cased term occurs in the lower-cased title or in a non-empty disambiguation. */
  predicate MatchesSearch(rg: ReleaseGroup, term: string) {
    var needle := ToLower(term);
    || Includes(ToLower(rg.title), needle)
    || (Truthy(rg.disambiguation) && Includes(ToLower(rg.disambiguation.value), needle))
  }

  predicate MatchesType(rg: ReleaseGroup, primaryType: string) {
    rg.primaryType == Some(primaryType)
  }

  /** `parseInt(date.split('-')[0])`; `None` stands for `NaN`. */
  function YearOf(date: string): Option<int> {
    ParseInt(BeforeFirst(date, '-'))
  }

  /** `` `${Math.floor(year / 10) * 10}s` ``: a `NaN` year renders as `NaNs`. */
  function DecadeLabel(year: Option<int>): string {
    match year
    case None => "NaNs"
    case Some(y) => IntToString(y / 10 * 10) + "s"
  }

  /** The decade filter: an undated group never matches. */
  predicate MatchesDecade(rg: ReleaseGroup, decade: string) {
    Truthy(rg.firstReleaseDate) && DecadeLabel(YearOf(rg.firstReleaseDate.value)) == decade
  }

  /** The genre filter: some tag carries the genre's name; a group without tags never matches. */
  predicate MatchesGenre(rg: ReleaseGroup, genre: string) {
    rg.tags.Some? && exists i :: 0 <= i < |rg.tags.value| && rg.tags.value[i].name == genre
  }

  /** A filter step: applied only when its control is non-empty, as each `if` of the source does. */
  function Step(items: seq<ReleaseGroup>, active: bool, p: ReleaseGroup -> bool): seq<ReleaseGroup> {
    if active then Filter(items, p) else items
  }

  /** The four filters one after the other, in the source's order. */
  function Filtered(items: seq<ReleaseGroup>, c: Controls): (r: seq<ReleaseGroup>)
    ensures |r| <= |items|
  {
    var searched := Step(items, c.searchTerm != "", rg => MatchesSearch(rg, c.searchTerm));
    var typed := Step(searched, c.filterByType != "", rg => MatchesType(rg, c.filterByType));
    var dated := Step(typed, c.filterByDecade != "", rg => MatchesDecade(rg, c.filterByDecade));
    Step(dated, c.filterByGenre != "", rg => MatchesGenre(rg, c.filterByGenre))
  }

  /** A group passes when every active filter keeps it. */
  predicate Passes(rg: ReleaseGroup, c: Controls) {
    && (c.searchTerm != "" ==> MatchesSearch(rg, c.searchTerm))
    && (c.filterByType != "" ==> MatchesType(rg, c.filterByType))
    && (c.filterByDecade != "" ==> MatchesDecade(rg, c.filterByDecade))
    && (c.filterByGenre != "" ==> MatchesGenre(rg, c.filterByGenre))
  }

  lemma StepCount(items: seq<ReleaseGroup>, active: bool, p: ReleaseGroup -> bool, x: ReleaseGroup)
    ensures multiset(Step(items, active, p))[x] == if !active || p(x) then multiset(items)[x] else 0
  {
    if active {
      FilterCount(items, p, x);
    }
  }

  /**
   * The filtered list keeps every copy of each group that passes all active
   * filters and nothing else.
   */
  lemma FilteredCount(items: seq<ReleaseGroup>, c: Controls, x: ReleaseGroup)
    ensures multiset(Filtered(items, c))[x] == if Passes(x, c) then multiset(items)[x] else 0
  {
    var searched := Step(items, c.searchTerm != "", rg => MatchesSearch(rg, c.searchTerm));
    var typed := Step(searched, c.filterByType != "", rg => MatchesType(rg, c.filterByType));
    var dated := Step(typed, c.filterByDecade != "", rg => MatchesDecade(rg, c.filterByDecade));
    StepCount(items, c.searchTerm != "", rg => MatchesSearch(rg, c.searchTerm), x);
    StepCount(searched, c.filterByType != "", rg => MatchesType(rg, c.filterByType), x);
    StepCount(typed, c.filterByDecade != "", rg => MatchesDecade(rg, c.filterByDecade), x);
    StepCount(dated, c.filterByGenre != "", rg => MatchesGenre(rg, c.filterByGenre), x);
  }

  /** With every control empty, all groups are kept in their order. */
  lemma {:induction false} NoFiltersKeepsAll(items: seq<ReleaseGroup>)
    ensures Filtered(items, NoFilters) == items
  {
  }

  // ---------------------------------------------------------------------------
  // Decades

  /** Two years have the same label exactly when they are in the same decade, and `NaNs` labels no year. */
  lemma DecadeLabelSame(a: int, b: int)
    ensures DecadeLabel(Some(a)) == DecadeLabel(Some(b)) <==> a / 10 == b / 10
    ensures DecadeLabel(None) != DecadeLabel(Some(a))
  {
    var sa := IntToString(a / 10 * 10);
    var sb := IntToString(b / 10 * 10);
    if sa + "s" == sb + "s" {
      assert sa == (sa + "s")[..|sa|] == (sb + "s")[..|sb|] == sb;
      ParseIntToString(a / 10 * 10, []);
      ParseIntToString(b / 10 * 10, []);
      assert sa + [] == sa && sb + [] == sb;
    }
    assert (sa + "s")[0] == sa[0];
    if a / 10 * 10 >= 0 {
      assert IsDigit(NatToString(a / 10 * 10)[0]);
    }
  }

  /**
   * A group dated `Y` or `Y-...`, with `Y` a year in decimal digits, matches
   * the decade filter exactly when the filter is `Y` rounded down to ten followed by `s`.
   */
  lemma MatchesDecadeOfYear(rg: ReleaseGroup, y: nat, tail: string, decade: string)
    requires rg.firstReleaseDate == Some(NatToString(y) + tail)
    requires tail == [] || tail[0] == '-'
    ensures MatchesDecade(rg, decade) <==> decade == NatToString(y - y % 10) + "s"
  {
    var year := NatToString(y);
    assert '-' !in year by {
      assert AllDigits(year);
    }
    if tail == [] {
      BeforeFirstAbsent(year, '-');
      assert year + tail == year;
    } else {
      BeforeFirstOf(year, '-', tail[1..]);
      assert year + tail == year + ['-'] + tail[1..];
    }
    ParseNonNegative(y, []);
    assert year + [] == year;
    assert y / 10 * 10 == y - y % 10;
  }

  // ---------------------------------------------------------------------------
  // Sorting

  /** The text a group is sorted on; a missing date or type counts as the empty text. */
  function Key(field: SortField, rg: ReleaseGroup): string {
    match field
    case ByTitle => rg.title
    case ByDate => OrElse(rg.firstReleaseDate, "")
    case ByType => OrElse(rg.primaryType, "")
  }

  /** The comparison of the chosen key. */
  function KeyOrder(field: SortField, compare: (string, string) -> int): (ReleaseGroup, ReleaseGroup) -> int {
    (a: ReleaseGroup, b: ReleaseGroup) => compare(Key(field, a), Key(field, b))
  }

  /** The comparator handed to `sort`: the key order, negated for `desc`. */
  function GroupOrder(field: SortField, dir: Direction, compare: (string, string) -> int): (ReleaseGroup, ReleaseGroup) -> int {
    if dir == Desc then Negated(KeyOrder(field, compare)) else KeyOrder(field, compare)
  }

  lemma GroupOrderConsistent(field: SortField, dir: Direction, compare: (string, string) -> int)
    requires Consistent(compare)
    ensures Consistent(GroupOrder(field, dir, compare))
  {
    var k := KeyOrder(field, compare);
    forall a, b
      ensures k(a, b) < 0 <==> k(b, a) > 0
    {
      assert compare(Key(field, a), Key(field, b)) < 0 <==> compare(Key(field, b), Key(field, a)) > 0;
    }
    forall a, b, c | k(a, b) <= 0 && k(b, c) <= 0
      ensures k(a, c) <= 0
    {
      assert compare(Key(field, a), Key(field, b)) <= 0 && compare(Key(field, b), Key(field, c)) <= 0;
    }
    if dir == Desc {
      NegatedConsistent(k);
    }
  }

  /** `applyFiltersAndSort`: nothing without data; otherwise the filtered copy of the groups, sorted. */
  function FilteredAndSorted(data: Option<DiscographyData>, c: Controls, field: SortField, dir: Direction,
                             compare: (string, string) -> int): (r: seq<ReleaseGroup>)
    ensures data.None? ==> r == []
    ensures data.Some? ==> multiset(r) == multiset(Filtered(data.value.releaseGroups, c))
  {
    match data
    case None => []
    case Some(d) => Sort(Filtered(d.releaseGroups, c), GroupOrder(field, dir, compare))
  }

  /**
   * The shown list holds each group that passes every active filter exactly
   * as often as the discography does, and no other, ordered by the chosen
   * key in the chosen direction.
   */
  lemma FilteredAndSortedSpec(d: DiscographyData, c: Controls, field: SortField, dir: Direction,
                              compare: (string, string) -> int)
    requires Consistent(compare)
    ensures var r := FilteredAndSorted(Some(d), c, field, dir, compare);
      && SortedBy(r, GroupOrder(field, dir, compare))
      && forall x :: multiset(r)[x] == if Passes(x, c) then multiset(d.releaseGroups)[x] else 0
  {
    GroupOrderConsistent(field, dir, compare);
    SortSorted(Filtered(d.releaseGroups, c), GroupOrder(field, dir, compare));
    forall x
      ensures multiset(FilteredAndSorted(Some(d), c, field, dir, compare))[x]
           == if Passes(x, c) then multiset(d.releaseGroups)[x] else 0
    {
      FilteredCount(d.releaseGroups, c, x);
    }
  }

  /** In descending order, each shown group's key comes at or after the next one's. */
  lemma DescendingReversesKey(d: DiscographyData, c: Controls, field: SortField,
                              compare: (string, string) -> int, i: int)
    requires Consistent(compare)
    requires 0 <= i && i + 1 < |FilteredAndSorted(Some(d), c, field, Desc, compare)|
    ensures var r := FilteredAndSorted(Some(d), c, field, Desc, compare);
      KeyOrder(field, compare)(r[i], r[i + 1]) >= 0
  {
    FilteredAndSortedSpec(d, c, field, Desc, compare);
  }

  // ---------------------------------------------------------------------------
  // The getters behind the controls

  /** The primary types that are present and non-empty, in the groups' order. */
  function PresentTypes(items: seq<ReleaseGroup>): seq<string> {
    if items == [] then []
    else (if Truthy(items[0].primaryType) then [items[0].primaryType.value] else []) + PresentTypes(items[1..])
  }

  predicate HasType(items: seq<ReleaseGroup>, t: string) {
    exists i :: 0 <= i < |items| && items[i].primaryType == Some(t)
  }

  lemma {:induction false} PresentTypesMembers(items: seq<ReleaseGroup>)
    ensures forall t :: t in PresentTypes(items) <==> t != "" && HasType(items, t)
  {
    if items != [] {
      var tail := items[1..];
      PresentTypesMembers(tail);
      forall t
        ensures HasType(items, t) <==> items[0].primaryType == Some(t) || HasType(tail, t)
      {
        if HasType(items, t) {
          var i :| 0 <= i < |items| && items[i].primaryType == Some(t);
          if i > 0 {
            assert tail[i - 1].primaryType == Some(t);
          }
        }
        if HasType(tail, t) {
          var i :| 0 <= i < |tail| && tail[i].primaryType == Some(t);
          assert items[i + 1].primaryType == Some(t);
        }
      }
    }
  }

  /** `availableTypes`: the distinct present types, in the default `sort` order. */
  function AvailableTypes(data: Option<DiscographyData>): (r: seq<string>)
    ensures data.None? ==> r == []
  {
    match data
    case None => []
    case Some(d) => Sort(Dedup(PresentTypes(d.releaseGroups)), LexCompare)
  }

  /**
   * The type choices are each present type once, never the empty text, in
   * ascending code-point order.
   */
  lemma AvailableTypesSpec(d: DiscographyData)
    ensures var r := AvailableTypes(Some(d));
      && Distinct(r)
      && SortedBy(r, LexCompare)
      && (forall t :: t in r <==> t != "" && HasType(d.releaseGroups, t))
  {
    var u := Dedup(PresentTypes(d.releaseGroups));
    var r := Sort(u, LexCompare);
    LexCompareConsistent();
    SortSorted(u, LexCompare);
    SortMembers(u, LexCompare);
    PresentTypesMembers(d.releaseGroups);
    DistinctMultiset(u);
    DistinctMultiset(r);
  }

  function DecadeNames(decades: seq<DecadeStat>): (r: seq<string>)
    ensures |r| == |decades|
    ensures forall i :: 0 <= i < |r| ==> r[i] == decades[i].decade
  {
    seq(|decades|, i requires 0 <= i < |decades| => decades[i].decade)
  }

  /** `availableDecades`: the decade names, in the default `sort` order, or nothing without decade statistics. */
  function AvailableDecades(data: Option<DiscographyData>): (r: seq<string>)
    ensures data.None? || data.value.decades.None? ==> r == []
    ensures data.Some? && data.value.decades.Some? ==> multiset(r) == multiset(DecadeNames(data.value.decades.value))
  {
    if data.None? || data.value.decades.None? then []
    else Sort(DecadeNames(data.value.decades.value), LexCompare)
  }

  lemma AvailableDecadesSorted(data: Option<DiscographyData>)
    ensures SortedBy(AvailableDecades(data), LexCompare)
  {
    if data.Some? && data.value.decades.Some? {
      LexCompareConsistent();
      SortSorted(DecadeNames(data.value.decades.value), LexCompare);
    }
  }

  /** `availableGenres`: the first ten genre names, in their order. */
  function AvailableGenres(data: Option<DiscographyData>): (r: seq<string>)
    ensures data.None? || data.value.genres.None? ==> r == []
    ensures data.Some? && data.value.genres.Some? ==>
      var g := data.value.genres.value;
      && |r| == (if |g| < 10 then |g| else 10)
      && forall i :: 0 <= i < |r| ==> r[i] == g[i].name
  {
    if data.None? || data.value.genres.None? then []
    else
      var g := data.value.genres.value;
      Take(seq(|g|, i requires 0 <= i < |g| => g[i].name), 10)
  }

  /** `totalReleases`: the total the data reports, 0 without data. */
  function TotalReleases(data: Option<DiscographyData>): (n: int)
    ensures data.None? ==> n == 0
    ensures data.Some? ==> n == data.value.totalReleases
  {
    match data
    case None => 0
    case Some(d) => d.totalReleases
  }

  /** `careerSpan`: empty without a start; the start year alone when it equals the end year. */
  function CareerSpanText(data: Option<DiscographyData>): (r: string)
    ensures data.None? || data.value.careerSpan.start == "" ==> r == ""
    ensures data.Some? && data.value.careerSpan.start != "" ==>
      var start := BeforeFirst(data.value.careerSpan.start, '-');
      r == start || (|r| >= |start| + 3 && r[..|start| + 3] == start + " - ")
  {
    if data.None? || data.value.careerSpan.start == "" then ""
    else
      var span := data.value.careerSpan;
      var start := BeforeFirst(span.start, '-');
      var end := if Truthy(span.end) then BeforeFirst(span.end.value, '-') else "present";
      if start == end then start
      else
        assert (start + " - " + end)[..|start| + 3] == start + " - ";
        start + " - " + end
  }

  /** Dates of the same year `Y-...` give that year alone. */
  lemma CareerSpanSameYear(d: DiscographyData, y: string, rest1: string, rest2: string)
    requires '-' !in y
    requires d.careerSpan.start == y + "-" + rest1 && d.careerSpan.end == Some(y + "-" + rest2)
    ensures CareerSpanText(Some(d)) == y
  {
    BeforeFirstOf(y, '-', rest1);
    BeforeFirstOf(y, '-', rest2);
  }

  /** Dates of different years `Y1-...` and `Y2-...` give `Y1 - Y2`. */
  lemma CareerSpanRange(d: DiscographyData, y1: string, rest1: string, y2: string, rest2: string)
    requires '-' !in y1 && '-' !in y2 && y1 != y2
    requires d.careerSpan.start == y1 + "-" + rest1 && d.careerSpan.end == Some(y2 + "-" + rest2)
    ensures CareerSpanText(Some(d)) == y1 + " - " + y2
  {
    BeforeFirstOf(y1, '-', rest1);
    BeforeFirstOf(y2, '-', rest2);
  }

  /** A start year `Y-...` in digits and no end give `Y - present`. */
  lemma CareerSpanOngoing(d: DiscographyData, y: string, rest: string)
    requires '-' !in y && y != "" && AllDigits(y)
    requires d.careerSpan.start == y + "-" + rest && !Truthy(d.careerSpan.end)
    ensures CareerSpanText(Some(d)) == y + " - present"
  {
    BeforeFirstOf(y, '-', rest);
    assert y != "present" by {
      assert IsDigit(y[0]);
    }
  }

  // ---------------------------------------------------------------------------
  // The panel's state

  class DiscographyView {
    var discographyData: Option<DiscographyData>
    var filteredReleaseGroups: seq<ReleaseGroup>
    var searchTerm: string
    var sortBy: SortField
    var sortDirection: Direction
    var filterByType: string
    var filterByDecade: string
    var filterByGenre: string

    constructor ()
      ensures discographyData == None && filteredReleaseGroups == []
      ensures searchTerm == "" && filterByType == "" && filterByDecade == "" && filterByGenre == ""
      ensures sortBy == ByDate && sortDirection == Asc
    {
      discographyData := None;
      filteredReleaseGroups := [];
      searchTerm := "";
      sortBy := ByDate;
      sortDirection := Asc;
      filterByType := "";
      filterByDecade := "";
      filterByGenre := "";
    }

    function CurrentControls(): Controls
      reads this
    {
      Controls(searchTerm, filterByType, filterByDecade, filterByGenre)
    }

    /**
     * `applyFiltersAndSort`: the groups are copied, filtered step by step,
     * sorted, and the result replaces the shown list; the data is left as it is.
     */
    method ApplyFiltersAndSort(compare: (string, string) -> int)
      modifies this
      ensures filteredReleaseGroups == FilteredAndSorted(discographyData, CurrentControls(), sortBy, sortDirection, compare)
      ensures discographyData == old(discographyData) && CurrentControls() == old(CurrentControls())
      ensures sortBy == old(sortBy) && sortDirection == old(sortDirection)
    {
      if discographyData.None? {
        filteredReleaseGroups := [];
        return;
      }
      var term := searchTerm;
      var primaryType := filterByType;
      var decade := filterByDecade;
      var genre := filterByGenre;
      var filtered := discographyData.value.releaseGroups;
      if term != "" {
        filtered := Filter(filtered, rg => MatchesSearch(rg, term));
      }
      if primaryType != "" {
        filtered := Filter(filtered, rg => MatchesType(rg, primaryType));
      }
      if decade != "" {
        filtered := Filter(filtered, rg => MatchesDecade(rg, decade));
      }
      if genre != "" {
        filtered := Filter(filtered, rg => MatchesGenre(rg, genre));
      }
      filtered := Sort(filtered, GroupOrder(sortBy, sortDirection, compare));
      filteredReleaseGroups := filtered;
    }

    /** `ngOnChanges` for new data: the list is recomputed from it. */
    method DataChanged(data: Option<DiscographyData>, compare: (string, string) -> int)
      modifies this
      ensures discographyData == data
      ensures filteredReleaseGroups == FilteredAndSorted(data, CurrentControls(), sortBy, sortDirection, compare)
      ensures CurrentControls() == old(CurrentControls()) && sortBy == old(sortBy) && sortDirection == old(sortDirection)
    {
      discographyData := data;
      ApplyFiltersAndSort(compare);
    }

    /** `toggleSortDirection`: the direction flips and the list is recomputed. */
    method ToggleSortDirection(compare: (string, string) -> int)
      modifies this
      ensures sortDirection != old(sortDirection)
      ensures filteredReleaseGroups == FilteredAndSorted(discographyData, CurrentControls(), sortBy, sortDirection, compare)
      ensures discographyData == old(discographyData) && CurrentControls() == old(CurrentControls())
      ensures sortBy == old(sortBy)
    {
      sortDirection := if sortDirection == Asc then Desc else Asc;
      ApplyFiltersAndSort(compare);
    }
  }
}
