/**
 * The records the components work on, as values. Each is the part of the
 * corresponding interface in the application's model file that some modelled
 * operation reads or writes; an optional field is an `Option`.
 */
module Models {
  import opened Wrappers

  // ---------------------------------------------------------------------------
  // Artists and label rosters

  datatype Artist = Artist(
    id: string,
    name: string,
    artistType: Option<string>,
    country: Option<string>)

  /** Begin and end dates of an artist's association with a label, as date strings. */
  datatype Period = Period(begin: Option<string>, end: Option<string>)

  /** The three relationship kinds a roster entry may carry. */
  datatype RosterRelation = Current | Former | Distributed

  datatype RosterEntry = RosterEntry(
    artist: Artist,
    period: Period,
    releaseCount: int,
    relationshipType: Option<RosterRelation>)

  // ---------------------------------------------------------------------------
  // Labels and the family tree

  datatype Label = Label(
    id: string,
    name: string,
    labelType: Option<string>,
    country: Option<string>)

  /** A relationship to the parent label: its type (`parent`, `imprint`, ...), dates and attributes. */
  datatype Relationship = Relationship(
    relType: string,
    begin: Option<string>,
    end: Option<string>,
    attributes: Option<seq<string>>)

  /** A node of a label family tree; the root has no relationship. */
  datatype TreeNode = TreeNode(
    lbl: Label,
    relationship: Option<Relationship>,
    children: seq<TreeNode>,
    artistRoster: Option<seq<RosterEntry>>,
    expanded: Option<bool>,
    depth: int)

  /** A built family tree with the totals computed when it was built; `lastUpdated` is a timestamp. */
  datatype LabelFamilyTree = LabelFamilyTree(
    rootLabel: Label,
    tree: TreeNode,
    totalLabels: int,
    totalArtists: int,
    maxDepth: int,
    lastUpdated: int)

  datatype SearchFilters = SearchFilters(
    relationshipTypes: seq<string>,
    countries: seq<string>,
    activeOnly: bool,
    hasArtists: bool)

  // ---------------------------------------------------------------------------
  // Discography

  datatype Tag = Tag(name: string, count: int)

  /** One name of an artist credit and the phrase that joins it to the next one. */
  datatype Credit = Credit(name: string, joinphrase: Option<string>)

  /** A release group; `expanded` is the card's UI state, absent meaning collapsed. */
  datatype ReleaseGroup = ReleaseGroup(
    id: string,
    title: string,
    primaryType: Option<string>,
    secondaryTypes: Option<seq<string>>,
    firstReleaseDate: Option<string>,
    disambiguation: Option<string>,
    artistCredit: Option<seq<Credit>>,
    tags: Option<seq<Tag>>,
    expanded: bool)

  datatype CareerSpan = CareerSpan(start: string, end: Option<string>)

  datatype GenreStat = GenreStat(name: string, count: int)

  datatype DecadeStat = DecadeStat(decade: string, count: int)

  datatype Collaboration = Collaboration(
    artist: Artist,
    collaborationType: string,
    releaseCount: int,
    releases: seq<string>)

  datatype DiscographyData = DiscographyData(
    artist: Artist,
    releaseGroups: seq<ReleaseGroup>,
    totalReleases: int,
    careerSpan: CareerSpan,
    collaborations: Option<seq<Collaboration>>,
    genres: Option<seq<GenreStat>>,
    decades: Option<seq<DecadeStat>>)

  /** A track of a detailed release: only the recording's artist credit is read. */
  datatype Track = Track(title: string, recordingCredits: Option<seq<Credit>>)

  datatype DetailedRelease = DetailedRelease(id: string, title: string, tracks: seq<Track>)

  // ---------------------------------------------------------------------------
  // Releases as the playlist creator sees them

  /** A release with the primary type of its release group. */
  datatype Release = Release(
    id: string,
    title: string,
    date: Option<string>,
    groupPrimaryType: Option<string>)
}
