# MusicBrainz explorer and Spotify playlist creator, modelled in Dafny

The application is an Angular front end to the MusicBrainz web service. It has these parts:

- An artist search on the home page.
- An artist's discography, with filters, sorting and expandable release cards.
- A label's family tree, with relationship filters, a CSV export and an artist roster per label.
- A collaboration network per artist.
- A Spotify integration. It has an OAuth callback page, a service that keeps the session and builds playlists, and a component that picks releases and track counts for a label's playlist.

All MusicBrainz traffic goes through two services: the application's and a library copy of it. Each of them postpones every answer by one second with `delay(1000)` after it arrives, which does not space the requests themselves apart. The repository also has a rate-limiter service that runs queued requests one at a time, at least one second apart. Nothing calls it, and it is modelled on its own.

This project models the logic of those thirteen source files. Each file becomes one Dafny module:

- State that the source updates in place becomes a `class`. Its methods carry `modifies` clauses and state the whole new state.
- Pure computations become functions.
- Loops become methods, proved against the functions that specify them.
- Answers of HTTP requests, timers and user input become parameters.

Shared modules:

- `Wrappers`: `Option` and the outcome of a request.
- `Models`: the records of the MusicBrainz and Spotify answers.
- `Http`: query parameters, requests, answers, error classes.
- `Seqs`: `filter`, `slice`, `new Set`, `reduce`.
- `Sorting`: a stable sort by a three-way comparator and the default string order.
- `Text`: truthiness, decimal text, `split`, `replace`, `join`, `padStart`, ASCII case and `includes`.

Behaviour of the code worth knowing before reading the model:

- The playlist service adds every found URI, repeats included (`SpotifyService.NoDeduplication`).
- A relationship filter does not keep an excluded ancestor of a surviving node (see Findings).
- A callback without a code reports `Authentication error: No authorization code received`. The code passes the bare reason through the OAuth error lookup, which prefixes it.

## Model

| member | source | states |
|---|---|---|
| RateLimiter.Cancelled | src/app/services/rate-limiter.service.ts:76-78 | one "Request cancelled" error per pending request, in queue order |
| RateLimiter.RateLimiterService.constructor | src/app/services/rate-limiter.service.ts:13-14 | the queue starts empty and the service idle, with nothing delivered or started |
| RateLimiter.RateLimiterService.ProcessQueue | src/app/services/rate-limiter.service.ts:39-63 | on an empty queue only the flag is cleared; otherwise the head is taken (FIFO, ids increasing) as a new drain step and the flag is set; in a serial state no other step is underway |
| RateLimiter.RateLimiterService.QueueRequest | src/app/services/rate-limiter.service.ts:22-37 | the request gets the next id and goes to the tail; a drain starts only when none was running, and queueing during a drain starts no second one (serial states stay serial) |
| RateLimiter.RateLimiterService.StartExecution | src/app/services/rate-limiter.service.ts:49-51 | a drain step executes its request only once the delay has elapsed, so in a serial state two starts are at least 1000 ms apart |
| RateLimiter.RateLimiterService.Complete | src/app/services/rate-limiter.service.ts:52-62 | the result or error goes to that request's caller alone, then the drain goes on with the next pending request |
| RateLimiter.RateLimiterService.Tick | src/app/services/rate-limiter.service.ts:50 | time passes and nothing else changes |
| RateLimiter.RateLimiterService.GetQueueLength | src/app/services/rate-limiter.service.ts:68-70 | the number of pending requests, which is the requests issued minus those answered and those taken by a drain step |
| RateLimiter.RateLimiterService.ClearQueue | src/app/services/rate-limiter.service.ts:75-81 | every pending request, and no in-flight one, receives the cancellation error; the queue is empty and the flag cleared |
| RateLimiter.RateLimiterService.CancelPending | src/app/services/rate-limiter.service.ts:76-79 | the `forEach` errors each pending request in order, then the queue is emptied |
| RateLimiter.RateLimiterService.ClearQueueKeepingDrain | src/app/services/rate-limiter.service.ts:75-81 | the corrected clear: same cancellations, but the flag keeps saying whether a drain is underway, so serial states stay serial |
| RateLimiter.ClearDuringRequest | src/app/services/rate-limiter.service.ts:22-81 | as written: queue, clear while the request is in flight, queue again, and two drain steps are underway at once |
| RateLimiter.ClearDuringRequestKeepingDrain | src/app/services/rate-limiter.service.ts:22-81 | with the corrected clear the same calls leave one drain step and the new request waiting |
| FamilyTree.FilterTreeNode | src/app/components/label-family-tree/label-family-tree.component.ts:178-197 | only the children change; a node that fails the relationship test loses all its children |
| FamilyTree.FilterChildren | src/app/components/label-family-tree/label-family-tree.component.ts:188-191 | filtering the children never lengthens the list |
| FamilyTree.KeptIffIncluded | src/app/components/label-family-tree/label-family-tree.component.ts:183-191 | a filtered child stays in its parent exactly when it passes the relationship test, because an excluded child has already lost its children |
| FamilyTree.FilterChildrenSelects | src/app/components/label-family-tree/label-family-tree.component.ts:188-191 | the kept children are exactly the included ones, in their original order, each filtered in turn |
| FamilyTree.FilterTreeNodeShape | src/app/components/label-family-tree/label-family-tree.component.ts:180-196 | the root always passes; an excluded node becomes a childless copy; an included node keeps every field but its children |
| FamilyTree.ForestIncludedCons | src/app/components/label-family-tree/label-family-tree.component.ts:188-191 | every node below a list of children passes the test exactly when it holds for the first child's tree and for the rest |
| FamilyTree.FilteredTreeIncluded | src/app/components/label-family-tree/label-family-tree.component.ts:178-197 | after filtering, no node below the root has an excluded relationship type |
| FamilyTree.FilteredChildrenIncluded | src/app/components/label-family-tree/label-family-tree.component.ts:188-191 | the same, for a list of filtered children |
| FamilyTree.FilterShrinks | src/app/components/label-family-tree/label-family-tree.component.ts:178-197 | filtering never increases the node count |
| FamilyTree.FilterChildrenShrinks | src/app/components/label-family-tree/label-family-tree.component.ts:188-191 | the same, for a list of children |
| FamilyTree.FilterIdempotent | src/app/components/label-family-tree/label-family-tree.component.ts:178-197 | filtering twice with the same filters is filtering once |
| FamilyTree.FilterChildrenIdempotent | src/app/components/label-family-tree/label-family-tree.component.ts:188-191 | the same, for a list of children |
| FamilyTree.FilterKeepsIncludedTree | src/app/components/label-family-tree/label-family-tree.component.ts:178-197 | a tree whose types all pass the filter comes back unchanged |
| FamilyTree.FilterKeepsIncludedChildren | src/app/components/label-family-tree/label-family-tree.component.ts:188-191 | the same, for a list of children |
| FamilyTree.ApplyFiltersToTree | src/app/components/label-family-tree/label-family-tree.component.ts:166-176 | only the tree is replaced, by the filtered one; root label, totals, depth and timestamp are copied |
| FamilyTree.TotalsNotRecomputed | src/app/components/label-family-tree/label-family-tree.component.ts:172-175 | the copied totals are not recomputed: with one label filtered out, `totalLabels` still counts it |
| FamilyTree.RemoveAll | src/app/components/label-family-tree/label-family-tree.component.ts:147 | every occurrence of the type goes and every other type keeps its multiplicity |
| FamilyTree.ToggleType | src/app/components/label-family-tree/label-family-tree.component.ts:144-151 | a present type is removed everywhere and the other types stay in their order (the `filter` by `x !== t`); an absent one is appended at the end |
| FamilyTree.ToggleFlips | src/app/components/label-family-tree/label-family-tree.component.ts:144-151 | toggling flips whether the type is selected and changes no other type's multiplicity |
| FamilyTree.RemoveAllSingle | src/app/components/label-family-tree/label-family-tree.component.ts:147 | a single type is kept exactly when it is not the removed one |
| FamilyTree.RemoveAllSplit | src/app/components/label-family-tree/label-family-tree.component.ts:147 | removal works piece by piece over a concatenation, so the remaining types keep their relative order |
| FamilyTree.RemoveAllIsFilter | src/app/components/label-family-tree/label-family-tree.component.ts:147 | removal equals the array filter by `x !== t`: the other types, in their original order |
| FamilyTree.RemoveAllAbsent | src/app/components/label-family-tree/label-family-tree.component.ts:147 | removing an absent type leaves the list unchanged, order included |
| FamilyTree.ToggleTwice | src/app/components/label-family-tree/label-family-tree.component.ts:144-151 | toggling an unselected type on and off again restores the list exactly |
| FamilyTree.RemoveAllAppend | src/app/components/label-family-tree/label-family-tree.component.ts:147-148 | removing a type after appending it is removing it from the original list |
| FamilyTree.RelationshipColumn | src/app/components/label-family-tree/label-family-tree.component.ts:241 | `root` without a relationship; a non-empty type otherwise |
| FamilyTree.ArtistCountColumn | src/app/components/label-family-tree/label-family-tree.component.ts:240 | the roster's length, or 0 without a roster |
| FamilyTree.CsvLinesSplit | src/app/components/label-family-tree/label-family-tree.component.ts:243 | the lines of two runs of visits are the lines of each, one after the other |
| FamilyTree.ForestPreOrderAppend | src/app/components/label-family-tree/label-family-tree.component.ts:245 | visiting one more child appends that child's subtree to the visit |
| FamilyTree.ConvertTreeToCsv | src/app/components/label-family-tree/label-family-tree.component.ts:236-250 | the header, then one line per node in pre-order |
| FamilyTree.AddNodeToCsv | src/app/components/label-family-tree/label-family-tree.component.ts:239-246 | appends the node's line, then its subtree's lines, to what was there |
| FamilyTree.AddChildrenToCsv | src/app/components/label-family-tree/label-family-tree.component.ts:245 | the `forEach` appends each child's subtree, in order, with the node's name as parent |
| FamilyTree.CsvStep | src/app/components/label-family-tree/label-family-tree.component.ts:245 | each turn of the `forEach` adds exactly the next child's lines |
| FamilyTree.CsvFirstRow | src/app/components/label-family-tree/label-family-tree.component.ts:243-245 | a node's own line comes before its children's lines |
| FamilyTree.PreOrderLength | src/app/components/label-family-tree/label-family-tree.component.ts:239-248 | the export has exactly one line per node |
| FamilyTree.ForestPreOrderLength | src/app/components/label-family-tree/label-family-tree.component.ts:245 | the same, for a list of children |
| FamilyTree.PreOrderParents | src/app/components/label-family-tree/label-family-tree.component.ts:239-248 | the first line is the root with the given parent name; every later line comes after its parent's line and names that parent |
| FamilyTree.TreeParentAt | src/app/components/label-family-tree/label-family-tree.component.ts:245 | a line of a subtree keeps its parent before it once the root's line is put in front |
| FamilyTree.ForestPreOrderParents | src/app/components/label-family-tree/label-family-tree.component.ts:245 | every line of the children's visit is of a top-level child under the given parent, or follows its parent's line |
| FamilyTree.LabelFamilyTreeView.constructor | src/app/components/label-family-tree/label-family-tree.component.ts:29-49 | empty search, no remembered query, no results, no selection, no tree, nothing loading, no error, the filters hidden and the default filters (parent, subsidiary, imprint) |
| FamilyTree.LabelFamilyTreeView.FilteredTree | src/app/components/label-family-tree/label-family-tree.component.ts:52-58 | none without a loaded tree; otherwise the loaded tree with the current filters applied |
| FamilyTree.LabelFamilyTreeView.ToggleRelationshipType | src/app/components/label-family-tree/label-family-tree.component.ts:144-151 | only the selected types change, by the toggle; nothing else changes |
| FamilyTree.LabelFamilyTreeView.ClearSearch | src/app/components/label-family-tree/label-family-tree.component.ts:157-164 | text, results, selection, tree and error are cleared; the filters stay, nothing is displayed, and the last query is still remembered because the box is set without emitting |
| FamilyTree.PatchFilters | src/app/components/label-family-tree/label-family-tree.component.ts:140-142 | each field given in the update replaces the current one and every other field keeps its value |
| FamilyTree.PatchFiltersIdempotent | src/app/components/label-family-tree/label-family-tree.component.ts:140-142 | an empty update changes nothing, and applying an update twice is applying it once |
| FamilyTree.LabelFamilyTreeView.QueryReached | src/app/components/label-family-tree/label-family-tree.component.ts:64-103 | a repeat of the previous value does nothing; the empty text clears the results and ends active searching; any other text starts a search for 20 labels, clears the error and marks searching |
| FamilyTree.LabelFamilyTreeView.SearchAnswered | src/app/components/label-family-tree/label-family-tree.component.ts:91-102 | searching ends; the answer's labels are shown, or no labels and the failure's message (`Search failed` when it has none) |
| FamilyTree.LabelFamilyTreeView.SelectLabel | src/app/components/label-family-tree/label-family-tree.component.ts:106-117 | the label is selected, the results close, its name fills the box without reaching the search, and its tree is asked for to depth 3 with loading on and the error cleared |
| FamilyTree.LabelFamilyTreeView.TreeAnswered | src/app/components/label-family-tree/label-family-tree.component.ts:122-133 | loading ends; the tree is kept, or the failure's message is shown (`Failed to load family tree` when it has none) and the old tree stays |
| FamilyTree.LabelFamilyTreeView.ToggleFilters | src/app/components/label-family-tree/label-family-tree.component.ts:136-138 | the filter panel's visibility flips and nothing else changes |
| FamilyTree.LabelFamilyTreeView.UpdateFilters | src/app/components/label-family-tree/label-family-tree.component.ts:140-142 | the filters become the update of the current ones and nothing else changes |
| FamilyTree.LabelFamilyTreeView.ExportTree | src/app/components/label-family-tree/label-family-tree.component.ts:199-208 | nothing without a tree; otherwise the filtered tree for JSON, or the CSV text of the filtered tree for CSV |
| FamilyTree.LabelFamilyTreeView.ClearSearchForgettingQuery | src/app/components/label-family-tree/label-family-tree.component.ts:157-164 | the corrected clear: the same cleared state, and the empty value passed on so that the last query is forgotten |
| FamilyTree.RepeatAfterClearIgnored | src/app/components/label-family-tree/label-family-tree.component.ts:64-75 | after a search and a clear, the same query typed again is dropped as a repeat and the results stay empty |
| FamilyTree.RepeatAfterClearSearched | src/app/components/label-family-tree/label-family-tree.component.ts:64-75 | with the corrected clear, the same query typed again starts a new search |
| FamilyTree.LateAnswerWins | src/app/components/label-family-tree/label-family-tree.component.ts:82-103 | searches are not cancelled: an older query's answer arriving after a newer one's replaces the results |
| FamilyTree.IncludedDescendantDropped | src/app/components/label-family-tree/label-family-tree.component.ts:183-191 | as written: an imprint below an excluded distributor is an included label, yet the filtered root has no children |
| FamilyTree.FilterKeepingAncestors | src/app/components/label-family-tree/label-family-tree.component.ts:178-197 | the corrected filter also changes only the children |
| FamilyTree.KeepingAncestorsKeepsIncluded | src/app/components/label-family-tree/label-family-tree.component.ts:178-197 | the corrected filter loses no label that passes the relationship test |
| FamilyTree.KeepingAncestorsChildrenKeepIncluded | src/app/components/label-family-tree/label-family-tree.component.ts:188-191 | the same, for a list of children |
| FamilyTree.KeepingAncestorsPrunes | src/app/components/label-family-tree/label-family-tree.component.ts:183-191 | the corrected filter still prunes: every node it keeps below the root passes the test or has a passing node below it, so an excluded subtree with no passing node is dropped |
| FamilyTree.KeepingAncestorsChildrenPrune | src/app/components/label-family-tree/label-family-tree.component.ts:188-191 | the same for a list of children: each kept child passes or has a passing node below it, all the way down |
| FamilyTree.KeepingAncestorsKeepsBuriedImprint | src/app/components/label-family-tree/label-family-tree.component.ts:183-191 | on the same tree, the corrected filter keeps the distributor and the imprint below it |
| ArtistRoster.FilterRoster | src/app/components/label-family-tree/artist-roster/artist-roster.component.ts:36-38 | `all` keeps the whole roster; any other filter never adds entries |
| ArtistRoster.FilterRosterMembers | src/app/components/label-family-tree/artist-roster/artist-roster.component.ts:36-38 | an entry remains exactly when it is in the roster and its relationship kind equals the filter (or the filter is `all`) |
| ArtistRoster.KeyOrderConsistent | src/app/components/label-family-tree/artist-roster/artist-roster.component.ts:45-59 | the name, period (missing begin read as `9999`) and release-count comparisons are each a consistent comparator when the string comparison is |
| ArtistRoster.EntryOrderConsistent | src/app/components/label-family-tree/artist-roster/artist-roster.component.ts:61 | negating the comparison for `desc` keeps it consistent |
| ArtistRoster.FilteredAndSortedRoster | src/app/components/label-family-tree/artist-roster/artist-roster.component.ts:32-65 | the shown roster is a permutation of the filtered roster |
| ArtistRoster.FilteredAndSortedRosterSpec | src/app/components/label-family-tree/artist-roster/artist-roster.component.ts:32-65 | the shown roster is ordered by the chosen key in the chosen direction and holds exactly the matching entries |
| ArtistRoster.DescendingReversesKey | src/app/components/label-family-tree/artist-roster/artist-roster.component.ts:61 | in `desc` order each entry's key is at or after the next entry's key |
| ArtistRoster.CountOf | src/app/components/label-family-tree/artist-roster/artist-roster.component.ts:71-72 | a per-kind count never exceeds the roster's length |
| ArtistRoster.Stats | src/app/components/label-family-tree/artist-roster/artist-roster.component.ts:68-76 | `total` is the roster's length and `current + former` does not exceed it |
| ArtistRoster.CountsPartition | src/app/components/label-family-tree/artist-roster/artist-roster.component.ts:70-72 | the current, former, distributed and kind-less counts add up to the total |
| ArtistRoster.CountIsFilteredLength | src/app/components/label-family-tree/artist-roster/artist-roster.component.ts:71-72 | each count is the length of the roster filtered to that kind, as the roster filter computes it |
| ArtistRoster.SumReleasesAppend | src/app/components/label-family-tree/artist-roster/artist-roster.component.ts:73 | the `reduce` adds each entry's release count once |
| ArtistRoster.NextSort | src/app/components/label-family-tree/artist-roster/artist-roster.component.ts:110-119 | the clicked field becomes the sort field; the same field flips the direction, another resets it to ascending |
| ArtistRoster.NextSortTwice | src/app/components/label-family-tree/artist-roster/artist-roster.component.ts:110-119 | clicking the same column twice restores the direction |
| ArtistRoster.FormatYear | src/app/components/label-family-tree/artist-roster/artist-roster.component.ts:140-143 | the year is a dash-free prefix of the date |
| ArtistRoster.FormatYearOfDate | src/app/components/label-family-tree/artist-roster/artist-roster.component.ts:140-143 | the year of `Y-rest` is `Y` |
| ArtistRoster.FormatPeriod | src/app/components/label-family-tree/artist-roster/artist-roster.component.ts:125-138 | `B - E`, `B - present`, `Until E` or `Unknown period`, by which of the dates are non-empty |
| ArtistRoster.BadgeClass | src/app/components/label-family-tree/artist-roster/artist-roster.component.ts:145-156 | the badge class is the relationship kind's name after `badge-`, and `badge-unknown` without a kind |
| ArtistRoster.BadgeClassInjective | src/app/components/label-family-tree/artist-roster/artist-roster.component.ts:145-156 | each kind, and the missing kind, has a badge class of its own |
| ArtistRoster.ArtistTypeIcon | src/app/components/label-family-tree/artist-roster/artist-roster.component.ts:158-175 | the default icon exactly for a missing type or one whose lower-case form is not a known artist type |
| ArtistRoster.ArtistTypeIconOfKnown | src/app/components/label-family-tree/artist-roster/artist-roster.component.ts:161-172 | a type that lower-cases to the i-th known type shows the i-th icon |
| ArtistRoster.ArtistTypeIconIgnoresCase | src/app/components/label-family-tree/artist-roster/artist-roster.component.ts:159 | the icon does not depend on letter case |
| ArtistRoster.EscapeQuotes | src/app/components/label-family-tree/artist-roster/artist-roster.component.ts:197 | escaping never shortens the name |
| ArtistRoster.UnescapeEscape | src/app/components/label-family-tree/artist-roster/artist-roster.component.ts:197 | reading the escaped name back as a quoted CSV field gives the original name |
| ArtistRoster.ConvertRosterToCsv | src/app/components/label-family-tree/artist-roster/artist-roster.component.ts:193-209 | the header, then one line per entry in the roster's order |
| ArtistRoster.RosterCsvLinesStep | src/app/components/label-family-tree/artist-roster/artist-roster.component.ts:196-206 | each turn of the `forEach` appends exactly the next entry's line |
| ArtistRoster.RosterCsvLinesSplit | src/app/components/label-family-tree/artist-roster/artist-roster.component.ts:196-206 | the lines of two runs of entries are the lines of each, one after the other |
| ArtistRoster.ArtistRosterView.constructor | src/app/components/label-family-tree/artist-roster/artist-roster.component.ts:24-29 | empty roster, not loading, no error, sorted by name ascending, filter `all` |
| ArtistRoster.ArtistRosterView.HasRoster | src/app/components/label-family-tree/artist-roster/artist-roster.component.ts:67 | the panel has a roster exactly when the roster is non-empty |
| ArtistRoster.ArtistRosterView.SetSortBy | src/app/components/label-family-tree/artist-roster/artist-roster.component.ts:110-119 | the sort state moves as the click rule says; roster, filter and loading state are untouched |
| ArtistRoster.ArtistRosterView.SetFilter | src/app/components/label-family-tree/artist-roster/artist-roster.component.ts:121-123 | only the filter changes |
| ArtistRoster.ArtistRosterView.LoadArtistRoster | src/app/components/label-family-tree/artist-roster/artist-roster.component.ts:82-91 | a non-empty roster on the node is used as is with no request; otherwise loading starts, the error clears and a request is asked for |
| ArtistRoster.ArtistRosterView.RosterLoaded | src/app/components/label-family-tree/artist-roster/artist-roster.component.ts:93-103 | loading ends; the roster is replaced, or the error's message (default "Failed to load artist roster") is shown and the roster kept |
| Discography.Filtered | src/app/components/discography/discography.component.ts:57-88 | the four filters never add groups |
| Discography.StepCount | src/app/components/discography/discography.component.ts:60-88 | an inactive filter keeps every copy; an active one keeps every copy of a passing group and none of the others |
| Discography.FilteredCount | src/app/components/discography/discography.component.ts:57-88 | after all four filters, each group that passes every active filter is kept as often as it occurs, and no other group is |
| Discography.NoFiltersKeepsAll | src/app/components/discography/discography.component.ts:57-88 | with every control empty all groups are kept, in their order |
| Discography.DecadeLabelSame | src/app/components/discography/discography.component.ts:77-79 | two years get the same decade label exactly when they are in the same decade; the label of a `NaN` year is none of those |
| Discography.MatchesDecadeOfYear | src/app/components/discography/discography.component.ts:73-81 | a group dated `Y` or `Y-...` passes the decade filter exactly when the filter is `Y` rounded down to ten followed by `s` |
| Discography.GroupOrderConsistent | src/app/components/discography/discography.component.ts:91-109 | the title, date and type comparators, negated for `desc`, are consistent when the string comparison is |
| Discography.FilteredAndSorted | src/app/components/discography/discography.component.ts:51-112 | nothing without data; otherwise a permutation of the filtered groups |
| Discography.FilteredAndSortedSpec | src/app/components/discography/discography.component.ts:51-112 | the shown list is ordered by the chosen key in the chosen direction and holds exactly the passing groups, each as often as in the data |
| Discography.DescendingReversesKey | src/app/components/discography/discography.component.ts:108 | in `desc` order each group's key is at or after the next group's key |
| Discography.PresentTypesMembers | src/app/components/discography/discography.component.ts:119 | the types collected are exactly the non-empty primary types some group has |
| Discography.AvailableTypes | src/app/components/discography/discography.component.ts:114-121 | nothing without data |
| Discography.AvailableTypesSpec | src/app/components/discography/discography.component.ts:114-121 | each present non-empty type appears once, sorted in ascending code-point order |
| Discography.DecadeNames | src/app/components/discography/discography.component.ts:127 | the decade names, one per statistic, in order |
| Discography.AvailableDecades | src/app/components/discography/discography.component.ts:123-128 | nothing without decade statistics; otherwise a permutation of the decade names |
| Discography.AvailableDecadesSorted | src/app/components/discography/discography.component.ts:127 | the decades come in ascending code-point order |
| Discography.AvailableGenres | src/app/components/discography/discography.component.ts:130-135 | nothing without genres; otherwise the first ten genre names (or all, when fewer), in order |
| Discography.TotalReleases | src/app/components/discography/discography.component.ts:137-139 | the total the data reports, and 0 without data |
| Discography.CareerSpanText | src/app/components/discography/discography.component.ts:141-150 | empty without a start; otherwise the start year alone or the start year followed by ` - ` |
| Discography.CareerSpanSameYear | src/app/components/discography/discography.component.ts:146-149 | start and end in the same year give that year alone |
| Discography.CareerSpanRange | src/app/components/discography/discography.component.ts:146-149 | start and end in different years give `Y1 - Y2` |
| Discography.CareerSpanOngoing | src/app/components/discography/discography.component.ts:147-149 | no end gives `Y - present` |
| Discography.DiscographyView.constructor | src/app/components/discography/discography.component.ts:15-25 | no data, nothing shown, empty controls, sorted by date ascending |
| Discography.DiscographyView.ApplyFiltersAndSort | src/app/components/discography/discography.component.ts:51-112 | the shown list becomes the filtered, sorted copy of the data; data, controls and sort state are untouched |
| Discography.DiscographyView.DataChanged | src/app/components/discography/discography.component.ts:28-32 | new data replaces the old and the shown list is recomputed from it |
| Discography.DiscographyView.ToggleSortDirection | src/app/components/discography/discography.component.ts:46-49 | the direction flips and the shown list is recomputed with it |
| SpotifyService.Merge | src/app/services/spotify.service.ts:86-88 | each supplied field replaces the current one and each absent field keeps its value |
| SpotifyService.MergeIdempotent | src/app/services/spotify.service.ts:86-88 | configuring twice with the same fields is configuring once, and configuring with no fields changes nothing |
| SpotifyService.SearchTracks | src/app/services/spotify.service.ts:158-174 | the answer's track items, or no tracks when the request failed |
| SpotifyService.Uris | src/app/services/spotify.service.ts:251 | the URI of each track, in order |
| SpotifyService.QueryReadsBack | src/app/services/spotify.service.ts:247 | the query reads back as `artist:"`, the artist name up to the next quote, `" album:` and then the release name, when neither name holds a double quote |
| SpotifyService.ContributionIsPrefix | src/app/services/spotify.service.ts:250-252 | an answered search contributes the URIs of its first `trackCount` tracks (all of them when fewer), in order |
| SpotifyService.AccumulatedStep | src/app/services/spotify.service.ts:246-259 | each turn of the release loop appends that release's URIs, and its search and pause, to what was gathered |
| SpotifyService.AccumulatedAppend | src/app/services/spotify.service.ts:246-259 | the URIs of two runs of releases are those of each, one after the other: nothing is dropped, merged or de-duplicated |
| SpotifyService.NoDeduplication | src/app/services/spotify.service.ts:252 | two releases whose searches find the same track both add its URI |
| SpotifyService.BatchesFromSpec | src/app/services/spotify.service.ts:263-266 | the batches from a position on put back together give the rest of the URIs, each holds 1 to 100, and their number is rounded-up division by 100 |
| SpotifyService.BatchesSpec | src/app/services/spotify.service.ts:261-273 | the batches put back together give all URIs, each holds 1 to 100 URIs, there are ceil(n/100) of them and none when there are no URIs |
| SpotifyService.Separated | src/app/services/spotify.service.ts:264-272 | no calls for no batches; otherwise one add call per batch and one pause between two of them |
| SpotifyService.SeparatedShape | src/app/services/spotify.service.ts:264-272 | the add phase alternates: the batches in order at even positions, a pause at odd ones, so no pause follows the last batch |
| SpotifyService.BatchCallsSeparated | src/app/services/spotify.service.ts:264-272 | the calls the batch loop makes are one add call per batch with a pause between two batches |
| SpotifyService.BatchCallsStep | src/app/services/spotify.service.ts:265-271 | one turn of the batch loop sends the next slice of at most 100 and pauses only if URIs remain |
| SpotifyService.AddInBatches | src/app/services/spotify.service.ts:264-272 | the batch loop sends the URIs as the batch calls from position 0 describe |
| SpotifyService.PopulatePlaylistFromReleases | src/app/services/spotify.service.ts:240-274 | the URIs gathered are the accumulation over the releases; the calls are each release's search (and pause when answered), then the batches with a pause between two of them |
| SpotifyService.Service.constructor | src/app/services/spotify.service.ts:72-81 | a stored token makes the service authenticated with that token; without one it is signed out; no user yet; the environment's credentials |
| SpotifyService.Service.Configure | src/app/services/spotify.service.ts:86-88 | the credentials become the merge; the session state is untouched |
| SpotifyService.Service.SignOut | src/app/services/spotify.service.ts:279-284 | token, user and flag are cleared; the credentials stay |
| SpotifyService.Service.UserLoaded | src/app/services/spotify.service.ts:146-153 | the loaded profile becomes the current user and nothing else changes |
| SpotifyService.Service.CreatePlaylist | src/app/services/spotify.service.ts:179-199 | without a user id, no request and a null result; otherwise one creation request and its answer, or null on an error |
| SpotifyService.Service.CreatePlaylistFromLabelReleases | src/app/services/spotify.service.ts:223-235 | a public playlist named `L - Label Playlist` with the description `Curated playlist from L releases` is created, and only a created playlist is populated |
| SpotifyService.Service.CreateNamedPlaylistFromLabelReleases | src/app/services/spotify.service.ts:223-235 | the corrected creation: the same calls, but the playlist takes the name the caller chose |
| SpotifyService.AuthHeaders | src/app/services/spotify.service.ts:289-295 | two headers: the bearer authorisation carrying the token, written `null` when there is none, and the JSON content type |
| SpotifyService.AuthHeadersTellTokensApart | src/app/services/spotify.service.ts:289-295 | different tokens give different headers; a missing token cannot be told from the token text `null` |
| SpotifyService.AddTracksResult | src/app/services/spotify.service.ts:203-217 | adding tracks reports true exactly when the request succeeded, and false on any failure |
| PlaylistCreator.CachedArtistSelections | src/app/components/spotify-playlist-creator/spotify-playlist-creator.component.ts:559-578 | an artist's cached details give at most five selections, each an album or EP credited to that artist with 5 tracks of at most 10 |
| PlaylistCreator.CachedSelectionsOf | src/app/components/spotify-playlist-creator/spotify-playlist-creator.component.ts:558-580 | the cached artists give at most five selections each |
| PlaylistCreator.ArtistReleases | src/app/components/spotify-playlist-creator/spotify-playlist-creator.component.ts:601-613 | an artist's answer gives at most five albums or EPs, each tagged with the artist's name; a failed or empty lookup gives none |
| PlaylistCreator.FallbackReleasesOf | src/app/components/spotify-playlist-creator/spotify-playlist-creator.component.ts:599-618 | the artists give at most five releases each |
| PlaylistCreator.CachedStep | src/app/components/spotify-playlist-creator/spotify-playlist-creator.component.ts:558-580 | each turn of the cached loop appends that artist's selections |
| PlaylistCreator.FallbackStep | src/app/components/spotify-playlist-creator/spotify-playlist-creator.component.ts:599-618 | each turn of the fallback loop appends that artist's releases |
| PlaylistCreator.BuildCachedSelections | src/app/components/spotify-playlist-creator/spotify-playlist-creator.component.ts:553-582 | the loop over the first ten cached artists builds exactly their selections, at most fifty |
| PlaylistCreator.CollectFallbackReleases | src/app/components/spotify-playlist-creator/spotify-playlist-creator.component.ts:597-618 | the loop over the first ten artists collects exactly their releases, skipping a failed lookup, at most fifty |
| PlaylistCreator.FallbackSelections | src/app/components/spotify-playlist-creator/spotify-playlist-creator.component.ts:623-628 | one selection per collected release, in order, with 5 tracks of at most 10 |
| PlaylistCreator.CachedSelectionsSpec | src/app/components/spotify-playlist-creator/spotify-playlist-creator.component.ts:558-580 | every cached selection is an album or EP with 5 tracks of at most 10, credited to one of the cached artists |
| PlaylistCreator.OnlyFirstTenArtists | src/app/components/spotify-playlist-creator/spotify-playlist-creator.component.ts:558 | artists after the tenth contribute nothing |
| PlaylistCreator.Clamp | src/app/components/spotify-playlist-creator/spotify-playlist-creator.component.ts:649 | the count is never negative, never above a non-negative maximum, and a count within range is kept |
| PlaylistCreator.UpdateCounts | src/app/components/spotify-playlist-creator/spotify-playlist-creator.component.ts:643-654 | the selections of the release get the typed count clamped to their maximum; all others are unchanged |
| PlaylistCreator.UpdateKeepsRange | src/app/components/spotify-playlist-creator/spotify-playlist-creator.component.ts:643-654 | updating a count keeps every count between 0 and its maximum |
| PlaylistCreator.UpdateWithNumber | src/app/components/spotify-playlist-creator/spotify-playlist-creator.component.ts:645-649 | a typed number within range is taken as is; text that is not a number sets the count to 0 |
| PlaylistCreator.SelectedCount | src/app/components/spotify-playlist-creator/spotify-playlist-creator.component.ts:497-499 | the number of selected releases never exceeds the number of selections |
| PlaylistCreator.TotalAndSelected | src/app/components/spotify-playlist-creator/spotify-playlist-creator.component.ts:493-499 | with no negative count, the total is 0 exactly when no release is selected, and never below the number of selected releases |
| PlaylistCreator.RequestReleases | src/app/components/spotify-playlist-creator/spotify-playlist-creator.component.ts:667-676 | the request holds one release per selection with a positive count |
| PlaylistCreator.RequestKeepsTotal | src/app/components/spotify-playlist-creator/spotify-playlist-creator.component.ts:667-676 | the request asks for exactly the selected total of tracks |
| PlaylistCreator.LabelName | src/app/components/spotify-playlist-creator/spotify-playlist-creator.component.ts:484-491 | the label's name, or the empty text when label or data is missing |
| PlaylistCreator.Creator.constructor | src/app/components/spotify-playlist-creator/spotify-playlist-creator.component.ts:476-508 | no releases or selections, loading, not creating, no error, no playlist, and the name `Label Playlist` |
| PlaylistCreator.Creator.LoadReleases | src/app/components/spotify-playlist-creator/spotify-playlist-creator.component.ts:538-638 | without label data an error; with cached artists their selections and no request; otherwise the error for a failed or empty artist answer, or the selections of the first ten artists' albums and EPs; loading ends in every case |
| PlaylistCreator.Creator.Init | src/app/components/spotify-playlist-creator/spotify-playlist-creator.component.ts:510-533 | with label data the releases load and the name becomes `L - Label Playlist` for the label L; a missing label fails initialisation |
| PlaylistCreator.Creator.UpdateTrackCount | src/app/components/spotify-playlist-creator/spotify-playlist-creator.component.ts:643-654 | the selections become the updated counts and nothing else changes |
| PlaylistCreator.Creator.CreatePlaylist | src/app/components/spotify-playlist-creator/spotify-playlist-creator.component.ts:659-693 | an empty name or no tracks sends nothing; otherwise the request of the label's name and the selected releases is sent, and a returned playlist is kept and announced, anything else shows the failure message |
| PlaylistCreator.ProposedNameIsServiceName | src/app/components/spotify-playlist-creator/spotify-playlist-creator.component.ts:525-527 | the name the form proposes is the name the service gives the label's playlist |
| PlaylistCreator.RenamedPlaylistIgnored | src/app/components/spotify-playlist-creator/spotify-playlist-creator.component.ts:664-678 | whatever name the user types, the playlist is created under the label's default name |
| PlaylistCreator.RenamedPlaylistKept | src/app/components/spotify-playlist-creator/spotify-playlist-creator.component.ts:664-678 | with the form's name handed on, the playlist is created under the name the user typed |
| ReleaseCard.JsRemainder | src/app/components/discography/release-card/release-card.component.ts:144 | the remainder takes the sign of the dividend, lies strictly between `-b` and `b`, and agrees with the mathematical remainder for a non-negative dividend |
| ReleaseCard.FormatDuration | src/app/components/discography/release-card/release-card.component.ts:140-146 | no text for 0; otherwise minutes and seconds separated by a colon |
| ReleaseCard.FormatDurationReadsBack | src/app/components/discography/release-card/release-card.component.ts:140-146 | a positive duration shows whole minutes and two-digit seconds below 60 that together are the duration truncated to whole seconds |
| ReleaseCard.FormatNegativeDuration | src/app/components/discography/release-card/release-card.component.ts:140-146 | a negative duration shows both parts negative, as `-1:-1` for -1 ms |
| ReleaseCard.ReleaseYear | src/app/components/discography/release-card/release-card.component.ts:148-153 | `Unknown` without a date; otherwise a prefix of the date holding no `-` |
| ReleaseCard.ReleaseYearOfDate | src/app/components/discography/release-card/release-card.component.ts:148-153 | a date `Y-...` shows the year `Y` |
| ReleaseCard.PrimaryTypeText | src/app/components/discography/release-card/release-card.component.ts:172-174 | the primary type, or `Other` when it is missing or empty |
| ReleaseCard.SecondaryTypesText | src/app/components/discography/release-card/release-card.component.ts:176-178 | no text without secondary types |
| ReleaseCard.SecondaryTypesAppend | src/app/components/discography/release-card/release-card.component.ts:176-178 | a single type is shown alone and each further type is added after `, ` |
| ReleaseCard.CreditTexts | src/app/components/discography/release-card/release-card.component.ts:186 | each credit reads as its name followed by its join phrase |
| ReleaseCard.ArtistCreditText | src/app/components/discography/release-card/release-card.component.ts:180-188 | no text without credits |
| ReleaseCard.ArtistCreditAppend | src/app/components/discography/release-card/release-card.component.ts:180-188 | each further credit adds its name and join phrase at the end, with no separator |
| ReleaseCard.TrackArtists | src/app/components/discography/release-card/release-card.component.ts:190-195 | no text when the recording has no credits |
| ReleaseCard.TrackArtistsAppend | src/app/components/discography/release-card/release-card.component.ts:190-195 | a single name is shown alone and each further name is added after `, ` |
| ReleaseCard.Present | src/app/components/discography/release-card/release-card.component.ts:100 | exactly the details that arrived are kept, never more than were asked for |
| ReleaseCard.Card.constructor | src/app/components/discography/release-card/release-card.component.ts:51-60 | the card starts with its release group, no details, not loading, no error and no events |
| ReleaseCard.Card.ToggleExpanded | src/app/components/discography/release-card/release-card.component.ts:51-60 | the flag flips; collapsing emits the collapse event; expanding emits the expand event and requests the releases exactly when no details are loaded yet |
| ReleaseCard.Card.LoadDetailedReleases | src/app/components/discography/release-card/release-card.component.ts:62-74 | a request is made exactly when no details are loaded, and it starts loading and clears the error |
| ReleaseCard.Card.ReleasesAnswered | src/app/components/discography/release-card/release-card.component.ts:77-115 | a failure or an empty answer ends loading with its own message; otherwise the details of the first three releases (fewer when there are fewer) are asked for |
| ReleaseCard.Card.DetailsAnswered | src/app/components/discography/release-card/release-card.component.ts:98-107 | loading ends; the details that arrived are kept in order, or a failure shows its message and keeps the old details |
| TreeNodeView.ArtistCount | src/app/components/label-family-tree/tree-node/tree-node.component.ts:25 | the size of the roster, 0 without one; positive exactly when the roster has an entry |
| TreeNodeView.RelationshipText | src/app/components/label-family-tree/tree-node/tree-node.component.ts:26-32 | `Root Label` for the root; otherwise a text as long as the relationship type |
| TreeNodeView.RelationshipTextPlain | src/app/components/label-family-tree/tree-node/tree-node.component.ts:26-32 | a type without `-` is only capitalised |
| TreeNodeView.RelationshipTextFirstDashOnly | src/app/components/label-family-tree/tree-node/tree-node.component.ts:30-31 | only the first `-` becomes a space, later ones stay, and the first character is upper-cased |
| TreeNodeView.RelationshipAttributes | src/app/components/label-family-tree/tree-node/tree-node.component.ts:36 | the relationship's attributes; none for the root or a relationship without them |
| TreeNodeView.DepthClass | src/app/components/label-family-tree/tree-node/tree-node.component.ts:34 | the class always starts with `depth-` |
| TreeNodeView.DepthClassOfDepth | src/app/components/label-family-tree/tree-node/tree-node.component.ts:34 | depths 0 to 4 give `depth-0` to `depth-4` and any deeper node `depth-5` |
| TreeNodeView.DepthClassNegative | src/app/components/label-family-tree/tree-node/tree-node.component.ts:34 | a negative depth is not capped from below and its class carries the minus sign |
| TreeNodeView.ConnectionLineClassText | src/app/components/label-family-tree/tree-node/tree-node.component.ts:59-71 | `connection-line`, then ` has-parent` exactly below the root depth, then ` has-children` exactly when there are children |
| TreeNodeView.FormatDateRange | src/app/components/label-family-tree/tree-node/tree-node.component.ts:73-89 | `B - E`, `B - present`, `Until E` or nothing, by which of the dates are present; nothing for the root |
| TreeNodeView.DateRangeShownIff | src/app/components/label-family-tree/tree-node/tree-node.component.ts:73-89 | the range is shown exactly when the node has a relationship with a begin or an end date |
| TreeNodeView.OpenRangeMarksPresent | src/app/components/label-family-tree/tree-node/tree-node.component.ts:82-83 | a range without an end reads as its begin followed by ` - present` |
| TreeNodeView.LabelTypeIcon | src/app/components/label-family-tree/tree-node/tree-node.component.ts:91-110 | a missing type gets the default icon; a type gets the default icon exactly when its lower-cased form is none of the six known types |
| TreeNodeView.LabelTypeIconOfKnown | src/app/components/label-family-tree/tree-node/tree-node.component.ts:94-106 | a type that lower-cases to a known type shows that type's icon |
| TreeNodeView.TypeIconsDistinct | src/app/components/label-family-tree/tree-node/tree-node.component.ts:95-108 | the six known types have pairwise different icons, none of them the default |
| TreeNodeView.LabelTypeIconIgnoresCase | src/app/components/label-family-tree/tree-node/tree-node.component.ts:92 | the icon does not depend on letter case |
| TreeNodeView.NodeView.constructor | src/app/components/label-family-tree/tree-node/tree-node.component.ts:15-21 | the view holds its node, collapsed, with nothing selected |
| TreeNodeView.NodeView.Init | src/app/components/label-family-tree/tree-node/tree-node.component.ts:39-42 | the view starts expanded exactly when the node says so |
| TreeNodeView.NodeView.ToggleExpansion | src/app/components/label-family-tree/tree-node/tree-node.component.ts:44-48 | only a node with children changes its expansion |
| TreeNodeView.NodeView.SelectNode | src/app/components/label-family-tree/tree-node/tree-node.component.ts:50-52 | the node itself is emitted as selected |
| TreeNodeView.NodeView.OnChildNodeSelected | src/app/components/label-family-tree/tree-node/tree-node.component.ts:54-57 | a child's selection is passed on unchanged |
| CollaborationNetwork.ReleaseCounts | src/app/components/collaboration-network/collaboration-network.component.ts:29 | one release count per collaboration, in order |
| CollaborationNetwork.Percentage | src/app/components/collaboration-network/collaboration-network.component.ts:32-35 | 0 for a zero total; otherwise the integer nearest to the share in percent, halves rounded up |
| CollaborationNetwork.PercentageBounds | src/app/components/collaboration-network/collaboration-network.component.ts:32-35 | a share of a positive total between none and all of it is a percentage from 0 to 100 |
| CollaborationNetwork.PercentageEnds | src/app/components/collaboration-network/collaboration-network.component.ts:32-35 | the whole total is 100 percent and none of it 0 percent |
| CollaborationNetwork.PercentageUnique | src/app/components/collaboration-network/collaboration-network.component.ts:34 | exactly one integer meets the rounding bounds, so the percentage is the rounded share |
| CollaborationNetwork.Network.constructor | src/app/components/collaboration-network/collaboration-network.component.ts:12-16 | no collaborations, no name, no top list and a zero total, consistent with each other |
| CollaborationNetwork.Network.ProcessCollaborations | src/app/components/collaboration-network/collaboration-network.component.ts:27-30 | the top list becomes the first eight collaborations and the total the sum of all release counts |
| CollaborationNetwork.Network.InputsChanged | src/app/components/collaboration-network/collaboration-network.component.ts:21-25 | the inputs take their new values; the derived fields are recomputed exactly when the collaborations changed |
| CollaborationNetwork.Network.ShareInRange | src/app/components/collaboration-network/collaboration-network.component.ts:32-35 | with no negative release count, each collaboration's share is from 0 to 100 percent |
| Http.Lookup | src/app/services/musicbrainz.service.ts:22-25 | a key has a value exactly when it was set |
| Http.SetParam | src/app/services/musicbrainz.service.ts:22-25 | setting adds one entry when the key is new and none when it is already there |
| Http.SetParamLookup | src/app/services/musicbrainz.service.ts:22-25 | after `set(k, v)` the key `k` reads `v` and every other key reads what it read before |
| Http.SetParamKeys | src/app/services/musicbrainz.service.ts:22-25 | setting appends a new key at the end and leaves the order of the keys alone otherwise |
| Http.SetParamNew | src/app/services/musicbrainz.service.ts:22-25 | a new key is appended with its value |
| Http.SetThree | src/app/services/musicbrainz.service.ts:22-25 | three distinct keys set from nothing come out in the order they were set |
| Http.Classify | src/app/services/musicbrainz.service.ts:53-61 | status 503, 429 and 0 each form a class of their own; every other status falls in the last class |
| MusicBrainzApp.HandleError | src/app/services/musicbrainz.service.ts:50-62 | a failed request always becomes an error carrying the message for its status |
| MusicBrainzApp.ErrorMessageDistinguishes | src/app/services/musicbrainz.service.ts:53-61 | two statuses get the same message exactly when they are of the same class, so 503, 429 and 0 each have a message of their own |
| MusicBrainzApp.ArtistSearchRequest | src/app/services/musicbrainz.service.ts:21-27 | the request goes to `/api/artist` with `query`, `limit` and `fmt=json`, in that order, and no headers |
| MusicBrainzApp.ArtistSearchResult | src/app/services/musicbrainz.service.ts:27-32 | an answer yields its artists; a failure yields the error message for its status |
| MusicBrainzApp.ArtistReleasesRequest | src/app/services/musicbrainz.service.ts:35-42 | the request goes to `/api/release` with `artist`, `inc=labels`, `limit` and `fmt=json`, in that order |
| MusicBrainzApp.ArtistReleasesResult | src/app/services/musicbrainz.service.ts:42-47 | an answer yields its releases; a failure yields the error message for its status |
| MusicBrainzApp.DefaultLimits | src/app/services/musicbrainz.service.ts:21-39 | without a limit, an artist search asks for 10 artists and a release listing for 100 releases |
| MusicBrainzLib.HandleError | projects/nationwide/my-lib/src/lib/services/musicbrainz.service.ts:58-70 | a failed request always becomes an error carrying the library's message for its status |
| MusicBrainzLib.SameMessagesAsApp | projects/nationwide/my-lib/src/lib/services/musicbrainz.service.ts:61-69 | the library words every failure as the application does, except that its network message lacks the remark on CORS |
| MusicBrainzLib.ErrorMessageDistinguishes | projects/nationwide/my-lib/src/lib/services/musicbrainz.service.ts:61-69 | two statuses get the same message exactly when they are of the same class |
| MusicBrainzLib.ArtistSearchRequest | projects/nationwide/my-lib/src/lib/services/musicbrainz.service.ts:21-31 | the request goes to the MusicBrainz web service's `/artist` with the single `User-Agent` header and `query`, `limit`, `fmt=json` |
| MusicBrainzLib.ArtistSearchResult | projects/nationwide/my-lib/src/lib/services/musicbrainz.service.ts:31-36 | an answer yields its artists; a failure yields the error message for its status |
| MusicBrainzLib.ArtistReleasesRequest | projects/nationwide/my-lib/src/lib/services/musicbrainz.service.ts:39-50 | the request goes to the web service's `/release` with the `User-Agent` header and `artist`, `inc=labels`, `limit`, `fmt=json` |
| MusicBrainzLib.ArtistReleasesResult | projects/nationwide/my-lib/src/lib/services/musicbrainz.service.ts:50-55 | an answer yields its releases; a failure yields the error message for its status |
| MusicBrainzLib.SameParamsAsApp | projects/nationwide/my-lib/src/lib/services/musicbrainz.service.ts:26-48 | the library sends the same query parameters as the application, with or without an explicit limit |
| Home.FailureText | src/app/components/home/home.component.ts:41 | the shown message is never empty: the error's own message when it has one, otherwise the default |
| Home.HomePage.constructor | src/app/components/home/home.component.ts:16-20 | empty box, no results, not loading, no error, no selection, no search awaited |
| Home.HomePage.SetValue | src/app/components/home/home.component.ts:56 | the box takes the value and emits it; nothing else changes |
| Home.HomePage.QueryReached | src/app/components/home/home.component.ts:25-47 | a repeated query does nothing; a query shorter than 2 clears results and error and cancels the running search; a longer one starts a new search that supersedes the running one; while loading exactly one search is awaited |
| Home.HomePage.SearchAnswered | src/app/components/home/home.component.ts:39-51 | only the awaited search has an effect: its artists, or no artists and the failure's message; loading ends |
| Home.HomePage.SelectArtist | src/app/components/home/home.component.ts:54-58 | the artist is selected, its name fills the box and is emitted, and the results close |
| Home.HomePage.ClearSearch | src/app/components/home/home.component.ts:60-65 | box, selection, results and error are emptied and the empty value is emitted |
| Home.SupersededSearch | src/app/components/home/home.component.ts:29-46 | the answer of a search overtaken by a newer query never replaces the newer search's results, whichever answer arrives last |
| SpotifyCallback.CodeIndex | src/app/components/spotify-callback/spotify-callback.component.ts:203-211 | a code is found exactly when it is one of the seven known OAuth error codes |
| SpotifyCallback.AuthErrorMessage | src/app/components/spotify-callback/spotify-callback.component.ts:200-214 | a known code gets one of the fixed messages; any other code reads `Authentication error: ` followed by the code |
| SpotifyCallback.KnownCodeMessage | src/app/components/spotify-callback/spotify-callback.component.ts:203-211 | each known code gets its own message |
| SpotifyCallback.KnownMessagesAreNotFallbacks | src/app/components/spotify-callback/spotify-callback.component.ts:203-213 | no fixed message starts like the message of an unknown code |
| SpotifyCallback.AuthErrorMessageInjective | src/app/components/spotify-callback/spotify-callback.component.ts:200-214 | different codes always give different messages |
| SpotifyCallback.MissingCodeMessage | src/app/components/spotify-callback/spotify-callback.component.ts:170-173 | a missing code is reported as `Authentication error: No authorization code received` |
| SpotifyCallback.Callback.constructor | src/app/components/spotify-callback/spotify-callback.component.ts:149-154 | the page starts processing, with no error and no navigation |
| SpotifyCallback.Callback.HandleAuthError | src/app/components/spotify-callback/spotify-callback.component.ts:200-214 | processing ends and the message for the code is shown |
| SpotifyCallback.Callback.HandleCallback | src/app/components/spotify-callback/spotify-callback.component.ts:159-176 | an error parameter wins over a code; without either the missing-code message shows; otherwise the code goes to the exchange and the page keeps processing |
| SpotifyCallback.Callback.ExchangeEnded | src/app/components/spotify-callback/spotify-callback.component.ts:176-193 | processing ends; success schedules the return home after 2000 ms; a reported failure and a thrown error each show their own message |
| SpotifyCallback.Callback.GoHome | src/app/components/spotify-callback/spotify-callback.component.ts:219-221 | the page navigates to `/` |
| SpotifyCallback.CallbackScenario | src/app/components/spotify-callback/spotify-callback.component.ts:159-193 | a callback with a code and no error shows no error exactly when the exchange confirms it, and only then returns home |
| Sorting.Sort | src/app/components/discography/discography.component.ts:91-109 | the sorted list is a permutation of the input: same elements, same multiplicities |
| Sorting.SortSorted | src/app/components/discography/discography.component.ts:91-109 | under a consistent comparator, no element comes after one the comparator puts before it |
| Sorting.SortMembers | src/app/components/discography/discography.component.ts:91-109 | sorting neither adds nor drops a value |
| Sorting.NegatedConsistent | src/app/components/discography/discography.component.ts:108 | the descending order, the negated comparison, is consistent whenever the ascending one is |
| Sorting.LexCompareZero | src/app/components/discography/discography.component.ts:120 | the default string order ties two strings exactly when they are equal |
| Sorting.LexCompareConsistent | src/app/components/discography/discography.component.ts:120 | the default string order of `sort()` is a consistent comparator |
| Seqs.Take | src/app/components/collaboration-network/collaboration-network.component.ts:28 | a prefix of the list: `k` elements when `k` is in range, all when `k` is larger, and a negative `k` counted from the end |
| Seqs.FilterMembers | src/app/components/discography/discography.component.ts:57-88 | an element is kept exactly when it is in the input and passes the test |
| Seqs.FilterCount | src/app/components/discography/discography.component.ts:57-88 | filtering keeps every copy of a passing element and no copy of another |
| Seqs.FilterTwice | src/app/components/discography/discography.component.ts:57-88 | filtering by one test and then another is filtering by both at once |
| Seqs.Dedup | src/app/components/discography/discography.component.ts:119 | the result has no repeats and holds exactly the values of the input |
| Seqs.DistinctMultiset | src/app/components/discography/discography.component.ts:119 | a list has no repeats exactly when no value occurs in it twice |
| Seqs.SumAppend | src/app/components/collaboration-network/collaboration-network.component.ts:29 | the running sum grows by each added element |
| Seqs.SumBound | src/app/components/collaboration-network/collaboration-network.component.ts:29 | with no negative element, every element lies between 0 and the sum |
| Text.OrElse | src/app/components/discography/release-card/release-card.component.ts:173 | a present, non-empty text is kept; otherwise the fallback |
| Text.IntToString | src/app/components/discography/release-card/release-card.component.ts:145 | the decimal text of an integer starts with a minus sign exactly when the integer is negative |
| Text.NatToStringValue | src/app/components/discography/release-card/release-card.component.ts:145 | the digits of a number denote that number |
| Text.ParseIntToString | src/app/components/discography/discography.component.ts:77 | parsing the decimal text of an integer, followed by anything that is not a digit, gives the integer back |
| Text.BeforeFirst | src/app/components/discography/release-card/release-card.component.ts:152 | a prefix of the text holding no separator, followed in the text by the separator unless it is all of it |
| Text.BeforeFirstOf | src/app/components/discography/release-card/release-card.component.ts:152 | the text before a first separator that ends a separator-free prefix is that prefix |
| Text.ReplaceFirst | src/app/components/label-family-tree/tree-node/tree-node.component.ts:30 | the length is kept and a text without the character is unchanged |
| Text.ReplaceFirstAt | src/app/components/label-family-tree/tree-node/tree-node.component.ts:30 | only the first occurrence is replaced: what comes before and after it stays |
| Text.JoinAppend | src/app/components/discography/release-card/release-card.component.ts:177 | a single part is joined to nothing, and each further part is added after one separator |
| Text.PadStart2 | src/app/components/discography/release-card/release-card.component.ts:145 | a text of two or more characters is kept; a shorter one is padded with leading zeros to two characters |
| Text.ToLowerIdempotent | src/app/components/label-family-tree/tree-node/tree-node.component.ts:92 | lower-casing twice is lower-casing once |
| Text.IncludesIff | src/app/components/discography/discography.component.ts:63-64 | `includes` holds exactly when the needle occurs at some position of the text |

## Left out

- Time: `delay`, `debounceTime` and `setTimeout` are not modelled as time. The rate limiter uses a logical clock in milliseconds. Elsewhere a delay is an entry in the list of calls made, or a returned number of milliseconds.
- RxJS and promises: `switchMap` cancellation is modelled by request numbers. `forkJoin` is modelled as one answer for all details. Interleavings other than those the methods expose are not modelled.
- `localeCompare` is a comparator parameter required to be consistent. Its locale collation is not modelled.
- `toLowerCase` and `toUpperCase` are modelled on ASCII letters only.
- Strings are sequences of Unicode scalar values. The source's `length` and its default `sort()` count and compare UTF-16 code units instead. A character above U+FFFF therefore has length 1 in the model and 2 in the source (so alone it clears the home search instead of starting one), and it sorts after U+E000–U+FFFF in the model but before them in the source.
- `parseInt` is modelled on text without leading white space and only in base 10.
- Floating point: `getCollaborationBarWidth` is left out. Percent values elsewhere are integers.
- CollaborationNetwork.Percentage: rounds the exact fraction `100 * count / total`, halves up. The source rounds the double `(count / total) * 100`, whose rounding error can fall below a half. For 23 of 40 the source computes 57.49999999999999 and shows 57, while the model gives 58. The same happens for 57 of 200: 28 in the source, 29 in the model.
- RateLimiter.RateLimiterService.Complete: assumes that every execution answers exactly once, with one value or one error. The source subscribes with only `next` and `error` handlers and accepts any observable. An execution that completes without a value never calls `processQueue` again, so `isProcessing` stays true and every later request waits forever. An execution that emits twice calls `processQueue` twice and starts a second drain.
- `releaseDate` of the release card uses `new Date` and `toLocaleDateString`, so it is left out.
- SpotifyCallback.AuthErrorMessage: does not model the lookup of inherited object keys such as `constructor` in the `errorMessages` map. In JavaScript such a key yields a function, not a message.
- SpotifyService.Merge: models the spread of a partial configuration as replacing the fields that are present. An explicit `undefined` in the partial object is not distinguished from an absent field.
- OAuth internals are left out: `initiateAuth`, `handleAuthCallback` (the token exchange), `generateRandomString` (uses `Math.random`), `btoa` and `window.location`. The exchange's outcome is a parameter of the callback page.
- `localStorage` is left out. The stored token is a constructor parameter of the Spotify service, and storing and removing it are not modelled.
- The callers of `addTracksToPlaylist` do not inspect its answer, so the playlist flows do not depend on it. Only the mapping of that answer to a flag is modelled (`SpotifyService.AddTracksResult`).
- Label search, family-tree building, label artists, rosters, release groups and release details are called by the components but not defined in the modelled services. Their answers are parameters, and their own logic is not part of this model.
- The release card's cover-art loading (`loadCoverArtForReleaseGroup`, `loadCoverArt`) is dead code. Its only call, in `ngOnInit`, is commented out, so it is left out.
- ReleaseCard.Card.ToggleExpanded: models `releaseGroup` as the card's own value. The source flips `expanded` on an object it shares with the discography, and that aliasing is not modelled.
- The CSV exports are modelled up to the text they write. Creating the Blob, the object URL and the link is left out.
- FamilyTree.LabelFamilyTreeView.ExportTree: the JSON export returns the filtered tree, because `JSON.stringify` is not modelled.
- The tree filters' `timeRange` is left out, because nothing reads it.
- Focusing the search input after a label is selected is left out, because it is DOM behaviour.
- The download file names are left out, because they are built with a regular expression.
- The roster panel's `onClose` and the discography's `viewMode`, `onViewModeChange`, `onReleaseExpand` and `onReleaseCollapse` are left out. They only emit an event, set a display mode or write to the console.
- Inline templates and styles are left out, and so are files with no logic: routes, environments, the label grid, label card, loading spinner and component creation specs.
- PlaylistCreator.Creator.LoadReleases: takes the label's artists as a parameter. `getLabelArtists` is not defined in the modelled service.

## Findings

| source | as written | input that shows it | evidently intended | confidence | as-written member | corrected member |
|---|---|---|---|---|---|---|
| src/app/components/label-family-tree/label-family-tree.component.ts:183-191 | an excluded node is collapsed before its children are looked at, so an included grandchild under an excluded child is dropped | root → `distributor` child → `imprint` grandchild, with the default filters | a node is kept, with the surviving part of its subtree, when a descendant survives the filter | not executed | FamilyTree.IncludedDescendantDropped | FamilyTree.KeepingAncestorsKeepsBuriedImprint |
| src/app/services/rate-limiter.service.ts:75-81 | `clearQueue` resets `isProcessing` while a request is in flight, so the next `queueRequest` starts a second drain beside the first | queue A, start it, clear, queue B: A and B are in flight together | only one drain runs at a time; clearing empties the queue but leaves the running drain in charge | not executed | RateLimiter.ClearDuringRequest | RateLimiter.ClearDuringRequestKeepingDrain |
| src/app/components/spotify-playlist-creator/spotify-playlist-creator.component.ts:664-678 | the request sent to the service carries only the label name, so the playlist name the user typed into the form is never used | label `Motown`, name typed `Road Trip`: the playlist is created as `Motown - Label Playlist` | the playlist is created under the name in the form | not executed | PlaylistCreator.RenamedPlaylistIgnored | PlaylistCreator.RenamedPlaylistKept |
| src/app/components/label-family-tree/label-family-tree.component.ts:157-164 | `clearSearch` empties the box with `emitEvent: false`, so `distinctUntilChanged` still holds the last query and drops that query when it is entered again | search `Motown`, clear, enter `Motown` again: no search starts and the results stay empty | after a clear, entering any query searches again | not executed | FamilyTree.RepeatAfterClearIgnored | FamilyTree.RepeatAfterClearSearched |
