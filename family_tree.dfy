/**
 * The label family-tree component: filtering the tree by relationship type,
 * toggling a type in the filter set, the CSV export of the tree in pre-order,
 * and the component's state: the label search, the selected label and its
 * tree, and the filters. The answers of the searches and of the tree
 * building are parameters.
 */
module FamilyTree {
  import opened Wrappers
  import opened Text
  import opened Models
  import Seqs

  /** The filters a fresh component starts with. */
  const DefaultFilters := SearchFilters(["parent", "subsidiary", "imprint"], [], false, false)

  // ---------------------------------------------------------------------------
  // Filtering

  /** The relationship test: a node without a relationship (the root) always passes. */
  predicate Included(n: TreeNode, f: SearchFilters) {
    n.relationship.None? || n.relationship.value.relType in f.relationshipTypes
  }

  /** The test a child must pass, after it has been filtered, to stay in its parent. */
  predicate Kept(c: TreeNode, f: SearchFilters) {
    |c.children| > 0 || Included(c, f)
  }

  /**
   * `filterTreeNode`: an excluded node becomes a childless copy; an included
   * node keeps those of its filtered children that pass `Kept`.
   */
  function FilterTreeNode(node: TreeNode, f: SearchFilters): (r: TreeNode)
    ensures r == node.(children := r.children)
    ensures !Included(node, f) ==> r.children == []
    decreases node
  {
    if !Included(node, f) then node.(children := [])
    else node.(children := FilterChildren(node.children, f))
  }

  /** `children.map(c => filterTreeNode(c)).filter(Kept)`. */
  function FilterChildren(cs: seq<TreeNode>, f: SearchFilters): (r: seq<TreeNode>)
    ensures |r| <= |cs|
    decreases cs
  {
    if cs == [] then []
    else
      var c := FilterTreeNode(cs[0], f);
      (if Kept(c, f) then [c] else []) + FilterChildren(cs[1..], f)
  }

  /** The nodes of `cs` that pass the relationship test, in their order. */
  function SelectIncluded(cs: seq<TreeNode>, f: SearchFilters): (r: seq<TreeNode>)
    ensures |r| <= |cs|
    ensures forall i :: 0 <= i < |r| ==> Included(r[i], f) && r[i] in cs
  {
    if cs == [] then []
    else (if Included(cs[0], f) then [cs[0]] else []) + SelectIncluded(cs[1..], f)
  }

  /** Each node of `cs` filtered. */
  function FilterEach(cs: seq<TreeNode>, f: SearchFilters): (r: seq<TreeNode>)
    ensures |r| == |cs|
  {
    seq(|cs|, i requires 0 <= i < |cs| => FilterTreeNode(cs[i], f))
  }

  /**
   * The `children.length > 0` half of the keep test never decides anything:
   * a filtered child passes exactly when its own relationship passes.
   */
  lemma KeptIffIncluded(c: TreeNode, f: SearchFilters)
    ensures Kept(FilterTreeNode(c, f), f) <==> Included(c, f)
  {
  }

  /** Filtering children keeps exactly the included ones, in order, each filtered in turn. */
  lemma {:induction false} FilterChildrenSelects(cs: seq<TreeNode>, f: SearchFilters)
    ensures FilterChildren(cs, f) == FilterEach(SelectIncluded(cs, f), f)
  {
    if cs != [] {
      KeptIffIncluded(cs[0], f);
      FilterChildrenSelects(cs[1..], f);
    }
  }

  /**
   * The whole effect of filtering a node: the root always passes, an
   * excluded node keeps every field but loses its children, and an included
   * node's children are its included children, in order, each filtered.
   */
  lemma FilterTreeNodeShape(node: TreeNode, f: SearchFilters)
    ensures node.relationship.None? ==> Included(node, f)
    ensures !Included(node, f) ==> FilterTreeNode(node, f) == node.(children := [])
    ensures Included(node, f) ==>
      FilterTreeNode(node, f) == node.(children := FilterEach(SelectIncluded(node.children, f), f))
  {
    FilterChildrenSelects(node.children, f);
  }

  /** Every node below the given ones passes the relationship test. */
  ghost predicate ForestIncluded(cs: seq<TreeNode>, f: SearchFilters)
    decreases cs
  {
    forall i :: 0 <= i < |cs| ==> Included(cs[i], f) && ForestIncluded(cs[i].children, f)
  }

  /** Every node of the tree passes the relationship test. */
  ghost predicate TreeIncluded(n: TreeNode, f: SearchFilters) {
    Included(n, f) && ForestIncluded(n.children, f)
  }

  lemma ForestIncludedCons(c: TreeNode, rest: seq<TreeNode>, f: SearchFilters)
    ensures ForestIncluded([c] + rest, f) <==> TreeIncluded(c, f) && ForestIncluded(rest, f)
  {
    var cs := [c] + rest;
    assert cs[0] == c;
    assert forall i :: 0 <= i < |rest| ==> cs[i + 1] == rest[i];
    if ForestIncluded(cs, f) {
      forall i | 0 <= i < |rest|
        ensures Included(rest[i], f) && ForestIncluded(rest[i].children, f)
      {
        assert cs[i + 1] == rest[i];
      }
    }
    if TreeIncluded(c, f) && ForestIncluded(rest, f) {
      forall i | 0 <= i < |cs|
        ensures Included(cs[i], f) && ForestIncluded(cs[i].children, f)
      {
        if i > 0 {
          assert cs[i] == rest[i - 1];
        }
      }
    }
  }

  /** After filtering, no node below the root is of an excluded type. */
  lemma {:induction false} FilteredTreeIncluded(node: TreeNode, f: SearchFilters)
    ensures ForestIncluded(FilterTreeNode(node, f).children, f)
    decreases node
  {
    if Included(node, f) {
      FilteredChildrenIncluded(node.children, f);
    }
  }

  lemma {:induction false} FilteredChildrenIncluded(cs: seq<TreeNode>, f: SearchFilters)
    ensures ForestIncluded(FilterChildren(cs, f), f)
    decreases cs
  {
    if cs != [] {
      var c := FilterTreeNode(cs[0], f);
      FilteredTreeIncluded(cs[0], f);
      FilteredChildrenIncluded(cs[1..], f);
      if Kept(c, f) {
        ForestIncludedCons(c, FilterChildren(cs[1..], f), f);
      }
    }
  }

  /** The number of nodes of a tree. */
  function NodeCount(n: TreeNode): (k: nat)
    ensures k >= 1
    decreases n
  {
    1 + ForestCount(n.children)
  }

  function ForestCount(cs: seq<TreeNode>): nat
    decreases cs
  {
    if cs == [] then 0 else NodeCount(cs[0]) + ForestCount(cs[1..])
  }

  lemma ForestCountCons(c: TreeNode, rest: seq<TreeNode>)
    ensures ForestCount([c] + rest) == NodeCount(c) + ForestCount(rest)
  {
    assert ([c] + rest)[1..] == rest;
  }

  /** Filtering never adds nodes. */
  lemma {:induction false} FilterShrinks(node: TreeNode, f: SearchFilters)
    ensures NodeCount(FilterTreeNode(node, f)) <= NodeCount(node)
    decreases node
  {
    if Included(node, f) {
      FilterChildrenShrinks(node.children, f);
    }
  }

  lemma {:induction false} FilterChildrenShrinks(cs: seq<TreeNode>, f: SearchFilters)
    ensures ForestCount(FilterChildren(cs, f)) <= ForestCount(cs)
    decreases cs
  {
    if cs != [] {
      var c := FilterTreeNode(cs[0], f);
      FilterShrinks(cs[0], f);
      FilterChildrenShrinks(cs[1..], f);
      if Kept(c, f) {
        assert FilterChildren(cs, f) == [c] + FilterChildren(cs[1..], f);
        ForestCountCons(c, FilterChildren(cs[1..], f));
      } else {
        assert FilterChildren(cs, f) == FilterChildren(cs[1..], f);
      }
    }
  }

  /** Filtering twice with the same filters is filtering once. */
  lemma {:induction false} FilterIdempotent(node: TreeNode, f: SearchFilters)
    ensures FilterTreeNode(FilterTreeNode(node, f), f) == FilterTreeNode(node, f)
    decreases node
  {
    if Included(node, f) {
      FilterChildrenIdempotent(node.children, f);
    }
  }

  lemma {:induction false} FilterChildrenIdempotent(cs: seq<TreeNode>, f: SearchFilters)
    ensures FilterChildren(FilterChildren(cs, f), f) == FilterChildren(cs, f)
    decreases cs
  {
    if cs != [] {
      var c := FilterTreeNode(cs[0], f);
      var rest := FilterChildren(cs[1..], f);
      FilterChildrenIdempotent(cs[1..], f);
      if Kept(c, f) {
        FilterIdempotent(cs[0], f);
        var both := [c] + rest;
        assert FilterChildren(cs, f) == both;
        assert both[0] == c && both[1..] == rest;
        assert FilterTreeNode(c, f) == c;
        assert FilterChildren(both, f) == [c] + FilterChildren(rest, f);
      } else {
        assert FilterChildren(cs, f) == rest;
      }
    }
  }

  /** A tree whose every type passes the filter comes back unchanged. */
  lemma {:induction false} FilterKeepsIncludedTree(node: TreeNode, f: SearchFilters)
    requires TreeIncluded(node, f)
    ensures FilterTreeNode(node, f) == node
    decreases node
  {
    FilterKeepsIncludedChildren(node.children, f);
  }

  lemma {:induction false} FilterKeepsIncludedChildren(cs: seq<TreeNode>, f: SearchFilters)
    requires ForestIncluded(cs, f)
    ensures FilterChildren(cs, f) == cs
    decreases cs
  {
    if cs != [] {
      assert cs == [cs[0]] + cs[1..];
      ForestIncludedCons(cs[0], cs[1..], f);
      FilterKeepsIncludedTree(cs[0], f);
      FilterKeepsIncludedChildren(cs[1..], f);
    }
  }

  /** `applyFiltersToTree`: the filtered tree, with every other field copied. */
  function ApplyFiltersToTree(t: LabelFamilyTree, f: SearchFilters): (r: LabelFamilyTree)
    ensures r.tree == FilterTreeNode(t.tree, f)
    ensures r.rootLabel == t.rootLabel && r.totalLabels == t.totalLabels && r.totalArtists == t.totalArtists
    ensures r.maxDepth == t.maxDepth && r.lastUpdated == t.lastUpdated
  {
    t.(tree := FilterTreeNode(t.tree, f))
  }

  /** A root with one child of type `t` and nothing below it. */
  function ExampleTree(t: string): LabelFamilyTree {
    var child := TreeNode(Label("c", "Child", None, None), Some(Relationship(t, None, None, None)), [], None, None, 1);
    var root := TreeNode(Label("r", "Root", None, None), None, [child], None, None, 0);
    LabelFamilyTree(root.lbl, root, 2, 0, 1, 0)
  }

  /** The totals are not recomputed: once a label is filtered out, `totalLabels` overcounts the tree. */
  lemma TotalsNotRecomputed()
    ensures var r := ApplyFiltersToTree(ExampleTree("distributor"), DefaultFilters);
      r.totalLabels == 2 && NodeCount(r.tree) == 1
  {
    var r := ApplyFiltersToTree(ExampleTree("distributor"), DefaultFilters);
    assert "distributor" != "parent" && "distributor" != "subsidiary" && "distributor" != "imprint";
    assert r.tree.children == [];
  }

  // ---------------------------------------------------------------------------
  // Toggling a relationship type

  /** `types.filter(x => x !== t)`. */
  function RemoveAll(types: seq<string>, t: string): (r: seq<string>)
    ensures multiset(r) == multiset(types)[t := 0]
  {
    if types == [] then []
    else
      assert types == [types[0]] + types[1..];
      (if types[0] == t then [] else [types[0]]) + RemoveAll(types[1..], t)
  }

  /** Removing from a single type keeps it exactly when it is another type. */
  lemma RemoveAllSingle(x: string, t: string)
    ensures RemoveAll([x], t) == if x == t then [] else [x]
  {
    assert [x][1..] == [];
  }

  /** Removal works piece by piece, so the remaining types keep their relative order. */
  lemma {:induction false} RemoveAllSplit(a: seq<string>, b: seq<string>, t: string)
    ensures RemoveAll(a + b, t) == RemoveAll(a, t) + RemoveAll(b, t)
  {
    if a == [] {
      assert a + b == b;
    } else {
      assert (a + b)[0] == a[0] && (a + b)[1..] == a[1..] + b;
      RemoveAllSplit(a[1..], b, t);
    }
  }

  /** The test `x !== t` of the source's filter. */
  function OtherThan(t: string): string -> bool {
    x => x != t
  }

  /** Removal is the array `filter` with `x !== t`: the other types, in their order. */
  lemma {:induction false} RemoveAllIsFilter(types: seq<string>, t: string)
    ensures RemoveAll(types, t) == Seqs.Filter(types, OtherThan(t))
  {
    if types != [] {
      RemoveAllIsFilter(types[1..], t);
    }
  }

  /** `toggleRelationshipType`: drop every occurrence of a present type, or append an absent one. */
  function ToggleType(types: seq<string>, t: string): (r: seq<string>)
    ensures t in types ==> r == RemoveAll(types, t) == Seqs.Filter(types, OtherThan(t))
    ensures t !in types ==> r == types + [t]
  {
    RemoveAllIsFilter(types, t);
    if t in types then RemoveAll(types, t) else types + [t]
  }

  /** The toggle flips whether `t` is selected and leaves every other type's multiplicity alone. */
  lemma ToggleFlips(types: seq<string>, t: string)
    ensures t in ToggleType(types, t) <==> t !in types
    ensures forall x :: x != t ==> multiset(ToggleType(types, t))[x] == multiset(types)[x]
  {
    var r := ToggleType(types, t);
    assert t in r <==> t in multiset(r);
    assert t in types <==> t in multiset(types);
  }

  lemma {:induction false} RemoveAllAbsent(types: seq<string>, t: string)
    requires t !in types
    ensures RemoveAll(types, t) == types
  {
    if types != [] {
      RemoveAllAbsent(types[1..], t);
      assert types == [types[0]] + types[1..];
    }
  }

  /** Toggling a type that was not selected, then toggling it again, restores the list. */
  lemma {:induction false} ToggleTwice(types: seq<string>, t: string)
    requires t !in types
    ensures ToggleType(ToggleType(types, t), t) == types
  {
    var s := types + [t];
    RemoveAllAppend(types, t);
    RemoveAllAbsent(types, t);
  }

  lemma {:induction false} RemoveAllAppend(types: seq<string>, t: string)
    ensures RemoveAll(types + [t], t) == RemoveAll(types, t)
  {
    if types == [] {
      assert types + [t] == [t];
    } else {
      assert (types + [t])[0] == types[0] && (types + [t])[1..] == types[1..] + [t];
      RemoveAllAppend(types[1..], t);
    }
  }

  // ---------------------------------------------------------------------------
  // CSV export

  const CsvHeader := "Label Name,Type,Country,Relationship Type,Parent Label,Depth,Artist Count\n"

  /** A template interpolation of an optional field: `undefined` when it is absent. */
  function Interpolated(o: Option<string>): string {
    if o.Some? then o.value else "undefined"
  }

  /** `relationship?.type || 'root'`. */
  function RelationshipColumn(n: TreeNode): (s: string)
    ensures n.relationship.None? ==> s == "root"
    ensures n.relationship.Some? && n.relationship.value.relType != "" ==> s == n.relationship.value.relType
  {
    if n.relationship.Some? && n.relationship.value.relType != "" then n.relationship.value.relType else "root"
  }

  /** `artistRoster?.length || 0`. */
  function ArtistCountColumn(n: TreeNode): (k: nat)
    ensures n.artistRoster.None? ==> k == 0
    ensures n.artistRoster.Some? ==> k == |n.artistRoster.value|
  {
    if n.artistRoster.Some? then |n.artistRoster.value| else 0
  }

  /** The CSV line of one node under the parent named `parent`. */
  function CsvRow(n: TreeNode, parent: string): string {
    "\"" + n.lbl.name + "\",\"" + Interpolated(n.lbl.labelType) + "\",\""
    + Interpolated(n.lbl.country) + "\",\"" + RelationshipColumn(n) + "\",\""
    + parent + "\"," + IntToString(n.depth) + "," + IntToString(ArtistCountColumn(n)) + "\n"
  }

  /** The nodes of a tree in pre-order, each with the name of its parent. */
  function PreOrder(n: TreeNode, parent: string): seq<(TreeNode, string)>
    decreases n
  {
    [(n, parent)] + ForestPreOrder(n.children, n.lbl.name)
  }

  function ForestPreOrder(cs: seq<TreeNode>, parent: string): seq<(TreeNode, string)>
    decreases cs
  {
    if cs == [] then [] else PreOrder(cs[0], parent) + ForestPreOrder(cs[1..], parent)
  }

  /** One CSV line per visited node, in visiting order. */
  function CsvLines(visits: seq<(TreeNode, string)>): string {
    if visits == [] then "" else CsvRow(visits[0].0, visits[0].1) + CsvLines(visits[1..])
  }

  lemma {:induction false} CsvLinesSplit(a: seq<(TreeNode, string)>, b: seq<(TreeNode, string)>)
    ensures CsvLines(a + b) == CsvLines(a) + CsvLines(b)
  {
    if a == [] {
      assert a + b == b;
    } else {
      assert (a + b)[0] == a[0] && (a + b)[1..] == a[1..] + b;
      CsvLinesSplit(a[1..], b);
    }
  }

  lemma {:induction false} ForestPreOrderAppend(cs: seq<TreeNode>, c: TreeNode, parent: string)
    ensures ForestPreOrder(cs + [c], parent) == ForestPreOrder(cs, parent) + PreOrder(c, parent)
  {
    if cs == [] {
      assert cs + [c] == [c];
      assert [c][1..] == [];
    } else {
      assert (cs + [c])[0] == cs[0] && (cs + [c])[1..] == cs[1..] + [c];
      ForestPreOrderAppend(cs[1..], c, parent);
    }
  }

  /** `convertTreeToCsv`: the header, then one line per node in pre-order. */
  method ConvertTreeToCsv(node: TreeNode, parentName: string) returns (csv: string)
    ensures csv == CsvHeader + CsvLines(PreOrder(node, parentName))
  {
    csv := CsvHeader;
    csv := AddNodeToCsv(node, parentName, csv);
  }

  /** The recursive `addNodeToCsv`: appends a node's line, then its children's subtrees. */
  method AddNodeToCsv(n: TreeNode, parent: string, csv0: string) returns (csv: string)
    ensures csv == csv0 + CsvLines(PreOrder(n, parent))
    decreases n, 1
  {
    CsvFirstRow(n, parent);
    csv := csv0 + CsvRow(n, parent);
    csv := AddChildrenToCsv(n.children, n.lbl.name, csv);
    AppendAssoc(csv0, CsvRow(n, parent), CsvLines(ForestPreOrder(n.children, n.lbl.name)));
  }

  /** The `forEach` over a node's children, each added with the node's name as parent. */
  method AddChildrenToCsv(cs: seq<TreeNode>, parent: string, csv0: string) returns (csv: string)
    ensures csv == csv0 + CsvLines(ForestPreOrder(cs, parent))
    decreases cs, 0
  {
    csv := csv0;
    var i := 0;
    while i < |cs|
      invariant 0 <= i <= |cs|
      invariant csv == csv0 + CsvLines(ForestPreOrder(cs[..i], parent))
    {
      ghost var done := CsvLines(ForestPreOrder(cs[..i], parent));
      ghost var next := CsvLines(PreOrder(cs[i], parent));
      CsvStep(cs, i, parent);
      csv := AddNodeToCsv(cs[i], parent, csv);
      AppendAssoc(csv0, done, next);
      i := i + 1;
    }
    assert cs[..i] == cs;
  }

  /** The lines of the first `i + 1` subtrees are those of the first `i`, then those of the next. */
  lemma CsvStep(cs: seq<TreeNode>, i: int, parent: string)
    requires 0 <= i < |cs|
    ensures CsvLines(ForestPreOrder(cs[..i + 1], parent))
      == CsvLines(ForestPreOrder(cs[..i], parent)) + CsvLines(PreOrder(cs[i], parent))
  {
    var done := ForestPreOrder(cs[..i], parent);
    var next := PreOrder(cs[i], parent);
    assert cs[..i + 1] == cs[..i] + [cs[i]];
    ForestPreOrderAppend(cs[..i], cs[i], parent);
    CsvLinesSplit(done, next);
  }

  /** A node's lines are its own, then those of its children's subtrees. */
  lemma CsvFirstRow(n: TreeNode, parent: string)
    ensures CsvLines(PreOrder(n, parent))
      == CsvRow(n, parent) + CsvLines(ForestPreOrder(n.children, n.lbl.name))
  {
    var rest := ForestPreOrder(n.children, n.lbl.name);
    CsvLinesSplit([(n, parent)], rest);
  }

  /** There is exactly one line per node. */
  lemma {:induction false} PreOrderLength(n: TreeNode, parent: string)
    ensures |PreOrder(n, parent)| == NodeCount(n)
    decreases n
  {
    ForestPreOrderLength(n.children, n.lbl.name);
  }

  lemma {:induction false} ForestPreOrderLength(cs: seq<TreeNode>, parent: string)
    ensures |ForestPreOrder(cs, parent)| == ForestCount(cs)
    decreases cs
  {
    if cs != [] {
      PreOrderLength(cs[0], parent);
      ForestPreOrderLength(cs[1..], parent);
    }
  }

  /** Some earlier visit is of a node that has the `k`-th visited node as a child, and is named in its parent column. */
  ghost predicate ParentBefore(visits: seq<(TreeNode, string)>, k: int)
    requires 0 <= k < |visits|
  {
    exists j :: 0 <= j < k && visits[k].0 in visits[j].0.children && visits[k].1 == visits[j].0.lbl.name
  }

  /**
   * The first line is the root with the given parent name; every later line
   * comes after its parent's line and names that parent.
   */
  lemma PreOrderParents(n: TreeNode, parent: string)
    ensures PreOrder(n, parent)[0] == (n, parent)
    ensures forall k :: 0 < k < |PreOrder(n, parent)| ==> ParentBefore(PreOrder(n, parent), k)
  {
    var po := PreOrder(n, parent);
    var fo := ForestPreOrder(n.children, n.lbl.name);
    ForestPreOrderParents(n.children, n.lbl.name);
    forall k | 0 < k < |po|
      ensures ParentBefore(po, k)
    {
      TreeParentAt(n, parent, k);
    }
  }

  /** The `k`-th visit of a tree: a child of the root, or a visit whose parent came earlier among the children's visits. */
  lemma TreeParentAt(n: TreeNode, parent: string, k: int)
    requires 0 < k < |PreOrder(n, parent)|
    requires var fo := ForestPreOrder(n.children, n.lbl.name);
      (fo[k - 1].0 in n.children && fo[k - 1].1 == n.lbl.name) || ParentBefore(fo, k - 1)
    ensures ParentBefore(PreOrder(n, parent), k)
  {
    var po := PreOrder(n, parent);
    var fo := ForestPreOrder(n.children, n.lbl.name);
    assert po == [(n, parent)] + fo;
    if fo[k - 1].0 in n.children && fo[k - 1].1 == n.lbl.name {
      ParentBeforeAt(po, 0, k);
    } else {
      ParentBeforeCons((n, parent), fo, k - 1);
    }
  }

  lemma ParentBeforeAt(visits: seq<(TreeNode, string)>, j: int, k: int)
    requires 0 <= j < k < |visits|
    requires visits[k].0 in visits[j].0.children && visits[k].1 == visits[j].0.lbl.name
    ensures ParentBefore(visits, k)
  {
  }

  /** A visit put in front of others keeps every parent before its child. */
  lemma ParentBeforeCons(x: (TreeNode, string), visits: seq<(TreeNode, string)>, k: int)
    requires 0 <= k < |visits| && ParentBefore(visits, k)
    ensures ParentBefore([x] + visits, k + 1)
  {
    var j :| 0 <= j < k && visits[k].0 in visits[j].0.children && visits[k].1 == visits[j].0.lbl.name;
    assert ([x] + visits)[j + 1] == visits[j] && ([x] + visits)[k + 1] == visits[k];
  }

  /** In a forest's visit, every line is of a top-level node under `parent`, or follows its parent's line. */
  lemma {:induction false} ForestPreOrderParents(cs: seq<TreeNode>, parent: string)
    ensures forall k :: 0 <= k < |ForestPreOrder(cs, parent)| ==>
      (ForestPreOrder(cs, parent)[k].0 in cs && ForestPreOrder(cs, parent)[k].1 == parent)
      || ParentBefore(ForestPreOrder(cs, parent), k)
    decreases cs
  {
    if cs != [] {
      var head := PreOrder(cs[0], parent);
      var tail := ForestPreOrder(cs[1..], parent);
      var fo := head + tail;
      PreOrderParents(cs[0], parent);
      ForestPreOrderParents(cs[1..], parent);
      forall k | 0 <= k < |fo|
        ensures (fo[k].0 in cs && fo[k].1 == parent) || ParentBefore(fo, k)
      {
        if k < |head| {
          assert fo[k] == head[k];
          if k > 0 {
            assert ParentBefore(head, k);
            var j :| 0 <= j < k && head[k].0 in head[j].0.children && head[k].1 == head[j].0.lbl.name;
            assert fo[j] == head[j];
          }
        } else {
          var m := k - |head|;
          assert fo[k] == tail[m];
          if tail[m].0 in cs[1..] && tail[m].1 == parent {
            assert tail[m].0 in cs;
          } else {
            assert ParentBefore(tail, m);
            var j :| 0 <= j < m && tail[m].0 in tail[j].0.children && tail[m].1 == tail[j].0.lbl.name;
            assert fo[j + |head|] == tail[j];
          }
        }
      }
    }
  }

  // ---------------------------------------------------------------------------
  // The component's search and tree state

  const SearchFailedMessage := "Search failed"
  const TreeFailedMessage := "Failed to load family tree"
  /** The depth the family tree of a selected label is built to. */
  const TreeDepth := 3
  /** The number of labels a search asks for. */
  const SearchLimit := 20

  /** `updateFilters`: the fields given replace the current ones. */
  datatype FiltersPatch = FiltersPatch(
    relationshipTypes: Option<seq<string>>,
    countries: Option<seq<string>>,
    activeOnly: Option<bool>,
    hasArtists: Option<bool>)

  /** `{ ...current, ...patch }`. */
  function PatchFilters(current: SearchFilters, p: FiltersPatch): (r: SearchFilters)
    ensures r.relationshipTypes == p.relationshipTypes.GetOr(current.relationshipTypes)
    ensures r.countries == p.countries.GetOr(current.countries)
    ensures r.activeOnly == p.activeOnly.GetOr(current.activeOnly)
    ensures r.hasArtists == p.hasArtists.GetOr(current.hasArtists)
  {
    SearchFilters(
      p.relationshipTypes.GetOr(current.relationshipTypes),
      p.countries.GetOr(current.countries),
      p.activeOnly.GetOr(current.activeOnly),
      p.hasArtists.GetOr(current.hasArtists))
  }

  /** An empty patch changes nothing, and applying a patch twice is applying it once. */
  lemma PatchFiltersIdempotent(current: SearchFilters, p: FiltersPatch)
    ensures PatchFilters(current, FiltersPatch(None, None, None, None)) == current
    ensures PatchFilters(PatchFilters(current, p), p) == PatchFilters(current, p)
  {
  }

  datatype ExportFormat = Json | Csv

  /** What `exportTree` writes: nothing without a tree, the filtered tree as JSON, or the CSV text. */
  datatype Export = NoExport | JsonExport(tree: LabelFamilyTree) | CsvExport(text: string)

  class LabelFamilyTreeView {
    var searchText: string
    /** The last query that passed `distinctUntilChanged`. */
    var lastQuery: Option<string>
    var searchResults: seq<Label>
    var selectedLabel: Option<Label>
    var familyTree: Option<LabelFamilyTree>
    var isSearching: bool
    var isLoadingTree: bool
    var isActivelySearching: bool
    var error: Option<string>
    var filters: SearchFilters
    var showFilters: bool

    constructor ()
      ensures searchText == "" && lastQuery == None && searchResults == [] && selectedLabel == None
      ensures familyTree == None && !isSearching && !isLoadingTree && !isActivelySearching && error == None
      ensures filters == DefaultFilters && !showFilters
    {
      searchText := "";
      lastQuery := None;
      searchResults := [];
      selectedLabel := None;
      familyTree := None;
      isSearching := false;
      isLoadingTree := false;
      isActivelySearching := false;
      error := None;
      filters := DefaultFilters;
      showFilters := false;
    }

    /** The `filteredTree` computed: the loaded tree with the current filters applied. */
    function FilteredTree(): (r: Option<LabelFamilyTree>)
      reads this
      ensures familyTree.None? <==> r.None?
      ensures r.Some? ==> r.value.tree == FilterTreeNode(familyTree.value.tree, filters)
    {
      if familyTree.None? then None else Some(ApplyFiltersToTree(familyTree.value, filters))
    }

    /**
     * A debounced value of the search box reaches the subscription. A repeat
     * of the previous value does nothing; otherwise the search is active, and
     * `performSearch` clears the results for the empty text or starts a label
     * search for any other.
     */
    method QueryReached(query: string) returns (search: Option<(string, int)>)
      modifies this
      ensures old(lastQuery) == Some(query) ==>
        && search == None && lastQuery == old(lastQuery) && searchResults == old(searchResults)
        && isActivelySearching == old(isActivelySearching) && isSearching == old(isSearching) && error == old(error)
      ensures old(lastQuery) != Some(query) && query == "" ==>
        && search == None && lastQuery == Some(query) && searchResults == [] && !isActivelySearching
        && isSearching == old(isSearching) && error == old(error)
      ensures old(lastQuery) != Some(query) && query != "" ==>
        && search == Some((query, SearchLimit)) && lastQuery == Some(query) && searchResults == old(searchResults)
        && isActivelySearching
        && isSearching && error == None
      ensures searchText == old(searchText) && selectedLabel == old(selectedLabel) && familyTree == old(familyTree)
      ensures isLoadingTree == old(isLoadingTree) && filters == old(filters) && showFilters == old(showFilters)
    {
      if lastQuery == Some(query) {
        return None;
      }
      lastQuery := Some(query);
      isActivelySearching := true;
      if query == "" {
        searchResults := [];
        isActivelySearching := false;
        return None;
      }
      isSearching := true;
      error := None;
      search := Some((query, SearchLimit));
    }

    /**
     * The answer of a label search: its labels, or no labels and the
     * failure's message. Answers are not matched to the query that asked.
     */
    method SearchAnswered(answer: Outcome<seq<Label>>)
      modifies this
      ensures !isSearching
      ensures answer.Ok? ==> searchResults == answer.value && error == old(error)
      ensures answer.Err? ==> searchResults == [] && error == Some(OrElse(Some(answer.message), SearchFailedMessage))
      ensures searchText == old(searchText) && lastQuery == old(lastQuery) && selectedLabel == old(selectedLabel)
      ensures familyTree == old(familyTree) && isLoadingTree == old(isLoadingTree)
      ensures isActivelySearching == old(isActivelySearching) && filters == old(filters) && showFilters == old(showFilters)
    {
      match answer {
        case Ok(labels) =>
          searchResults := labels;
        case Err(message) =>
          error := Some(OrElse(Some(message), SearchFailedMessage));
          searchResults := [];
      }
      isSearching := false;
    }

    /**
     * `selectLabel`: the label is selected, the results close, its name fills
     * the box without reaching the search, and its family tree is asked for.
     */
    method SelectLabel(lbl: Label) returns (treeOf: (string, int))
      modifies this
      ensures treeOf == (lbl.id, TreeDepth)
      ensures selectedLabel == Some(lbl) && searchResults == [] && !isActivelySearching && searchText == lbl.name
      ensures isLoadingTree && error == None
      ensures lastQuery == old(lastQuery) && familyTree == old(familyTree) && isSearching == old(isSearching)
      ensures filters == old(filters) && showFilters == old(showFilters)
    {
      selectedLabel := Some(lbl);
      searchResults := [];
      isActivelySearching := false;
      searchText := lbl.name;
      isLoadingTree := true;
      error := None;
      treeOf := (lbl.id, TreeDepth);
    }

    /** The family tree arrived, or its loading failed with a message. */
    method TreeAnswered(answer: Outcome<LabelFamilyTree>)
      modifies this
      ensures !isLoadingTree
      ensures answer.Ok? ==> familyTree == Some(answer.value) && error == old(error)
      ensures answer.Err? ==> familyTree == old(familyTree) && error == Some(OrElse(Some(answer.message), TreeFailedMessage))
      ensures searchText == old(searchText) && lastQuery == old(lastQuery) && searchResults == old(searchResults)
      ensures selectedLabel == old(selectedLabel) && isSearching == old(isSearching)
      ensures isActivelySearching == old(isActivelySearching) && filters == old(filters) && showFilters == old(showFilters)
    {
      match answer {
        case Ok(t) =>
          familyTree := Some(t);
        case Err(message) =>
          error := Some(OrElse(Some(message), TreeFailedMessage));
      }
      isLoadingTree := false;
    }

    method ToggleFilters()
      modifies this
      ensures showFilters == !old(showFilters)
      ensures filters == old(filters) && familyTree == old(familyTree) && searchResults == old(searchResults)
      ensures searchText == old(searchText) && lastQuery == old(lastQuery) && selectedLabel == old(selectedLabel)
      ensures isSearching == old(isSearching) && isLoadingTree == old(isLoadingTree)
      ensures isActivelySearching == old(isActivelySearching) && error == old(error)
    {
      showFilters := !showFilters;
    }

    method UpdateFilters(p: FiltersPatch)
      modifies this
      ensures filters == PatchFilters(old(filters), p)
      ensures showFilters == old(showFilters) && familyTree == old(familyTree) && searchResults == old(searchResults)
      ensures searchText == old(searchText) && lastQuery == old(lastQuery) && selectedLabel == old(selectedLabel)
      ensures isSearching == old(isSearching) && isLoadingTree == old(isLoadingTree)
      ensures isActivelySearching == old(isActivelySearching) && error == old(error)
    {
      filters := PatchFilters(filters, p);
    }

    method ToggleRelationshipType(t: string)
      modifies this
      ensures filters == old(filters).(relationshipTypes := ToggleType(old(filters.relationshipTypes), t))
      ensures showFilters == old(showFilters) && familyTree == old(familyTree) && searchResults == old(searchResults)
      ensures searchText == old(searchText) && lastQuery == old(lastQuery) && selectedLabel == old(selectedLabel)
      ensures isSearching == old(isSearching) && isLoadingTree == old(isLoadingTree)
      ensures isActivelySearching == old(isActivelySearching) && error == old(error)
    {
      filters := filters.(relationshipTypes := ToggleType(filters.relationshipTypes, t));
    }

    /** `exportTree`: the filtered tree as JSON, or its CSV text; nothing without a tree. */
    method ExportTree(format: ExportFormat) returns (r: Export)
      ensures familyTree.None? ==> r == NoExport
      ensures familyTree.Some? && format == Json ==> r == JsonExport(FilteredTree().value)
      ensures familyTree.Some? && format == Csv ==> r == CsvExport(CsvHeader + CsvLines(PreOrder(FilteredTree().value.tree, "")))
    {
      var tree := FilteredTree();
      if tree.None? {
        return NoExport;
      }
      if format == Json {
        return JsonExport(tree.value);
      }
      var text := ConvertTreeToCsv(tree.value.tree, "");
      r := CsvExport(text);
    }

    /**
     * `clearSearch`: empties the box, results, selection, tree and error;
     * the box is set without emitting, so the last query is still remembered.
     */
    method ClearSearch()
      modifies this
      ensures searchText == "" && searchResults == [] && selectedLabel == None && familyTree == None
      ensures !isActivelySearching && error == None
      ensures lastQuery == old(lastQuery) && isSearching == old(isSearching) && isLoadingTree == old(isLoadingTree)
      ensures filters == old(filters) && showFilters == old(showFilters)
      ensures FilteredTree() == None
    {
      searchText := "";
      searchResults := [];
      selectedLabel := None;
      familyTree := None;
      isActivelySearching := false;
      error := None;
    }

    /** `clearSearch` with the empty value passed on to the search, as a repeat of the old query then needs. */
    method ClearSearchForgettingQuery()
      modifies this
      ensures searchText == "" && searchResults == [] && selectedLabel == None && familyTree == None
      ensures !isActivelySearching && error == None
      ensures lastQuery == Some("") && isSearching == old(isSearching) && isLoadingTree == old(isLoadingTree)
      ensures filters == old(filters) && showFilters == old(showFilters)
    {
      ClearSearch();
      var search := QueryReached("");
    }
  }

  /**
   * After `clearSearch`, the query searched just before reaches the search
   * again only as a repeat, and is dropped: the results stay empty.
   */
  method RepeatAfterClearIgnored(query: string) returns (searchedAgain: bool, results: seq<Label>)
    requires query != ""
    ensures !searchedAgain && results == []
  {
    var view := new LabelFamilyTreeView();
    var first := view.QueryReached(query);
    view.ClearSearch();
    var again := view.QueryReached(query);
    searchedAgain := again.Some?;
    results := view.searchResults;
  }

  /** When clearing passes the empty value on, the same query is searched again. */
  method RepeatAfterClearSearched(query: string) returns (searchedAgain: bool)
    requires query != ""
    ensures searchedAgain
  {
    var view := new LabelFamilyTreeView();
    var first := view.QueryReached(query);
    view.ClearSearchForgettingQuery();
    var again := view.QueryReached(query);
    searchedAgain := again.Some?;
  }

  /**
   * Searches are not cancelled: when the answer of an older query arrives
   * after that of a newer one, its labels are the results shown.
   */
  method LateAnswerWins(older: string, newer: string, forOlder: seq<Label>, forNewer: seq<Label>)
    returns (shown: seq<Label>)
    requires older != "" && newer != "" && older != newer
    ensures shown == forOlder
  {
    var view := new LabelFamilyTreeView();
    var a := view.QueryReached(older);
    var b := view.QueryReached(newer);
    view.SearchAnswered(Ok(forNewer));
    view.SearchAnswered(Ok(forOlder));
    shown := view.searchResults;
  }

  // ---------------------------------------------------------------------------
  // Keeping the ancestors of surviving nodes

  /** The number of nodes of a tree that pass the relationship test. */
  function IncludedCount(n: TreeNode, f: SearchFilters): nat
    decreases n
  {
    (if Included(n, f) then 1 else 0) + ForestIncludedCount(n.children, f)
  }

  function ForestIncludedCount(cs: seq<TreeNode>, f: SearchFilters): nat
    decreases cs
  {
    if cs == [] then 0 else IncludedCount(cs[0], f) + ForestIncludedCount(cs[1..], f)
  }

  /** Root, then an excluded `distributor` label, then an included `imprint` below it. */
  function BuriedImprint(): TreeNode {
    var leaf := TreeNode(Label("i", "Imprint", None, None), Some(Relationship("imprint", None, None, None)), [], None, None, 2);
    var mid := TreeNode(Label("d", "Distributor", None, None), Some(Relationship("distributor", None, None, None)), [leaf], None, None, 1);
    TreeNode(Label("r", "Root", None, None), None, [mid], None, None, 0)
  }

  /** As written, an included label under an excluded one disappears with it. */
  lemma IncludedDescendantDropped()
    ensures IncludedCount(BuriedImprint(), DefaultFilters) == 2
    ensures FilterTreeNode(BuriedImprint(), DefaultFilters).children == []
  {
    var root := BuriedImprint();
    var mid := root.children[0];
    var leaf := mid.children[0];
    assert "distributor" != "parent" && "distributor" != "subsidiary" && "distributor" != "imprint";
    assert !Included(mid, DefaultFilters) && Included(leaf, DefaultFilters);
    assert root.children[1..] == [] && mid.children[1..] == [];
    assert IncludedCount(leaf, DefaultFilters) == 1;
    assert IncludedCount(mid, DefaultFilters) == 1;
    assert FilterChildren(root.children, DefaultFilters) == [];
  }

  /**
   * Filtering that recurses into every node first, so that an excluded node
   * stays, with its surviving children, whenever something below it passes.
   */
  function FilterKeepingAncestors(node: TreeNode, f: SearchFilters): (r: TreeNode)
    ensures r == node.(children := r.children)
    decreases node
  {
    node.(children := KeepingAncestorsChildren(node.children, f))
  }

  function KeepingAncestorsChildren(cs: seq<TreeNode>, f: SearchFilters): seq<TreeNode>
    decreases cs
  {
    if cs == [] then []
    else
      var c := FilterKeepingAncestors(cs[0], f);
      (if Kept(c, f) then [c] else []) + KeepingAncestorsChildren(cs[1..], f)
  }

  lemma IncludedCountCons(c: TreeNode, rest: seq<TreeNode>, f: SearchFilters)
    ensures ForestIncludedCount([c] + rest, f) == IncludedCount(c, f) + ForestIncludedCount(rest, f)
  {
    assert ([c] + rest)[1..] == rest;
  }

  /** No included label is lost: the corrected filter keeps every node that passes. */
  lemma {:induction false} KeepingAncestorsKeepsIncluded(node: TreeNode, f: SearchFilters)
    ensures IncludedCount(FilterKeepingAncestors(node, f), f) == IncludedCount(node, f)
    decreases node
  {
    KeepingAncestorsChildrenKeepIncluded(node.children, f);
  }

  lemma {:induction false} KeepingAncestorsChildrenKeepIncluded(cs: seq<TreeNode>, f: SearchFilters)
    ensures ForestIncludedCount(KeepingAncestorsChildren(cs, f), f) == ForestIncludedCount(cs, f)
    decreases cs
  {
    if cs != [] {
      var c := FilterKeepingAncestors(cs[0], f);
      KeepingAncestorsKeepsIncluded(cs[0], f);
      KeepingAncestorsChildrenKeepIncluded(cs[1..], f);
      if Kept(c, f) {
        assert KeepingAncestorsChildren(cs, f) == [c] + KeepingAncestorsChildren(cs[1..], f);
        IncludedCountCons(c, KeepingAncestorsChildren(cs[1..], f), f);
      } else {
        assert !Included(cs[0], f) && c.children == [];
        assert IncludedCount(c, f) == 0;
        assert KeepingAncestorsChildren(cs, f) == KeepingAncestorsChildren(cs[1..], f);
      }
    }
  }

  /** Every node of `cs` passes the test or has a node below it that does, and so on all the way down. */
  ghost predicate ForestJustified(cs: seq<TreeNode>, f: SearchFilters)
    decreases cs
  {
    forall i :: 0 <= i < |cs| ==> IncludedCount(cs[i], f) > 0 && ForestJustified(cs[i].children, f)
  }

  lemma ForestJustifiedCons(c: TreeNode, rest: seq<TreeNode>, f: SearchFilters)
    requires IncludedCount(c, f) > 0 && ForestJustified(c.children, f) && ForestJustified(rest, f)
    ensures ForestJustified([c] + rest, f)
  {
    var cs := [c] + rest;
    assert forall i :: 1 <= i < |cs| ==> cs[i] == rest[i - 1];
  }

  /**
   * The corrected filter still prunes: every node it keeps below the root
   * passes the test or has a passing node below it, so an excluded subtree
   * without any passing node is dropped.
   */
  lemma {:induction false} KeepingAncestorsPrunes(node: TreeNode, f: SearchFilters)
    ensures ForestJustified(FilterKeepingAncestors(node, f).children, f)
    decreases node
  {
    KeepingAncestorsChildrenPrune(node.children, f);
  }

  lemma {:induction false} KeepingAncestorsChildrenPrune(cs: seq<TreeNode>, f: SearchFilters)
    ensures ForestJustified(KeepingAncestorsChildren(cs, f), f)
    decreases cs
  {
    if cs != [] {
      var c := FilterKeepingAncestors(cs[0], f);
      var rest := KeepingAncestorsChildren(cs[1..], f);
      KeepingAncestorsPrunes(cs[0], f);
      KeepingAncestorsChildrenPrune(cs[1..], f);
      if Kept(c, f) {
        if !Included(c, f) {
          assert IncludedCount(c.children[0], f) > 0;
          assert ForestIncludedCount(c.children, f) > 0;
        }
        ForestJustifiedCons(c, rest, f);
        assert KeepingAncestorsChildren(cs, f) == [c] + rest;
      }
    }
  }

  /** On the example the corrected filter keeps the imprint and the label above it. */
  lemma KeepingAncestorsKeepsBuriedImprint()
    ensures |FilterKeepingAncestors(BuriedImprint(), DefaultFilters).children| == 1
  {
    KeepingAncestorsKeepsIncluded(BuriedImprint(), DefaultFilters);
    IncludedDescendantDropped();
    var r := FilterKeepingAncestors(BuriedImprint(), DefaultFilters);
    assert !Included(r, DefaultFilters) || IncludedCount(r, DefaultFilters) == 1 + ForestIncludedCount(r.children, DefaultFilters);
    assert r.children != [];
  }
}
