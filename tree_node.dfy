/**
 * One node of the label family tree as displayed: the texts and classes
 * computed from the node, the icon of its label type, and its expansion
 * state, which only a node with children can change.
 */
module TreeNodeView {
  import opened Wrappers
  import opened Text
  import opened Seqs
  import opened Models

  // ---------------------------------------------------------------------------
  // Computed values

  /** `hasChildren`. */
  predicate HasChildren(node: TreeNode) {
    |node.children| > 0
  }

  /** `artistCount`: the length of the roster, 0 without one. */
  function ArtistCount(node: TreeNode): (n: nat)
    ensures node.artistRoster.Some? ==> n == |node.artistRoster.value|
    ensures node.artistRoster.None? ==> n == 0
    ensures n > 0 <==> node.artistRoster.Some? && exists e :: e in node.artistRoster.value
  {
    if node.artistRoster.Some? then
      var roster := node.artistRoster.value;
      assert |roster| > 0 ==> roster[0] in roster;
      |roster|
    else 0
  }

  /**
   * `relationshipText`: `Root Label` for the root; otherwise the relationship
   * type with its first `-` made a space and its first character upper-cased.
   */
  function RelationshipText(node: TreeNode): (t: string)
    ensures node.relationship.None? ==> t == "Root Label"
    ensures node.relationship.Some? ==> |t| == |node.relationship.value.relType|
  {
    match node.relationship
    case None => "Root Label"
    case Some(rel) =>
      var ty := ReplaceFirst(rel.relType, '-', ' ');
      if ty == [] then [] else [UpperChar(ty[0])] + ty[1..]
  }

  /** A type without `-` is only capitalised. */
  lemma RelationshipTextPlain(node: TreeNode, ty: string)
    requires node.relationship.Some? && node.relationship.value.relType == ty
    requires ty != [] && '-' !in ty
    ensures RelationshipText(node) == [UpperChar(ty[0])] + ty[1..]
  {
  }

  /**
   * In `head-tail` with `head` free of `-`, that first `-` becomes a space and
   * every later `-` of `tail` stays.
   */
  lemma RelationshipTextFirstDashOnly(node: TreeNode, head: string, tail: string)
    requires head != [] && '-' !in head
    requires node.relationship.Some? && node.relationship.value.relType == head + "-" + tail
    ensures RelationshipText(node) == [UpperChar(head[0])] + head[1..] + " " + tail
  {
    ReplaceFirstAt(head, tail, '-', ' ');
    var r := head + " " + tail;
    assert r[0] == head[0] && r[1..] == head[1..] + " " + tail;
  }

  /** `relationshipAttributes`: the relationship's attributes; none for the root or a relationship without them. */
  function RelationshipAttributes(node: TreeNode): (r: seq<string>)
    ensures node.relationship.None? || node.relationship.value.attributes.None? ==> r == []
    ensures node.relationship.Some? && node.relationship.value.attributes.Some? ==>
      r == node.relationship.value.attributes.value
  {
    match node.relationship
    case None => []
    case Some(rel) => rel.attributes.GetOr([])
  }

  /** `hasAttributes`. */
  predicate HasAttributes(node: TreeNode) {
    |RelationshipAttributes(node)| > 0
  }

  /** `depthClass`: `depth-` and the depth, capped at 5. */
  function DepthClass(depth: int): (c: string)
    ensures |c| >= 7 && c[..6] == "depth-"
  {
    var d := if depth < 5 then depth else 5;
    var r := "depth-" + IntToString(d);
    assert r[..6] == "depth-";
    r
  }

  /** A non-negative depth gives one of the six classes `depth-0` .. `depth-5`. */
  lemma DepthClassOfDepth(depth: int)
    requires depth >= 0
    ensures depth < 5 ==> DepthClass(depth) == "depth-" + [DigitChar(depth)]
    ensures depth >= 5 ==> DepthClass(depth) == "depth-5"
  {
    if depth >= 5 {
      assert NatToString(5) == [DigitChar(5)];
      assert DigitChar(5) == '5';
    }
  }

  /** A negative depth is not capped from below: its class carries the minus sign. */
  lemma DepthClassNegative(depth: int)
    requires depth < 0
    ensures DepthClass(depth)[6] == '-'
  {
  }

  /** The classes of the connection line, before they are joined. */
  function ConnectionClasses(node: TreeNode): seq<string> {
    ["connection-line"]
    + (if node.depth > 0 then ["has-parent"] else [])
    + (if HasChildren(node) then ["has-children"] else [])
  }

  /** `getConnectionLineClass`: the classes separated by single spaces. */
  function ConnectionLineClass(node: TreeNode): string {
    Join(ConnectionClasses(node), " ")
  }

  /**
   * `connection-line`, then ` has-parent` exactly below the root depth, then
   * ` has-children` exactly when there are children, in that order.
   */
  lemma ConnectionLineClassText(node: TreeNode)
    ensures ConnectionLineClass(node) ==
      "connection-line"
      + (if node.depth > 0 then " has-parent" else "")
      + (if HasChildren(node) then " has-children" else "")
  {
    var first := ["connection-line"] + (if node.depth > 0 then ["has-parent"] else []);
    JoinAppend([], "connection-line", " ");
    if node.depth > 0 {
      JoinAppend(["connection-line"], "has-parent", " ");
    }
    assert Join(first, " ") == "connection-line" + (if node.depth > 0 then " has-parent" else "");
    if HasChildren(node) {
      JoinAppend(first, "has-children", " ");
      assert ConnectionClasses(node) == first + ["has-children"];
    } else {
      assert ConnectionClasses(node) == first;
    }
  }

  /** `formatDateRange`: `B - E`, `B - present`, `Until E` or nothing. */
  function FormatDateRange(node: TreeNode): (t: string)
    ensures node.relationship.None? ==> t == ""
    ensures node.relationship.Some? ==>
      var rel := node.relationship.value;
      && (Truthy(rel.begin) && Truthy(rel.end) ==> t == rel.begin.value + " - " + rel.end.value)
      && (Truthy(rel.begin) && !Truthy(rel.end) ==> t == rel.begin.value + " - present")
      && (!Truthy(rel.begin) && Truthy(rel.end) ==> t == "Until " + rel.end.value)
      && (!Truthy(rel.begin) && !Truthy(rel.end) ==> t == "")
  {
    match node.relationship
    case None => ""
    case Some(rel) =>
      if Truthy(rel.begin) && Truthy(rel.end) then rel.begin.value + " - " + rel.end.value
      else if Truthy(rel.begin) then rel.begin.value + " - present"
      else if Truthy(rel.end) then "Until " + rel.end.value
      else ""
  }

  /** The range is shown exactly when the node has a relationship with a begin or an end date. */
  lemma DateRangeShownIff(node: TreeNode)
    ensures FormatDateRange(node) != "" <==>
      node.relationship.Some? && (Truthy(node.relationship.value.begin) || Truthy(node.relationship.value.end))
  {
    if node.relationship.Some? {
      var rel := node.relationship.value;
      var t := FormatDateRange(node);
      if Truthy(rel.begin) && Truthy(rel.end) {
        assert |t| >= 3;
      } else if Truthy(rel.begin) {
        assert |t| >= 10;
      } else if Truthy(rel.end) {
        assert |t| >= 6;
      }
    }
  }

  /** A range without an end date reads as the begin date followed by ` - present`. */
  lemma OpenRangeMarksPresent(node: TreeNode)
    requires node.relationship.Some?
    requires Truthy(node.relationship.value.begin) && !Truthy(node.relationship.value.end)
    ensures FormatDateRange(node)[|node.relationship.value.begin.value|..] == " - present"
  {
  }

  // ---------------------------------------------------------------------------
  // Label type icons

  /** The label types with their own icon, lower-cased, and those icons in the same order. */
  const KnownTypes: seq<string> :=
    ["production", "original production", "holding", "reissue", "bootleg production", "distributor"]
  const TypeIcons: seq<string> :=
    ["\U{1F3ED}", "\U{1F3B5}", "\U{1F3E2}", "\U{1F504}", "\U{26A0}\U{FE0F}", "\U{1F4E6}"]
  /** The icon of a missing or unknown type. */
  const DefaultIcon: string := "\U{1F3F7}\U{FE0F}"

  function IconOfLowered(t: string): string {
    if t == KnownTypes[0] then TypeIcons[0]
    else if t == KnownTypes[1] then TypeIcons[1]
    else if t == KnownTypes[2] then TypeIcons[2]
    else if t == KnownTypes[3] then TypeIcons[3]
    else if t == KnownTypes[4] then TypeIcons[4]
    else if t == KnownTypes[5] then TypeIcons[5]
    else DefaultIcon
  }

  /** `getLabelTypeIcon`: chosen by the lower-cased label type. */
  function LabelTypeIcon(lbl: Label): (icon: string)
    ensures lbl.labelType.None? ==> icon == DefaultIcon
    ensures lbl.labelType.Some? ==> (icon == DefaultIcon <==> ToLower(lbl.labelType.value) !in KnownTypes)
  {
    match lbl.labelType
    case None => DefaultIcon
    case Some(t) => IconOfLowered(ToLower(t))
  }

  /** A type that lower-cases to the `i`-th known type shows the `i`-th icon. */
  lemma LabelTypeIconOfKnown(lbl: Label, i: nat)
    requires i < |KnownTypes|
    requires lbl.labelType.Some? && ToLower(lbl.labelType.value) == KnownTypes[i]
    ensures LabelTypeIcon(lbl) == TypeIcons[i]
  {
  }

  /** The known types have pairwise different icons, none of them the default one. */
  lemma TypeIconsDistinct()
    ensures |TypeIcons| == |KnownTypes|
    ensures Distinct(TypeIcons) && DefaultIcon !in TypeIcons
  {
  }

  /** The icon does not depend on letter case. */
  lemma LabelTypeIconIgnoresCase(lbl: Label)
    requires lbl.labelType.Some?
    ensures LabelTypeIcon(lbl) == LabelTypeIcon(lbl.(labelType := Some(ToLower(lbl.labelType.value))))
  {
    ToLowerIdempotent(lbl.labelType.value);
  }

  // ---------------------------------------------------------------------------
  // The component's state

  class NodeView {
    var node: TreeNode
    var isExpanded: bool
    /** The nodes emitted as selected, in order: this node or one bubbled up from a child. */
    var selected: seq<TreeNode>

    constructor (node: TreeNode)
      ensures this.node == node && !isExpanded && selected == []
    {
      this.node := node;
      isExpanded := false;
      selected := [];
    }

    /** `ngOnInit`: starts expanded exactly when the node says so. */
    method Init()
      modifies this
      ensures isExpanded <==> node.expanded == Some(true)
      ensures node == old(node) && selected == old(selected)
    {
      isExpanded := node.expanded.GetOr(false);
    }

    /** `toggleExpansion`: only a node with children changes its state. */
    method ToggleExpansion()
      modifies this
      ensures HasChildren(node) ==> isExpanded == !old(isExpanded)
      ensures !HasChildren(node) ==> isExpanded == old(isExpanded)
      ensures node == old(node) && selected == old(selected)
    {
      if HasChildren(node) {
        isExpanded := !isExpanded;
      }
    }

    /** `selectNode`. */
    method SelectNode()
      modifies this
      ensures selected == old(selected) + [node]
      ensures node == old(node) && isExpanded == old(isExpanded)
    {
      selected := selected + [node];
    }

    /** `onChildNodeSelected`: the child's selection is passed on unchanged. */
    method OnChildNodeSelected(child: TreeNode)
      modifies this
      ensures selected == old(selected) + [child]
      ensures node == old(node) && isExpanded == old(isExpanded)
    {
      selected := selected + [child];
    }
  }
}
