/** Flattening a tree into plan entries: traverse.ts and the tree cases of buildEntries. */
module Traverse {
  import opened Paths
  import opened Engine
  import opened Options

  /** A client-supplied tree, or the tree that the parent links of the nodes table form. */
  datatype Tree = Folder(name: string, children: seq<Tree>) | File(name: string, size: nat)

  datatype Entry = Entry(kind: Kind, path: string, name: string, parentRemoteId: Option<string>, size: Option<nat>)

  function NodePath(parentPath: string, name: string): string {
    NormalizePath(JoinPath(parentPath, name))
  }

  /** The entry of one node. `leaf` is upload, transfer or copy. */
  function NodeEntry(leaf: Kind, n: Tree, parentRemoteId: Option<string>, parentPath: string): Entry {
    match n
    case Folder(name, _) => Entry(CreateFolder, NodePath(parentPath, name), name, parentRemoteId, None)
    case File(name, size) => Entry(leaf, NodePath(parentPath, name), name, parentRemoteId, Some(size))
  }

  function NodePlan(leaf: Kind, n: Tree, parentRemoteId: Option<string>, parentPath: string): seq<Entry>
    decreases n, 1
  {
    [NodeEntry(leaf, n, parentRemoteId, parentPath)] +
    match n
    case Folder(name, children) => TreePlan(leaf, children, None, NodePath(parentPath, name))
    case File(_, _) => []
  }

  /** The specification of the walk: nodes left to right, a folder before what is in it. */
  function TreePlan(leaf: Kind, nodes: seq<Tree>, parentRemoteId: Option<string>, parentPath: string): seq<Entry>
    decreases nodes, 0
  {
    if nodes == [] then []
    else NodePlan(leaf, nodes[0], parentRemoteId, parentPath) + TreePlan(leaf, nodes[1..], parentRemoteId, parentPath)
  }

  lemma {:induction false} TreePlanSnoc(leaf: Kind, nodes: seq<Tree>, n: Tree, r: Option<string>, p: string)
    ensures TreePlan(leaf, nodes + [n], r, p) == TreePlan(leaf, nodes, r, p) + NodePlan(leaf, n, r, p)
    decreases nodes
  {
    if nodes == [] {
      assert [n][1..] == [] && nodes + [n] == [n];
    } else {
      assert (nodes + [n])[1..] == nodes[1..] + [n];
      TreePlanSnoc(leaf, nodes[1..], n, r, p);
      AppendAssoc(NodePlan(leaf, nodes[0], r, p), TreePlan(leaf, nodes[1..], r, p), NodePlan(leaf, n, r, p));
    }
  }

  /** The walk itself: recursive, pushing into one shared array. */
  class Planner {
    var entries: seq<Entry>

    constructor ()
      ensures entries == []
    {
      entries := [];
    }

    method Walk(leaf: Kind, nodes: seq<Tree>, parentRemoteId: Option<string>, parentPath: string)
      modifies this
      ensures entries == old(entries) + TreePlan(leaf, nodes, parentRemoteId, parentPath)
      decreases nodes, 0
    {
      for i := 0 to |nodes|
        invariant entries == old(entries) + TreePlan(leaf, nodes[..i], parentRemoteId, parentPath)
      {
        Visit(leaf, nodes[i], parentRemoteId, parentPath);
        TreePlanSnoc(leaf, nodes[..i], nodes[i], parentRemoteId, parentPath);
        Append(old(entries), TreePlan(leaf, nodes[..i], parentRemoteId, parentPath),
               NodePlan(leaf, nodes[i], parentRemoteId, parentPath), nodes, i);
      }
      assert nodes[..|nodes|] == nodes;
    }

    /** One turn of the loop. */
    method Visit(leaf: Kind, n: Tree, parentRemoteId: Option<string>, parentPath: string)
      modifies this
      ensures entries == old(entries) + NodePlan(leaf, n, parentRemoteId, parentPath)
      decreases n, 1
    {
      ghost var start, e := entries, NodeEntry(leaf, n, parentRemoteId, parentPath);
      NodePlanParts(leaf, n, parentRemoteId, parentPath);
      var path := NormalizePath(JoinPath(parentPath, n.name));
      if n.Folder? {
        entries := entries + [Entry(CreateFolder, path, n.name, parentRemoteId, None)];
        assert entries == start + [e];
        Walk(leaf, n.children, None, path);
        AppendAssoc(start, [e], TreePlan(leaf, n.children, None, path));
      } else {
        entries := entries + [Entry(leaf, path, n.name, parentRemoteId, Some(n.size))];
        assert entries == start + [e];
      }
    }
  }

  lemma {:induction false} NodePlanParts(leaf: Kind, n: Tree, r: Option<string>, p: string)
    ensures n.File? ==> NodePlan(leaf, n, r, p) == [NodeEntry(leaf, n, r, p)]
    ensures n.Folder? ==>
      NodePlan(leaf, n, r, p) == [NodeEntry(leaf, n, r, p)] + TreePlan(leaf, n.children, None, NodePath(p, n.name))
  {
  }

  lemma {:induction false} Append(start: seq<Entry>, done: seq<Entry>, one: seq<Entry>, nodes: seq<Tree>, i: nat)
    requires i < |nodes|
    ensures (start + done) + one == start + (done + one)
    ensures nodes[..i + 1] == nodes[..i] + [nodes[i]]
  {
  }

  method PlanFromLocalTree(parentRemoteId: Option<string>, parentPath: string, tree: seq<Tree>)
      returns (entries: seq<Entry>)
    ensures entries == TreePlan(Upload, tree, parentRemoteId, parentPath)
  {
    var planner := new Planner();
    planner.Walk(Upload, tree, parentRemoteId, parentPath);
    entries := planner.entries;
  }

  /** planFromNodesSubtree: one root, its entry first, then the walk below it. */
  method PlanFromNodesSubtree(leaf: Kind, root: Tree, dstParentRemoteId: Option<string>, dstParentPath: string)
      returns (out: seq<Entry>)
    ensures out == NodePlan(leaf, root, dstParentRemoteId, dstParentPath)
  {
    var planner := new Planner();
    planner.Visit(leaf, root, dstParentRemoteId, dstParentPath);
    out := planner.entries;
  }

  /** The transfer and copy_tree cases of buildEntries. */
  method BuildTreeEntries(leaf: Kind, roots: seq<Tree>, dstParentRemoteId: Option<string>, dstParentPath: string)
      returns (entries: seq<Entry>)
    ensures entries == TreePlan(leaf, roots, dstParentRemoteId, dstParentPath)
  {
    entries := [];
    for i := 0 to |roots|
      invariant entries == TreePlan(leaf, roots[..i], dstParentRemoteId, dstParentPath)
    {
      var sub := PlanFromNodesSubtree(leaf, roots[i], dstParentRemoteId, dstParentPath);
      entries := entries + sub;
      TreePlanSnoc(leaf, roots[..i], roots[i], dstParentRemoteId, dstParentPath);
      assert roots[..i + 1] == roots[..i] + [roots[i]];
    }
    assert roots[..|roots|] == roots;
  }

  // ---------------------------------------------------------------------
  // What the plan says of the tree.
  // ---------------------------------------------------------------------

  ghost predicate GoodNames(nodes: seq<Tree>) {
    forall n :: n in nodes ==> IsName(n.name) && (n.Folder? ==> GoodNames(n.children))
  }

  /** Reference reading of a tree: for every node, in document order, the names from the
      top of the tree down to it, and whether it is a folder. */
  datatype Branch = Branch(names: seq<string>, isFolder: bool)

  function Under(name: string, bs: seq<Branch>): (r: seq<Branch>)
    ensures |r| == |bs|
    ensures forall k :: 0 <= k < |bs| ==> r[k] == Branch([name] + bs[k].names, bs[k].isFolder)
  {
    seq(|bs|, k requires 0 <= k < |bs| => Branch([name] + bs[k].names, bs[k].isFolder))
  }

  function NodeBranches(n: Tree): seq<Branch>
    decreases n, 1
  {
    [Branch([n.name], n.Folder?)] +
    match n
    case Folder(name, children) => Under(name, Branches(children))
    case File(_, _) => []
  }

  function Branches(nodes: seq<Tree>): seq<Branch>
    decreases nodes, 0
  {
    if nodes == [] then [] else NodeBranches(nodes[0]) + Branches(nodes[1..])
  }

  /** Entry e is the entry of branch b below the destination. */
  predicate IsEntryOf(leaf: Kind, dst: string, e: Entry, b: Branch) {
    && AreNames(b.names) && b.names != []
    && e.path == Render(Segments(dst) + b.names)
    && e.name == b.names[|b.names| - 1]
    && e.kind == if b.isFolder then CreateFolder else leaf
  }

  ghost predicate Lists(leaf: Kind, dst: string, entries: seq<Entry>, bs: seq<Branch>) {
    |entries| == |bs| && forall k :: 0 <= k < |bs| ==> IsEntryOf(leaf, dst, entries[k], bs[k])
  }

  lemma {:induction false} ListsAppend(leaf: Kind, dst: string, e1: seq<Entry>, b1: seq<Branch>, e2: seq<Entry>,
                                       b2: seq<Branch>)
    requires Lists(leaf, dst, e1, b1) && Lists(leaf, dst, e2, b2)
    ensures Lists(leaf, dst, e1 + e2, b1 + b2)
  {
  }

  lemma {:induction false} PathOfChild(dst: string, name: string, rest: seq<string>)
    requires IsName(name)
    ensures NodePath(dst, name) == Render(Segments(dst) + [name])
    ensures Segments(dst) + ([name] + rest) == Segments(NodePath(dst, name)) + rest
  {
    JoinRenders(dst, name);
    SegmentsOfName(name);
    var p := JoinPath(dst, name);
    NormalizeIsRender(p);
    SegmentsOfRender(Segments(dst) + [name]);
    SegmentsOfRender(Segments(p));
    AppendAssoc(Segments(dst), [name], rest);
  }

  lemma {:induction false} ListsUnder(leaf: Kind, dst: string, name: string, entries: seq<Entry>, bs: seq<Branch>)
    requires IsName(name) && Lists(leaf, NodePath(dst, name), entries, bs)
    ensures Lists(leaf, dst, entries, Under(name, bs))
  {
    forall k | 0 <= k < |bs|
      ensures IsEntryOf(leaf, dst, entries[k], Under(name, bs)[k])
    {
      assert IsEntryOf(leaf, NodePath(dst, name), entries[k], bs[k]);
      EntryUnder(leaf, dst, name, entries[k], bs[k]);
    }
  }

  lemma {:induction false} EntryUnder(leaf: Kind, dst: string, name: string, e: Entry, b: Branch)
    requires IsName(name) && IsEntryOf(leaf, NodePath(dst, name), e, b)
    ensures IsEntryOf(leaf, dst, e, Branch([name] + b.names, b.isFolder))
  {
    PathOfChild(dst, name, b.names);
  }

  /** The plan of a tree is the tree: one entry per node, in document order, at the
      destination's segments followed by the node's own names. */
  lemma {:induction false} PlanListsTree(leaf: Kind, nodes: seq<Tree>, r: Option<string>, dst: string)
    requires GoodNames(nodes)
    ensures Lists(leaf, dst, TreePlan(leaf, nodes, r, dst), Branches(nodes))
    decreases nodes, 0
  {
    if nodes != [] {
      assert nodes[0] in nodes;
      PlanListsNode(leaf, nodes[0], r, dst);
      PlanListsTree(leaf, nodes[1..], r, dst);
      ListsAppend(leaf, dst, NodePlan(leaf, nodes[0], r, dst), NodeBranches(nodes[0]),
                  TreePlan(leaf, nodes[1..], r, dst), Branches(nodes[1..]));
    }
  }

  lemma {:induction false} NodeEntryListed(leaf: Kind, n: Tree, r: Option<string>, dst: string)
    requires IsName(n.name)
    ensures Lists(leaf, dst, [NodeEntry(leaf, n, r, dst)], [Branch([n.name], n.Folder?)])
  {
    PathOfChild(dst, n.name, []);
  }

  lemma {:induction false} PlanListsNode(leaf: Kind, n: Tree, r: Option<string>, dst: string)
    requires IsName(n.name) && (n.Folder? ==> GoodNames(n.children))
    ensures Lists(leaf, dst, NodePlan(leaf, n, r, dst), NodeBranches(n))
    decreases n, 1
  {
    NodeEntryListed(leaf, n, r, dst);
    if n.Folder? {
      PlanListsTree(leaf, n.children, None, NodePath(dst, n.name));
      ListsUnder(leaf, dst, n.name, TreePlan(leaf, n.children, None, NodePath(dst, n.name)), Branches(n.children));
      ListsAppend(leaf, dst, [NodeEntry(leaf, n, r, dst)], [Branch([n.name], true)],
                  TreePlan(leaf, n.children, None, NodePath(dst, n.name)), Under(n.name, Branches(n.children)));
    }
  }

  /** The sizes of the files in document order, None for a folder. */
  function Sizes(nodes: seq<Tree>): seq<Option<nat>>
    decreases nodes
  {
    if nodes == [] then []
    else match nodes[0]
      case Folder(_, children) => [None] + Sizes(children) + Sizes(nodes[1..])
      case File(_, size) => [Some(size)] + Sizes(nodes[1..])
  }

  /** Entry e carries the size, and the known parent id exactly if it is directly below the destination. */
  predicate Carries(e: Entry, b: Branch, r: Option<string>, size: Option<nat>) {
    e.size == size && e.parentRemoteId == if |b.names| == 1 then r else None
  }

  ghost predicate CarriesAll(es: seq<Entry>, bs: seq<Branch>, r: Option<string>, sizes: seq<Option<nat>>) {
    |es| == |bs| == |sizes| && forall k :: 0 <= k < |es| ==> Carries(es[k], bs[k], r, sizes[k])
  }

  /** What else an entry says: the size of its file, and the remote id of its parent where that is
      known, which is directly below the destination and nowhere else. */
  lemma {:induction false} PlanCarries(leaf: Kind, nodes: seq<Tree>, r: Option<string>, dst: string)
    ensures CarriesAll(TreePlan(leaf, nodes, r, dst), Branches(nodes), r, Sizes(nodes))
    decreases nodes
  {
    if nodes != [] {
      var n := nodes[0];
      PlanCarries(leaf, nodes[1..], r, dst);
      if n.Folder? {
        PlanCarries(leaf, n.children, None, NodePath(dst, n.name));
        BelowFolder(leaf, n, r, dst);
      }
      var own := if n.Folder? then [None] + Sizes(n.children) else [Some(n.size)];
      JoinCarries(NodePlan(leaf, n, r, dst), NodeBranches(n), own,
                  TreePlan(leaf, nodes[1..], r, dst), Branches(nodes[1..]), Sizes(nodes[1..]), r);
    }
  }

  lemma {:induction false} BelowFolder(leaf: Kind, n: Tree, r: Option<string>, dst: string)
    requires n.Folder?
    requires CarriesAll(TreePlan(leaf, n.children, None, NodePath(dst, n.name)), Branches(n.children), None,
                        Sizes(n.children))
    ensures CarriesAll(NodePlan(leaf, n, r, dst), NodeBranches(n), r, [None] + Sizes(n.children))
  {
    NamesOfBranches(n.children);
  }

  lemma {:induction false} JoinCarries(e1: seq<Entry>, b1: seq<Branch>, s1: seq<Option<nat>>,
                                       e2: seq<Entry>, b2: seq<Branch>, s2: seq<Option<nat>>, r: Option<string>)
    requires CarriesAll(e1, b1, r, s1) && CarriesAll(e2, b2, r, s2)
    ensures CarriesAll(e1 + e2, b1 + b2, r, s1 + s2)
  {
  }

  lemma {:induction false} NamesOfBranches(nodes: seq<Tree>)
    ensures forall k :: 0 <= k < |Branches(nodes)| ==> Branches(nodes)[k].names != []
    decreases nodes
  {
    if nodes != [] {
      NamesOfBranches(nodes[1..]);
    }
  }

  /** Branches are closed upwards: the folder of a branch is listed before it. */
  ghost predicate FolderListedBefore(bs: seq<Branch>, k: nat)
    requires k < |bs|
  {
    |bs[k].names| > 1 ==>
      exists f: nat :: f < k && bs[f] == Branch(bs[k].names[..|bs[k].names| - 1], true)
  }

  lemma {:induction false} FoldersFirst(nodes: seq<Tree>, k: nat)
    requires k < |Branches(nodes)|
    ensures FolderListedBefore(Branches(nodes), k)
    decreases nodes, 0
  {
    var first, rest := NodeBranches(nodes[0]), Branches(nodes[1..]);
    if k < |first| {
      FolderOfNode(nodes[0], k);
      if |first[k].names| > 1 {
        var f: nat :| f < k && first[f] == Branch(first[k].names[..|first[k].names| - 1], true);
        assert Branches(nodes)[f] == first[f];
      }
    } else {
      FoldersFirst(nodes[1..], k - |first|);
      if |rest[k - |first|].names| > 1 {
        var b := rest[k - |first|];
        var f: nat :| f < k - |first| && rest[f] == Branch(b.names[..|b.names| - 1], true);
        assert Branches(nodes)[f + |first|] == rest[f];
      }
    }
  }

  lemma {:induction false} FolderOfNode(n: Tree, k: nat)
    requires k < |NodeBranches(n)|
    ensures FolderListedBefore(NodeBranches(n), k)
    decreases n, 1
  {
    var bs := NodeBranches(n);
    if k > 0 && |bs[k].names| > 1 {
      FoldersFirst(n.children, k - 1);
      FolderUnder(n.name, Branches(n.children), bs, k);
    }
  }

  lemma {:induction false} FolderUnder(name: string, below: seq<Branch>, bs: seq<Branch>, k: nat)
    requires bs == [Branch([name], true)] + Under(name, below)
    requires 0 < k < |bs| && FolderListedBefore(below, k - 1) && below[k - 1].names != []
    ensures FolderListedBefore(bs, k)
  {
    var b := below[k - 1];
    var outer := bs[k].names[..|bs[k].names| - 1];
    if |b.names| > 1 {
      var f: nat :| f < k - 1 && below[f] == Branch(b.names[..|b.names| - 1], true);
      assert [name] + below[f].names == outer;
      assert bs[f + 1] == Branch(outer, true);
    } else {
      assert outer == [name];
      assert bs[0] == Branch(outer, true);
    }
  }
}
