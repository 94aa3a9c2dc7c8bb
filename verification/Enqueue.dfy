/** enqueue.ts: from plan entries to job rows, parent links and the jobs added at once. */
module Enqueue {
  import opened Paths
  import opened Engine
  import opened Options
  import EngineTheorems
  import opened Traverse

  /** What the path-to-job map holds for `path` after the first n entries: the last folder there. */
  function LastFolderAt(entries: seq<Entry>, path: string, n: nat): (r: Option<nat>)
    requires n <= |entries|
    ensures r.Some? ==>
      && r.value < n && entries[r.value].kind == CreateFolder && entries[r.value].path == path
      && forall k :: r.value < k < n ==> !(entries[k].kind == CreateFolder && entries[k].path == path)
    ensures r.None? ==> forall k :: 0 <= k < n ==> !(entries[k].kind == CreateFolder && entries[k].path == path)
  {
    if n == 0 then None
    else if entries[n - 1].kind == CreateFolder && entries[n - 1].path == path then Some(n - 1)
    else LastFolderAt(entries, path, n - 1)
  }

  function RowFor(entries: seq<Entry>, k: nat): JobSpec
    requires k < |entries|
  {
    JobSpec(entries[k].kind, entries[k].path, LastFolderAt(entries, ParentPath(entries[k].path), |entries|))
  }

  /** The rows enqueuePlan leaves in the jobs table. */
  function PlanOf(entries: seq<Entry>): (plan: Plan)
    ensures |plan| == |entries|
    ensures forall k :: 0 <= k < |entries| ==> plan[k] == RowFor(entries, k)
  {
    seq(|entries|, k requires 0 <= k < |entries| => RowFor(entries, k))
  }

  /** The INSERT: rows before any parent link is set. */
  function Inserted(entries: seq<Entry>): (rows: Plan)
    ensures |rows| == |entries|
    ensures forall k :: 0 <= k < |entries| ==> rows[k] == JobSpec(entries[k].kind, entries[k].path, None)
  {
    seq(|entries|, k requires 0 <= k < |entries| => JobSpec(entries[k].kind, entries[k].path, None))
  }

  /** f is the last createFolder entry at the path, None if there is none. */
  predicate IsLastFolderAt(f: Option<nat>, entries: seq<Entry>, path: string) {
    match f
    case None => forall k :: 0 <= k < |entries| ==> entries[k].kind != CreateFolder || entries[k].path != path
    case Some(p) =>
      && p < |entries| && entries[p].kind == CreateFolder && entries[p].path == path
      && forall k :: p < k < |entries| ==> entries[k].kind != CreateFolder || entries[k].path != path
  }

  /** The job ids, the rows with the last folder at their parent path as parent, and the jobs added to
      BullMQ at once: those without parent, in order. */
  method EnqueuePlan(entries: seq<Entry>) returns (jobIds: seq<nat>, rows: Plan, added: seq<nat>)
    ensures |jobIds| == |entries| && forall k :: 0 <= k < |entries| ==> jobIds[k] == k
    ensures rows == PlanOf(entries)
    ensures |rows| == |entries|
    ensures forall k :: 0 <= k < |rows| ==> rows[k].kind == entries[k].kind && rows[k].path == entries[k].path
    ensures forall k :: 0 <= k < |rows| ==> IsLastFolderAt(rows[k].parent, entries, ParentPath(entries[k].path))
    ensures forall k :: 0 <= k < |added| ==> added[k] < |rows| && rows[added[k]].parent == None
    ensures forall k, l :: 0 <= k < l < |added| ==> added[k] < added[l]
    ensures forall j: nat :: j < |rows| && rows[j].parent == None ==> j in added
  {
    jobIds, added, rows := [], [], Inserted(entries);
    if |entries| == 0 {
      return;
    }
    var folderPathToJobId := MapFolders(entries);
    var childJobIds;
    rows, childJobIds := LinkParents(entries, rows, folderPathToJobId);
    jobIds, added := AddRoots(rows, childJobIds);
  }

  method AddRoots(rows: Plan, childJobIds: set<nat>) returns (jobIds: seq<nat>, added: seq<nat>)
    requires forall k: nat :: k in childJobIds <==> k < |rows| && rows[k].parent != None
    ensures |jobIds| == |rows| && forall k :: 0 <= k < |rows| ==> jobIds[k] == k
    ensures added == Roots(rows, |rows|)
  {
    jobIds, added := [], [];
    for i := 0 to |rows|
      invariant |jobIds| == i && forall k :: 0 <= k < i ==> jobIds[k] == k
      invariant added == Roots(rows, i)
    {
      jobIds := jobIds + [i];
      if i !in childJobIds {
        added := added + [i];
      }
    }
  }

  method LinkParents(entries: seq<Entry>, inserted: Plan, folderPathToJobId: map<string, nat>)
      returns (rows: Plan, childJobIds: set<nat>)
    requires inserted == Inserted(entries)
    requires forall path ::
      LastFolderAt(entries, path, |entries|) ==
        if path in folderPathToJobId then Some(folderPathToJobId[path]) else None
    ensures rows == PlanOf(entries)
    ensures forall k: nat :: k in childJobIds <==> k < |rows| && rows[k].parent != None
  {
    rows, childJobIds := inserted, {};
    for i := 0 to |entries|
      invariant |rows| == |entries|
      invariant forall k :: 0 <= k < i ==> rows[k] == RowFor(entries, k)
      invariant forall k :: i <= k < |entries| ==> rows[k] == inserted[k]
      invariant forall k: nat :: k in childJobIds <==> k < i && rows[k].parent != None
    {
      var parent := ParentPath(entries[i].path);
      if parent in folderPathToJobId {
        childJobIds := childJobIds + {i};
        rows := rows[i := rows[i].(parent := Some(folderPathToJobId[parent]))];
      }
    }
  }

  method MapFolders(entries: seq<Entry>) returns (folderPathToJobId: map<string, nat>)
    ensures forall path ::
      LastFolderAt(entries, path, |entries|) ==
        if path in folderPathToJobId then Some(folderPathToJobId[path]) else None
  {
    folderPathToJobId := map[];
    for i := 0 to |entries|
      invariant forall path ::
        LastFolderAt(entries, path, i) == if path in folderPathToJobId then Some(folderPathToJobId[path]) else None
    {
      if entries[i].kind == CreateFolder {
        folderPathToJobId := folderPathToJobId[entries[i].path := i];
      }
    }
  }

  // ---------------------------------------------------------------------
  // The job graph is a forest.
  // ---------------------------------------------------------------------

  lemma {:induction false} CollapseShrinks(s: string)
    ensures |Collapse(s)| <= |s|
  {
    if |s| > 1 {
      CollapseShrinks(s[1..]);
    }
  }

  /** A parent other than the root is shorter than the string it is the parent of. */
  lemma {:induction false} ParentIsShorter(p: string)
    requires ParentPath(p) != "/"
    ensures |ParentPath(p)| < |p|
  {
    NormalizeFixesExactlyCanonical(p);
    var norm := NormalizePath(p);
    CollapseShrinks(if p != "" && p[0] != '/' then "/" + p else p);
    var idx := LastIndexOf(norm, '/');
    assert norm[|norm| - 1] != '/';
  }

  /** For any entries at all: the parent links form a forest of folders, each at the parent
      path of its child and shorter, if and only if no createFolder entry is at the root. */
  lemma {:induction false} ForestExactlyWithoutRootFolder(entries: seq<Entry>)
    ensures IsForest(PlanOf(entries)) <==>
      forall k :: 0 <= k < |entries| && entries[k].kind == CreateFolder ==> entries[k].path != "/"
  {
    var plan := PlanOf(entries);
    if forall k :: 0 <= k < |entries| && entries[k].kind == CreateFolder ==> entries[k].path != "/" {
      forall p: nat, j: nat | ParentOf(plan, p, j)
        ensures IsFolder(plan, p) && plan[p].path == ParentPath(plan[j].path) && |plan[p].path| < |plan[j].path|
      {
        ParentIsShorter(plan[j].path);
      }
    } else {
      var k :| 0 <= k < |entries| && entries[k].kind == CreateFolder && entries[k].path == "/";
      RootIsItsOwnParent();
      assert ParentOf(plan, plan[k].parent.value, k);
    }
  }

  lemma {:induction false} RootIsItsOwnParent()
    ensures ParentPath("/") == "/"
  {
  }

  /** From every job of a forest the parent links lead to a job without parent. */
  lemma {:induction false} RootAbove(plan: Plan, j: nat) returns (r: nat)
    requires IsForest(plan) && j < |plan|
    ensures r < |plan| && plan[r].parent == None && EngineTheorems.Above(plan, r, j)
    decreases |plan[j].path|
  {
    if plan[j].parent == None {
      r := j;
    } else {
      assert ParentOf(plan, plan[j].parent.value, j);
      r := RootAbove(plan, plan[j].parent.value);
    }
  }

  // ---------------------------------------------------------------------
  // The forest of a tree.
  // ---------------------------------------------------------------------

  lemma {:induction false} RenderedParent(base: seq<string>, names: seq<string>)
    requires AreNames(base) && AreNames(names) && names != []
    ensures ParentPath(Render(base + names)) == Render(base + names[..|names| - 1])
  {
    var segs := base + names;
    SegmentsOfRender(segs);
    PathOperationsOnSegments(Render(segs), "");
    assert AllButLast(segs) == base + names[..|names| - 1];
  }

  lemma {:induction false} RenderInjective(a: seq<string>, b: seq<string>)
    requires AreNames(a) && AreNames(b) && Render(a) == Render(b)
    ensures a == b
  {
    SegmentsOfRender(a);
    SegmentsOfRender(b);
  }

  /** The parent link of row k mirrors the tree: none at the top, else the folder that branch k is in. */
  ghost predicate Mirrors(plan: Plan, bs: seq<Branch>, k: nat) {
    k < |bs| == |plan| && bs[k].names != [] &&
    match plan[k].parent
    case None => |bs[k].names| == 1
    case Some(p) => |bs[k].names| > 1 && p < |bs| && bs[p] == Branch(bs[k].names[..|bs[k].names| - 1], true)
  }

  ghost predicate BelowTop(plan: Plan, bs: seq<Branch>, k: nat)
    requires IsForest(plan)
  {
    exists top: nat :: top < |bs| && |bs[top].names| == 1 && EngineTheorems.Above(plan, top, k)
  }

  /** For every tree, duplicate sibling names included: the rows form a forest whose links
      mirror the tree, the jobs without parent (those added at once) are exactly the
      entries at the destination itself, and every other job hangs below one of them. */
  lemma {:induction false} TreeJobsFormForest(leaf: Kind, nodes: seq<Tree>, r: Option<string>, dst: string)
    requires GoodNames(nodes) && leaf != CreateFolder
    ensures IsForest(PlanOf(TreePlan(leaf, nodes, r, dst)))
    ensures |Branches(nodes)| == |TreePlan(leaf, nodes, r, dst)|
    ensures forall k: nat :: k < |Branches(nodes)| ==>
      Mirrors(PlanOf(TreePlan(leaf, nodes, r, dst)), Branches(nodes), k)
    ensures forall k: nat :: k < |Branches(nodes)| ==>
      BelowTop(PlanOf(TreePlan(leaf, nodes, r, dst)), Branches(nodes), k)
  {
    PlanListsTree(leaf, nodes, r, dst);
    TreeHasNoRootFolder(leaf, dst, TreePlan(leaf, nodes, r, dst), Branches(nodes));
    ForestExactlyWithoutRootFolder(TreePlan(leaf, nodes, r, dst));
    forall k: nat | k < |Branches(nodes)|
      ensures Mirrors(PlanOf(TreePlan(leaf, nodes, r, dst)), Branches(nodes), k)
    {
      FoldersFirst(nodes, k);
      LinksMirror(leaf, dst, TreePlan(leaf, nodes, r, dst), Branches(nodes), k);
    }
    forall k: nat | k < |Branches(nodes)|
      ensures BelowTop(PlanOf(TreePlan(leaf, nodes, r, dst)), Branches(nodes), k)
    {
      TopAbove(PlanOf(TreePlan(leaf, nodes, r, dst)), Branches(nodes), k);
    }
  }

  lemma {:induction false} TreeHasNoRootFolder(leaf: Kind, dst: string, entries: seq<Entry>, bs: seq<Branch>)
    requires Lists(leaf, dst, entries, bs)
    ensures forall k :: 0 <= k < |entries| && entries[k].kind == CreateFolder ==> entries[k].path != "/"
  {
    forall k | 0 <= k < |entries|
      ensures entries[k].path != "/"
    {
      assert IsEntryOf(leaf, dst, entries[k], bs[k]);
      RenderTailEnds(Segments(dst) + bs[k].names);
    }
  }

  lemma {:induction false} TopAbove(plan: Plan, bs: seq<Branch>, k: nat)
    requires IsForest(plan) && k < |bs| == |plan|
    requires forall k: nat :: k < |bs| ==> Mirrors(plan, bs, k)
    ensures BelowTop(plan, bs, k)
  {
    var top := RootAbove(plan, k);
    assert Mirrors(plan, bs, top);
  }

  /** The parent path of branch k is the path of branch f exactly when f is the folder k is in. */
  lemma {:induction false} FolderPathOfBranch(leaf: Kind, dst: string, e: Entry, b: Branch, f: Entry, c: Branch)
    requires IsEntryOf(leaf, dst, e, b) && IsEntryOf(leaf, dst, f, c)
    ensures f.path == ParentPath(e.path) <==> c.names == b.names[..|b.names| - 1]
  {
    RenderedParent(Segments(dst), b.names);
    var up := Segments(dst) + b.names[..|b.names| - 1];
    if f.path == ParentPath(e.path) {
      RenderInjective(Segments(dst) + c.names, up);
      assert c.names == up[|Segments(dst)|..];
    }
  }

  lemma {:induction false} LinksMirror(leaf: Kind, dst: string, entries: seq<Entry>, bs: seq<Branch>, k: nat)
    requires leaf != CreateFolder && k < |bs|
    requires Lists(leaf, dst, entries, bs) && FolderListedBefore(bs, k)
    ensures Mirrors(PlanOf(entries), bs, k)
  {
    assert IsEntryOf(leaf, dst, entries[k], bs[k]);
    var names := bs[k].names;
    var parent := PlanOf(entries)[k].parent;
    if parent.Some? {
      var p := parent.value;
      assert IsEntryOf(leaf, dst, entries[p], bs[p]);
      FolderPathOfBranch(leaf, dst, entries[k], bs[k], entries[p], bs[p]);
    } else if |names| > 1 {
      var f: nat :| f < k && bs[f] == Branch(names[..|names| - 1], true);
      assert IsEntryOf(leaf, dst, entries[f], bs[f]);
      FolderPathOfBranch(leaf, dst, entries[k], bs[k], entries[f], bs[f]);
      assert false;
    }
  }
}
