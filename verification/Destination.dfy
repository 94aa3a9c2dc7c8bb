/** destination.ts and create-folder.ts over the live rows of the nodes table. */
module Destination {
  import opened Options
  import opened Paths
  import opened Engine
  import opened Conflict
  import EngineTheorems

  datatype Parent = Found(remoteId: Option<nat>) | NotMaterialized | NotAFolder

  datatype CreateReply = Created(remoteId: nat) | ConflictError | OtherError

  predicate FolderAt(rows: map<nat, Row>, path: string, id: nat) {
    id in rows && rows[id] == Row(path, true)
  }

  /** Every live row at the path is a folder's. */
  ghost predicate OnlyFoldersAt(rows: map<nat, Row>, path: string) {
    forall id :: id in rows && rows[id].path == path ==> rows[id].isFolder
  }

  ghost predicate AnyAt(rows: map<nat, Row>, path: string) {
    exists id :: id in rows && rows[id].path == path
  }

  /** The lookup has to go by path: no remote id is known and the parent is not the root. */
  predicate LooksUp(parentRemoteId: Option<nat>, path: string) {
    parentRemoteId == None && ParentPath(path) != "/"
  }

  /** The folder a listing shows under this name. */
  predicate ShowsFolder(nodes: seq<Child>, name: string, id: nat) {
    exists i :: 0 <= i < |nodes| && nodes[i] == Child(name, true, id)
  }

  /** Every choice of row makes resolveDestinationParent return a parent. */
  ghost predicate ParentIs(rows: map<nat, Row>, parentRemoteId: Option<nat>, path: string) {
    LooksUp(parentRemoteId, path) ==> AnyAt(rows, ParentPath(path)) && OnlyFoldersAt(rows, ParentPath(path))
  }

  /** Some choice does. */
  ghost predicate ParentMayBe(rows: map<nat, Row>, parentRemoteId: Option<nat>, path: string) {
    LooksUp(parentRemoteId, path) ==> exists id :: FolderAt(rows, ParentPath(path), id)
  }

  /** The folder is listed, or created, or listed after a conflict. */
  ghost predicate HasFolder(listing: Pages, reply: CreateReply, secondPage: seq<Child>, name: string) {
    || (exists id :: ShowsFolder(Concat(listing), name, id))
    || reply.Created?
    || (reply.ConflictError? && exists id :: ShowsFolder(secondPage, name, id))
  }

  /** The first one so shown. */
  predicate FirstFolder(nodes: seq<Child>, name: string, id: nat) {
    exists i :: 0 <= i < |nodes| && nodes[i] == Child(name, true, id)
                && forall k :: 0 <= k < i ==> !(nodes[k].name == name && nodes[k].isFolder)
  }

  function Concat(pages: Pages): seq<Child> {
    if pages == [] then [] else Concat(pages[..|pages| - 1]) + pages[|pages| - 1]
  }

  class LiveNodes {
    var rows: map<nat, Row>

    constructor (rows: map<nat, Row>)
      ensures this.rows == rows
    {
      this.rows := rows;
    }

    /** resolveDestinationParent; LIMIT 1 without an order takes any matching row. */
    method ResolveDestinationParent(parentRemoteId: Option<nat>, path: string) returns (r: Parent)
      ensures parentRemoteId.Some? || ParentPath(path) == "/" ==> r == Found(parentRemoteId)
      ensures parentRemoteId.None? && ParentPath(path) != "/" ==>
        && (r.NotMaterialized? <==> !AnyAt(rows, ParentPath(path)))
        && (r.NotAFolder? ==> !OnlyFoldersAt(rows, ParentPath(path)))
        && (r.Found? ==> r.remoteId.Some? && r.remoteId.value in rows
                         && rows[r.remoteId.value] == Row(ParentPath(path), true))
    {
      if parentRemoteId.Some? {
        return Found(parentRemoteId);
      }
      var dstParentPath := ParentPath(path);
      if dstParentPath == "/" {
        return Found(None);
      }
      var matching := set id | id in rows && rows[id].path == dstParentPath;
      if matching == {} {
        assert forall id :: id in rows ==> id !in matching;
        return NotMaterialized;
      }
      var id :| id in matching;
      if !rows[id].isFolder {
        return NotAFolder;
      }
      return Found(Some(id));
    }

    /** upsertMaterializedNode. */
    method UpsertMaterializedNode(path: string, node: Child)
      modifies this
      ensures rows == old(rows)[node.remoteId := Row(path, node.isFolder)]
    {
      rows := rows[node.remoteId := Row(path, node.isFolder)];
    }

    /** handleCreateFolder: the folder listed before, the one created, or, if creating it meets
        a conflict, the one a second listing shows. It returns only after writing the
        folder's row, and writes nothing if it throws; it returns whenever the parent
        is there and there is such a folder. */
    method HandleCreateFolder(parentRemoteId: Option<nat>, path: string, name: string,
                              listing: Pages, reply: CreateReply, secondPage: seq<Child>)
        returns (ok: bool, upsert: Upsert)
      modifies this
      ensures ok ==> ParentMayBe(old(rows), parentRemoteId, path) && HasFolder(listing, reply, secondPage, name)
      ensures ParentIs(old(rows), parentRemoteId, path) && HasFolder(listing, reply, secondPage, name) ==> ok
      ensures !ok ==> rows == old(rows)
      ensures ok ==>
        HandlerUpsert(JobSpec(CreateFolder, path, None), upsert) && rows == old(rows)[upsert.remoteId := upsert.row]
      ensures ok && (exists id :: ShowsFolder(Concat(listing), name, id)) ==>
        FirstFolder(Concat(listing), name, upsert.remoteId)
      ensures ok && !(exists id :: ShowsFolder(Concat(listing), name, id)) ==>
        reply == Created(upsert.remoteId) || (reply == ConflictError && FirstFolder(secondPage, name, upsert.remoteId))
    {
      upsert := NoUpsert;
      var parent := ResolveDestinationParent(parentRemoteId, path);
      if !parent.Found? {
        return false, upsert;
      }
      assert LooksUp(parentRemoteId, path) ==> FolderAt(rows, ParentPath(path), parent.remoteId.value);
      var siblings := FetchSiblingNodes(listing);
      var existing := FindFolder(siblings, name);
      if existing.Some? {
        UpsertMaterializedNode(path, existing.value);
        return true, Upsert(existing.value.remoteId, Row(path, true));
      }
      match reply
      case Created(id) =>
        UpsertMaterializedNode(path, Child(name, true, id));
        return true, Upsert(id, Row(path, true));
      case OtherError =>
        return false, upsert;
      case ConflictError =>
        var raced := FindFolder(secondPage, name);
        if raced.None? {
          return false, upsert;
        }
        UpsertMaterializedNode(path, raced.value);
        return true, Upsert(raced.value.remoteId, Row(path, true));
    }
  }

  method FetchSiblingNodes(pages: Pages) returns (all: seq<Child>)
    ensures all == Concat(pages)
  {
    all := [];
    assert pages[..0] == [];
    for i := 0 to |pages|
      invariant all == Concat(pages[..i])
    {
      assert pages[..i + 1][..i] == pages[..i];
      all := all + pages[i];
    }
    assert pages[..|pages|] == pages;
  }

  method FindFolder(nodes: seq<Child>, name: string) returns (r: Option<Child>)
    ensures r.Some? ==> r.value.name == name && r.value.isFolder && ShowsFolder(nodes, name, r.value.remoteId)
    ensures r.Some? ==> FirstFolder(nodes, name, r.value.remoteId)
    ensures r.None? ==> forall id :: !ShowsFolder(nodes, name, id)
  {
    for i := 0 to |nodes|
      invariant forall k :: 0 <= k < i ==> !(nodes[k].name == name && nodes[k].isFolder)
    {
      if nodes[i].name == name && nodes[i].isFolder {
        return Some(nodes[i]);
      }
    }
    return None;
  }

  /** End to end: when a job below a planned folder runs, the lookup of its destination parent
      finds a live row, and yields the folder unless a live file row has the same path. */
  method LookupOfReleasedJob(plan: Plan, rows: map<nat, Row>, opening: Stats, ghost acts: seq<Action>, ghost s: State,
                          ghost i: nat, path: string, table: LiveNodes) returns (r: Parent)
    requires IsForest(plan) && plan != [] && EngineTheorems.Reaches(plan, rows, opening, acts, s)
    requires Enabled(plan, s, Claim(i)) && plan[s.procs[i].job].parent.Some? && path == plan[s.procs[i].job].path
    requires table.rows == s.rows
    ensures !r.NotMaterialized?
    ensures OnlyFoldersAt(s.rows, ParentPath(path)) ==> r.Found?
    ensures r.Found? && ParentPath(path) != "/" ==>
      r.remoteId.Some? && FolderAt(s.rows, ParentPath(path), r.remoteId.value)
  {
    EngineTheorems.FolderBeforeContent(plan, rows, opening, acts, s, i);
    r := table.ResolveDestinationParent(None, path);
  }
}
