/** The rows of the nodes table under updateNodeAfterMove (move.ts) and handleDelete (delete.ts). */
module Subtree {
  import opened Like

  datatype Row = Row(provider: nat, remoteId: string, name: string, path: string, deleted: bool)

  /** `s.slice(n)`. */
  function From(s: string, n: nat): string {
    if n <= |s| then s[n..] else ""
  }

  predicate IsMoved(r: Row, provider: nat, remoteId: string) {
    r.provider == provider && r.remoteId == remoteId
  }

  /** The WHERE clause of the descendants. */
  predicate Selected(r: Row, provider: nat, src: string) {
    r.provider == provider && Matches(r.path, Pattern(src))
  }

  /** The first UPDATE: the moved row itself. */
  function Renamed(rows: seq<Row>, provider: nat, remoteId: string, dst: string, dstName: string): (r: seq<Row>)
    ensures |r| == |rows|
    ensures forall k :: 0 <= k < |rows| ==>
      r[k] == if IsMoved(rows[k], provider, remoteId) then rows[k].(name := dstName, path := dst) else rows[k]
  {
    seq(|rows|, k requires 0 <= k < |rows| =>
      if IsMoved(rows[k], provider, remoteId) then rows[k].(name := dstName, path := dst) else rows[k])
  }

  function Rewritten(r: Row, src: string, dst: string): Row {
    r.(path := dst + From(r.path, |src|))
  }

  /** One row after the whole of updateNodeAfterMove. */
  function AfterMove(r: Row, provider: nat, remoteId: string, src: string, dst: string, dstName: string): Row {
    var s := if IsMoved(r, provider, remoteId) then r.(name := dstName, path := dst) else r;
    if Selected(s, provider, src) then Rewritten(s, src, dst) else s
  }

  datatype Descendant = Descendant(id: nat, path: string)

  /** The selected rows among the first n, each once, ascending. */
  ghost predicate AreSelected(found: seq<Descendant>, rows: seq<Row>, n: nat, provider: nat, src: string)
    requires n <= |rows|
  {
    && (forall j :: 0 <= j < |found| ==>
          found[j].id < n && Selected(rows[found[j].id], provider, src) && found[j].path == rows[found[j].id].path)
    && (forall i, j :: 0 <= i < j < |found| ==> found[i].id < found[j].id)
    && (forall k: nat :: k < n && Selected(rows[k], provider, src) ==> exists j :: 0 <= j < |found| && found[j].id == k)
  }

  lemma {:induction false} FoundAt(found: seq<Descendant>, rows: seq<Row>, n: nat, provider: nat, src: string, k: nat)
      returns (j: nat)
    requires n <= |rows| && AreSelected(found, rows, n, provider, src) && k < n && Selected(rows[k], provider, src)
    ensures j < |found| && found[j].id == k
  {
    j :| 0 <= j < |found| && found[j].id == k;
  }

  lemma {:induction false} OneMoreSelected(found: seq<Descendant>, rows: seq<Row>, n: nat, provider: nat, src: string)
    requires n < |rows| && AreSelected(found, rows, n, provider, src) && Selected(rows[n], provider, src)
    ensures AreSelected(found + [Descendant(n, rows[n].path)], rows, n + 1, provider, src)
  {
    var all := found + [Descendant(n, rows[n].path)];
    assert all[|found|].id == n;
    forall k: nat | k < n && Selected(rows[k], provider, src)
      ensures exists j :: 0 <= j < |all| && all[j].id == k
    {
      var j := FoundAt(found, rows, n, provider, src, k);
      assert all[j].id == k;
    }
  }

  lemma {:induction false} NoneMoreSelected(found: seq<Descendant>, rows: seq<Row>, n: nat, provider: nat, src: string)
    requires n < |rows| && AreSelected(found, rows, n, provider, src) && !Selected(rows[n], provider, src)
    ensures AreSelected(found, rows, n + 1, provider, src)
  {
    forall k: nat | k < n + 1 && Selected(rows[k], provider, src)
      ensures exists j :: 0 <= j < |found| && found[j].id == k
    {
      var j := FoundAt(found, rows, n, provider, src, k);
    }
  }

  class NodesTable {
    var rows: seq<Row>

    constructor (rows: seq<Row>)
      ensures this.rows == rows
    {
      this.rows := rows;
    }

    /** SELECT of the descendants: id and path of each. */
    method SelectDescendants(provider: nat, src: string) returns (found: seq<Descendant>)
      ensures AreSelected(found, rows, |rows|, provider, src)
    {
      found := [];
      for k := 0 to |rows|
        invariant AreSelected(found, rows, k, provider, src)
      {
        if Selected(rows[k], provider, src) {
          OneMoreSelected(found, rows, k, provider, src);
          found := found + [Descendant(k, rows[k].path)];
        } else {
          NoneMoreSelected(found, rows, k, provider, src);
        }
      }
    }

    method UpdateNodeAfterMove(provider: nat, remoteId: string, src: string, dst: string, dstName: string)
      modifies this
      ensures |rows| == |old(rows)|
      ensures forall k :: 0 <= k < |rows| ==> rows[k] == AfterMove(old(rows)[k], provider, remoteId, src, dst, dstName)
    {
      rows := Renamed(rows, provider, remoteId, dst, dstName);
      ghost var renamed := rows;
      var descendants := SelectDescendants(provider, src);
      RewriteEach(descendants, provider, src, dst);
    }

    method RewriteEach(descendants: seq<Descendant>, provider: nat, src: string, dst: string)
      requires AreSelected(descendants, rows, |rows|, provider, src)
      modifies this
      ensures |rows| == |old(rows)|
      ensures forall k: nat :: k < |rows| ==>
        rows[k] == if Selected(old(rows)[k], provider, src) then Rewritten(old(rows)[k], src, dst) else old(rows)[k]
    {
      ghost var was := rows;
      for i := 0 to |descendants|
        invariant |rows| == |was|
        invariant forall j :: i <= j < |descendants| ==> rows[descendants[j].id] == was[descendants[j].id]
        invariant forall j :: 0 <= j < i ==> rows[descendants[j].id] == Rewritten(was[descendants[j].id], src, dst)
        invariant forall k: nat :: k < |rows| && !Selected(was[k], provider, src) ==> rows[k] == was[k]
      {
        var d := descendants[i];
        var newPath := dst + From(d.path, |src|);
        rows := rows[d.id := rows[d.id].(path := newPath)];
      }
      forall k: nat | k < |rows| && Selected(was[k], provider, src)
        ensures rows[k] == Rewritten(was[k], src, dst)
      {
        var j := FoundAt(descendants, was, |was|, provider, src, k);
      }
    }

    /** The two updates of handleDelete. */
    method SoftDelete(provider: nat, remoteId: string, src: string)
      modifies this
      ensures |rows| == |old(rows)|
      ensures forall k :: 0 <= k < |rows| ==> rows[k] == old(rows)[k].(deleted := rows[k].deleted)
      ensures forall k :: 0 <= k < |rows| ==>
        (rows[k].deleted <==>
          old(rows)[k].deleted || IsMoved(old(rows)[k], provider, remoteId) || Selected(old(rows)[k], provider, src))
    {
      var was := rows;
      var marked := seq(|was|, k requires 0 <= k < |was| =>
        if IsMoved(was[k], provider, remoteId) then was[k].(deleted := true) else was[k]);
      rows := seq(|marked|, k requires 0 <= k < |marked| =>
        if Selected(marked[k], provider, src) then marked[k].(deleted := true) else marked[k]);
    }
  }

  // ---------------------------------------------------------------------
  // What that means for the tree, for source paths without backslash.
  // ---------------------------------------------------------------------

  /** The moved row gets the new path and name exactly when the destination is not below the
      source; every row below the source gets the destination with its old suffix and keeps
      its name; all other rows are untouched. */
  lemma {:induction false} MovedSubtree(r: Row, provider: nat, remoteId: string, src: string, dst: string,
                                        dstName: string)
    requires '\\' !in src
    ensures var t := AfterMove(r, provider, remoteId, src, dst, dstName);
      && (IsMoved(r, provider, remoteId) ==>
            t.name == dstName && (t.path == dst <==> !Below(src, dst)) && t.path == Landing(src, dst))
      && (!IsMoved(r, provider, remoteId) && r.provider == provider && Below(src, r.path) ==>
            t == r.(path := dst + r.path[|src|..]))
      && (!IsMoved(r, provider, remoteId) && !(r.provider == provider && Below(src, r.path)) ==> t == r)
  {
    PatternMatchesBelow(src, dst);
    PatternMatchesBelow(src, r.path);
  }

  /** Soft deletion takes the node and exactly what is below it. */
  lemma {:induction false} DeletedSubtree(r: Row, provider: nat, src: string)
    requires '\\' !in src
    ensures Selected(r, provider, src) <==> r.provider == provider && Below(src, r.path)
  {
    PatternMatchesBelow(src, r.path);
  }

  predicate ChildOf(c: Row, p: Row) {
    c.path == p.path + ['/'] + c.name
  }

  lemma {:induction false} ChildBelow(src: string, path: string, name: string)
    requires '/' !in name
    ensures Below(src, path + ['/'] + name) <==> path == src || Below(src, path)
  {
    var s := path + ['/'] + name;
    if |src| > |path| {
      assert |src| < |s| ==> s[|src|] == name[|src| - |path| - 1];
    } else {
      assert s[..|src|] == path[..|src|];
      assert |src| < |path| ==> s[..|src| + 1] == path[..|src| + 1];
    }
  }

  /** Where the moved row's own path ends up. */
  function Landing(src: string, dst: string): string {
    if Below(src, dst) then dst + dst[|src|..] else dst
  }

  /** A row whose path is its parent's path and its own name: for any two rows of one provider of
      which the child is not the moved row itself, exactly when it stays so. A second row at the
      source path, live or deleted, is not the moved one and loses its children. */
  lemma {:induction false} ChildrenStayChildren(p: Row, c: Row, provider: nat, remoteId: string, src: string,
                                                dst: string, dstName: string)
    requires '\\' !in src && p.provider == c.provider && !IsMoved(c, provider, remoteId)
    requires ChildOf(c, p) && '/' !in c.name
    ensures ChildOf(AfterMove(c, provider, remoteId, src, dst, dstName),
                    AfterMove(p, provider, remoteId, src, dst, dstName))
      <==> StaysChild(p, provider, remoteId, src, dst)
  {
    MovedSubtree(p, provider, remoteId, src, dst, dstName);
    MovedSubtree(c, provider, remoteId, src, dst, dstName);
    if p.provider == provider {
      ChildBelow(src, p.path, c.name);
      ChildPaths(p, c, IsMoved(p, provider, remoteId), src, dst,
                 AfterMove(p, provider, remoteId, src, dst, dstName).path,
                 AfterMove(c, provider, remoteId, src, dst, dstName).path);
    }
  }

  predicate StaysChild(p: Row, provider: nat, remoteId: string, src: string, dst: string) {
    p.provider != provider ||
    if IsMoved(p, provider, remoteId) then p.path == dst || (p.path == src && !Below(src, dst))
    else p.path != src || src == dst
  }

  /** The paths of a pair of rows of the provider before and after. */
  lemma {:induction false} ChildPaths(p: Row, c: Row, moved: bool, src: string, dst: string, pathOfP: string,
                                      pathOfC: string)
    requires ChildOf(c, p)
    requires Below(src, c.path) <==> p.path == src || Below(src, p.path)
    requires pathOfP ==
      if moved then Landing(src, dst) else if Below(src, p.path) then dst + p.path[|src|..] else p.path
    requires pathOfC == if Below(src, c.path) then dst + c.path[|src|..] else c.path
    ensures pathOfC == pathOfP + ['/'] + c.name
      <==> if moved then p.path == dst || (p.path == src && !Below(src, dst)) else p.path != src || src == dst
  {
    if Below(src, c.path) {
      var suffix := p.path[|src|..];
      assert c.path[|src|..] == suffix + ['/'] + c.name;
      Regroup(dst, suffix, c.name);
      SameChild(dst + suffix, pathOfP, c.name);
      SuffixOf(src, p.path);
      if Below(src, dst) {
        SuffixOf(src, dst);
        SameAppended(dst, suffix, dst[|src|..]);
      } else {
        SameAppended(dst, suffix, []);
      }
      SameAppended(dst, suffix, []);
    } else {
      SameChild(p.path, pathOfP, c.name);
    }
  }

  /** `p + "/" + name` determines p. */
  lemma {:induction false} SameChild(p: string, q: string, name: string)
    ensures p + ['/'] + name == q + ['/'] + name <==> p == q
  {
    if p + ['/'] + name == q + ['/'] + name {
      assert |p| == |q|;
      assert (p + ['/'] + name)[..|p|] == p && (q + ['/'] + name)[..|q|] == q;
    }
  }

  lemma {:induction false} SameAppended(d: string, a: string, b: string)
    ensures d + a == d + b <==> a == b
    ensures d + [] == d
  {
    if d + a == d + b {
      assert (d + a)[|d|..] == a && (d + b)[|d|..] == b;
    }
  }

  lemma {:induction false} SuffixOf(src: string, path: string)
    requires path == src || Below(src, path)
    ensures path == src + path[|src|..]
    ensures path[|src|..] == [] <==> path == src
  {
    assert Below(src, path) ==> path[..|src|] == (src + ['/'])[..|src|] == src;
  }

  lemma {:induction false} Regroup(dst: string, suffix: string, name: string)
    ensures dst + (suffix + ['/'] + name) == (dst + suffix) + ['/'] + name
  {
  }

  /** Deleted, recreated and then moved: the rows below the deleted folder are rewritten away from it. */
  lemma {:induction false} DeletedFolderLosesChildren(provider: nat, childDeleted: bool)
    ensures
      var former := Row(provider, "1", "a", "/a", true);
      var child := Row(provider, "2", "x", "/a/x", childDeleted);
      && ChildOf(child, former)
      && AfterMove(former, provider, "3", "/a", "/b", "b") == former
      && AfterMove(child, provider, "3", "/a", "/b", "b").path == "/b/x"
      && !ChildOf(AfterMove(child, provider, "3", "/a", "/b", "b"), AfterMove(former, provider, "3", "/a", "/b", "b"))
  {
    var former := Row(provider, "1", "a", "/a", true);
    var child := Row(provider, "2", "x", "/a/x", childDeleted);
    assert "/a" + ['/'] == "/a/x"[..3] && "/a" + ['/'] + "x" == "/a/x";
    MovedSubtree(former, provider, "3", "/a", "/b", "b");
    MovedSubtree(child, provider, "3", "/a", "/b", "b");
    assert "/a/x"[2..] == "/x" && "/b" + "/x" == "/b/x";
  }

  /** Something moved into a folder of its own name and place, as a provider that allows the two can
      accept for a file: the destination is below the source path. The moved row ends one
      level too deep, and the rows below that folder, which did not move, are rewritten too. */
  lemma {:induction false} MovedIntoNamesake(r: Row, c: Row, src: string, name: string)
    requires '\\' !in src && c.provider == r.provider && c.remoteId != r.remoteId && Below(src, c.path)
    ensures AfterMove(r, r.provider, r.remoteId, src, src + ['/'] + name, name).path ==
      src + ['/'] + name + ['/'] + name
    ensures AfterMove(c, r.provider, r.remoteId, src, src + ['/'] + name, name).path ==
      src + ['/'] + name + c.path[|src|..]
  {
    var dst := src + ['/'] + name;
    assert src + ['/'] == dst[..|src| + 1];
    MovedSubtree(r, r.provider, r.remoteId, src, dst, name);
    MovedSubtree(c, r.provider, r.remoteId, src, dst, name);
    assert dst[|src|..] == ['/'] + name;
    assert dst + (['/'] + name) == dst + ['/'] + name;
  }

  /** The file /a moved into the folder /a: its row ends at /a/a/a, and the folder's /a/x at /a/a/x. */
  lemma {:induction false} MovedBelowItself(provider: nat)
    ensures
      var file, folder := Row(provider, "1", "a", "/a", false), Row(provider, "2", "a", "/a", false);
      var child := Row(provider, "3", "x", "/a/x", false);
      && AfterMove(file, provider, "1", "/a", "/a/a", "a").path == "/a/a/a"
      && AfterMove(folder, provider, "1", "/a", "/a/a", "a") == folder
      && AfterMove(child, provider, "1", "/a", "/a/a", "a").path == "/a/a/x"
  {
    var file, folder := Row(provider, "1", "a", "/a", false), Row(provider, "2", "a", "/a", false);
    var child := Row(provider, "3", "x", "/a/x", false);
    assert "/a" + ['/'] == "/a/x"[..3];
    MovedIntoNamesake(file, child, "/a", "a");
    assert "/a" + ['/'] + "a" == "/a/a" && "/a/a" + ['/'] + "a" == "/a/a/a";
    assert "/a/x"[2..] == "/x" && "/a/a" + "/x" == "/a/a/x";
    MovedSubtree(folder, provider, "1", "/a", "/a/a", "a");
  }
}
