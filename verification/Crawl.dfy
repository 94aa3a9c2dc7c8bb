/** Counting what a listing loop keeps and what a walk over listings brings, whatever is listed. */
module Crawl {

  function One(b: bool): nat {
    if b then 1 else 0
  }

  /** How often n occurs. */
  ghost function Times<N>(nodes: seq<N>, n: N): nat {
    if nodes == [] then 0 else Times(nodes[..|nodes| - 1], n) + One(nodes[|nodes| - 1] == n)
  }

  lemma {:induction false} TimesSnoc<N>(nodes: seq<N>, x: N, n: N)
    ensures Times(nodes + [x], n) == Times(nodes, n) + One(x == n)
  {
    var all := nodes + [x];
    assert all[..|all| - 1] == nodes;
  }

  lemma {:induction false} TimesAppend<N>(a: seq<N>, b: seq<N>, n: N)
    ensures Times(a + b, n) == Times(a, n) + Times(b, n)
  {
    if b == [] {
      assert a + b == a;
    } else {
      var init, last := b[..|b| - 1], b[|b| - 1];
      TimesAppend(a, init, n);
      TimesSnoc(a + init, last, n);
      TimesSnoc(init, last, n);
      assert init + [last] == b;
      assert a + init + [last] == a + b;
    }
  }

  // ---------------------------------------------------------------------
  // A loop that skips some items and makes a node of each other one.
  // ---------------------------------------------------------------------

  /** The nodes made of the first m ids. */
  function Keep<N>(ids: seq<string>, skip: string -> bool, make: string -> N, m: nat): seq<N>
    requires m <= |ids|
  {
    if m == 0 then []
    else if skip(ids[m - 1]) then Keep(ids, skip, make, m - 1)
    else Keep(ids, skip, make, m - 1) + [make(ids[m - 1])]
  }

  lemma {:induction false} SnocAssoc<N>(a: seq<N>, b: seq<N>, x: N)
    ensures a + b + [x] == a + (b + [x])
  {
  }

  /** all ends in b, from start on. */
  predicate EndsWith(all: seq<string>, start: nat, b: seq<string>) {
    |all| == start + |b| && forall i :: start <= i < |all| ==> all[i] == b[i - start]
  }

  lemma {:induction false} KeepBeyond<N>(all: seq<string>, start: nat, b: seq<string>, skip: string -> bool,
                                         make: string -> N, m: nat)
    requires EndsWith(all, start, b) && start <= m <= |all|
    ensures Keep(all, skip, make, m) == Keep(all, skip, make, start) + Keep(b, skip, make, m - start)
    decreases m
  {
    if m > start {
      KeepBeyond(all, start, b, skip, make, m - 1);
      SnocAssoc(Keep(all, skip, make, start), Keep(b, skip, make, m - 1 - start), make(all[m - 1]));
    }
  }

  lemma {:induction false} KeepAppend<N>(a: seq<string>, b: seq<string>, all: seq<string>, skip: string -> bool,
                                         make: string -> N)
    requires all == a + b
    ensures Keep(all, skip, make, |all|) == Keep(a, skip, make, |a|) + Keep(b, skip, make, |b|)
  {
    KeepPrefix(a, b, skip, make, |a|);
    KeepBeyond(all, |a|, b, skip, make, |all|);
  }

  lemma {:induction false} KeepPrefix<N>(a: seq<string>, b: seq<string>, skip: string -> bool, make: string -> N,
                                         m: nat)
    requires m <= |a|
    ensures Keep(a + b, skip, make, m) == Keep(a, skip, make, m)
  {
    if m > 0 {
      assert (a + b)[m - 1] == a[m - 1];
      KeepPrefix(a, b, skip, make, m - 1);
    }
  }

  predicate Distinct(s: seq<string>) {
    forall i, j :: 0 <= i < j < |s| ==> s[i] != s[j]
  }

  ghost predicate Among(ids: seq<string>, m: nat, id: string)
    requires m <= |ids|
  {
    exists i :: 0 <= i < m && ids[i] == id
  }

  /** If only the item id can make n, n is kept once or never. */
  lemma {:induction false} KeptOnce<N>(ids: seq<string>, skip: string -> bool, make: string -> N, m: nat, n: N,
                                       b: bool, id: string)
    requires m <= |ids| && Distinct(ids)
    requires forall p :: !skip(p) && make(p) == n <==> b && p == id
    ensures Times(Keep(ids, skip, make, m), n) == One(b && Among(ids, m, id))
  {
    if m > 0 {
      var p := ids[m - 1];
      KeptOnce(ids, skip, make, m - 1, n, b, id);
      if !skip(p) {
        TimesSnoc(Keep(ids, skip, make, m - 1), make(p), n);
      }
      assert !skip(p) && make(p) == n <==> b && p == id;
      assert Among(ids, m, id) <==> Among(ids, m - 1, id) || p == id;
    }
  }

  // ---------------------------------------------------------------------
  // A walk.
  // ---------------------------------------------------------------------

  datatype Level<N> = Level(folders: seq<string>, nodes: seq<N>)

  ghost predicate Deepens<N(!new)>(list: string -> Level<N>, bound: nat) {
    forall p, q {:trigger q in list(p).folders} :: q in list(p).folders ==> |p| < |q| <= bound
  }

  /** Everything below a folder: its nodes, then what is below each folder it lists. */
  ghost function Walk<N(!new)>(list: string -> Level<N>, bound: nat, at: string): seq<N>
    requires Deepens(list, bound)
    decreases bound - |at|, |list(at).folders| + 1
  {
    list(at).nodes + WalkFolders(list, bound, at, |list(at).folders|)
  }

  ghost function WalkFolders<N(!new)>(list: string -> Level<N>, bound: nat, at: string, m: nat): seq<N>
    requires Deepens(list, bound) && m <= |list(at).folders|
    decreases bound - |at|, m
  {
    if m == 0 then []
    else
      assert list(at).folders[m - 1] in list(at).folders;
      WalkFolders(list, bound, at, m - 1) + Walk(list, bound, list(at).folders[m - 1])
  }

  ghost predicate BelowOneOf(folders: seq<string>, m: nat, below: string -> bool)
    requires m <= |folders|
  {
    exists i :: 0 <= i < m && below(folders[i])
  }

  /** At one level n is a node of the level, or below exactly one of its folders. */
  ghost predicate SplitsAt<N>(list: string -> Level<N>, n: N, ok: string -> bool, child: string -> bool,
                              below: string -> bool, p: string) {
    var folders := list(p).folders;
    && Times(list(p).nodes, n) == One(child(p))
    && (below(p) <==> child(p) || BelowOneOf(folders, |folders|, below))
    && !(child(p) && BelowOneOf(folders, |folders|, below))
    && (forall i, j :: 0 <= i < j < |folders| ==> !(below(folders[i]) && below(folders[j])))
    && (forall i :: 0 <= i < |folders| ==> ok(folders[i]))
  }

  ghost predicate Splits<N(!new)>(list: string -> Level<N>, n: N, ok: string -> bool, child: string -> bool,
                                  below: string -> bool) {
    forall p {:trigger SplitsAt(list, n, ok, child, below, p)} :: ok(p) ==> SplitsAt(list, n, ok, child, below, p)
  }

  lemma {:induction false} WalkOnce<N(!new)>(list: string -> Level<N>, bound: nat, at: string, n: N,
                                             ok: string -> bool, child: string -> bool, below: string -> bool)
    requires Deepens(list, bound) && Splits(list, n, ok, child, below) && ok(at)
    ensures Times(Walk(list, bound, at), n) == One(below(at))
    decreases bound - |at|, |list(at).folders| + 1
  {
    var folders := list(at).folders;
    assert SplitsAt(list, n, ok, child, below, at);
    FoldersOnce(list, bound, at, |folders|, n, ok, child, below);
    TimesAppend(list(at).nodes, WalkFolders(list, bound, at, |folders|), n);
  }

  lemma {:induction false} FoldersOnce<N(!new)>(list: string -> Level<N>, bound: nat, at: string, m: nat, n: N,
                                                ok: string -> bool, child: string -> bool, below: string -> bool)
    requires Deepens(list, bound) && Splits(list, n, ok, child, below) && ok(at)
    requires m <= |list(at).folders|
    ensures Times(WalkFolders(list, bound, at, m), n) == One(BelowOneOf(list(at).folders, m, below))
    decreases bound - |at|, m
  {
    if m > 0 {
      var folders := list(at).folders;
      var p := folders[m - 1];
      assert SplitsAt(list, n, ok, child, below, at);
      assert p in folders;
      FoldersOnce(list, bound, at, m - 1, n, ok, child, below);
      WalkOnce(list, bound, p, n, ok, child, below);
      TimesAppend(WalkFolders(list, bound, at, m - 1), Walk(list, bound, p), n);
      assert BelowOneOf(folders, m, below) <==> BelowOneOf(folders, m - 1, below) || below(p);
    }
  }
}
