/**
  The path algebra of packages/storage/path.ts.

  The functions below are the string manipulations of the source. Their meaning
  is given by an independent reading of a path as the sequence of its non-empty
  segments: `Segments` and `Render` are that reading, and every operation is
  shown to be the obvious list operation on segments.
  Paths are sequences of characters already in NFC.
  */
module Paths {

  /** Index of the last occurrence of `c`, or -1: String.prototype.lastIndexOf. */
  function LastIndexOf(s: string, c: char): (i: int)
    ensures -1 <= i < |s|
    ensures i >= 0 ==> s[i] == c
    ensures forall k :: i < k < |s| ==> s[k] != c
  {
    if s == "" then -1
    else if s[|s| - 1] == c then |s| - 1
    else LastIndexOf(s[..|s| - 1], c)
  }

  /** `p.replace(/\/+/g, "/")`. */
  function Collapse(s: string): string {
    if |s| <= 1 then s
    else if s[0] == '/' && s[1] == '/' then Collapse(s[1..])
    else [s[0]] + Collapse(s[1..])
  }

  function NormalizePath(p: string): string {
    if p == "" then "/"
    else
      var withLeading := if p[0] == '/' then p else "/" + p;
      var collapsed := Collapse(withLeading);
      if |collapsed| > 1 && collapsed[|collapsed| - 1] == '/'
      then collapsed[..|collapsed| - 1]
      else collapsed
  }

  function JoinPath(parent: string, name: string): string {
    if parent == "/" || parent == "" then NormalizePath("/" + name)
    else NormalizePath(parent + "/" + name)
  }

  function ParentPath(p: string): string {
    var norm := NormalizePath(p);
    if norm == "/" then "/"
    else
      var idx := LastIndexOf(norm, '/');
      if idx <= 0 then "/" else norm[..idx]
  }

  function Basename(p: string): string {
    var norm := NormalizePath(p);
    var idx := LastIndexOf(norm, '/');
    if idx == -1 then norm else norm[idx + 1..]
  }

  // ---------------------------------------------------------------------
  // The reference reading: a path is the list of its non-empty segments.
  // ---------------------------------------------------------------------

  predicate SlashFree(s: string) {
    '/' !in s
  }

  /** A file or folder name the planner is allowed to see. */
  predicate IsName(s: string) {
    s != "" && SlashFree(s)
  }

  predicate AreNames(segs: seq<string>) {
    forall k :: 0 <= k < |segs| ==> IsName(segs[k])
  }

  function FirstSlash(s: string): (i: nat)
    ensures i <= |s|
    ensures i < |s| ==> s[i] == '/'
    ensures SlashFree(s[..i])
  {
    if s == "" || s[0] == '/' then 0 else 1 + FirstSlash(s[1..])
  }

  function Segments(s: string): (segs: seq<string>)
    ensures AreNames(segs)
    decreases |s|
  {
    var i := FirstSlash(s);
    var rest := if i < |s| then Segments(s[i + 1..]) else [];
    if i == 0 then rest else [s[..i]] + rest
  }

  function RenderTail(segs: seq<string>): string {
    if segs == [] then "" else "/" + segs[0] + RenderTail(segs[1..])
  }

  function Render(segs: seq<string>): string {
    if segs == [] then "/" else RenderTail(segs)
  }

  function AllButLast(segs: seq<string>): seq<string> {
    if segs == [] then [] else segs[..|segs| - 1]
  }

  function LastOrEmpty(segs: seq<string>): string {
    if segs == [] then "" else segs[|segs| - 1]
  }

  /** Leading slash, no double slash, no trailing slash except for the root. */
  predicate Canonical(p: string) {
    && p != ""
    && p[0] == '/'
    && (forall k :: 0 <= k < |p| - 1 ==> !(p[k] == '/' && p[k + 1] == '/'))
    && (|p| > 1 ==> p[|p| - 1] != '/')
  }

  // ---------------------------------------------------------------------
  // normalizePath renders the segments.
  // ---------------------------------------------------------------------

  lemma {:induction false} FirstSlashAt(head: string, rest: string)
    requires SlashFree(head)
    requires rest == "" || rest[0] == '/'
    ensures FirstSlash(head + rest) == |head|
  {
    if head == "" {
      assert head + rest == rest;
    } else {
      assert (head + rest)[1..] == head[1..] + rest;
      FirstSlashAt(head[1..], rest);
    }
  }

  lemma {:induction false} CollapseAfterName(head: string, rest: string)
    requires SlashFree(head)
    ensures Collapse(head + rest) == head + Collapse(rest)
  {
    if head == "" {
      assert head + rest == rest;
    } else {
      var s, tail := head + rest, head[1..];
      assert s[1..] == tail + rest && s[0] == head[0];
      CollapseAfterName(tail, rest);
      CollapseOther(s);
      assert [head[0]] + (tail + Collapse(rest)) == head + Collapse(rest);
    }
  }

  lemma {:induction false} CollapseOther(s: string)
    requires s != "" && s[0] != '/'
    ensures Collapse(s) == [s[0]] + Collapse(s[1..])
  {
  }

  predicate EndsOpen(x: string) {
    x == "" || x[|x| - 1] == '/'
  }

  function Closing(x: string): string {
    if EndsOpen(x) then "/" else ""
  }

  lemma {:induction false} CollapseRenders(x: string)
    ensures Collapse(['/'] + x) == RenderTail(Segments(x)) + Closing(x)
    decreases |x|
  {
    var i := FirstSlash(x);
    if x == "" {
    } else if i == 0 {
      CollapseRenders(x[1..]);
      CollapseDoubled(x, x[1..]);
    } else if i < |x| {
      CollapseRenders(x[i + 1..]);
      CollapseRendersName(x, x[..i], x[i + 1..]);
    } else {
      LastSegment(x);
      assert x == x + "";
      CollapseStep(['/'] + x, x, "");
      LastName(x);
    }
  }

  lemma {:induction false} Regroup(a: string, b: string, c: string, d: string)
    ensures a + (b + (c + d)) == (a + b + c) + d
  {
  }

  lemma {:induction false} CollapseRendersName(x: string, head: string, y: string)
    requires IsName(head) && x == head + (['/'] + y)
    requires Collapse(['/'] + y) == RenderTail(Segments(y)) + Closing(y)
    ensures Collapse(['/'] + x) == RenderTail(Segments(x)) + Closing(x)
  {
    CollapseStep(['/'] + x, head, ['/'] + y);
    SegmentsOfParts(x, head, y);
    RenderTailCons(head, Segments(y));
    Regroup(['/'], head, RenderTail(Segments(y)), Closing(y));
    ClosingOfSuffix(x, head, y);
  }

  lemma {:induction false} CollapseDoubled(x: string, y: string)
    requires x == ['/'] + y
    ensures Collapse(['/'] + x) == Collapse(['/'] + y)
    ensures Segments(x) == Segments(y) && Closing(x) == Closing(y)
  {
    assert (['/'] + x)[1..] == x;
    assert x[1..] == y;
    SegmentsAfterSlash(x);
  }

  lemma {:induction false} ClosingOfSuffix(x: string, head: string, y: string)
    requires x == head + (['/'] + y)
    ensures Closing(x) == Closing(y)
  {
  }

  /** Splitting at a first slash. */
  lemma {:induction false} SegmentsOfParts(s: string, head: string, y: string)
    requires SlashFree(head) && s == head + (['/'] + y)
    ensures Segments(s) == (if head == "" then [] else [head]) + Segments(y)
  {
    FirstSlashAt(head, ['/'] + y);
    assert s[..|head|] == head;
    assert s[|head| + 1..] == y;
  }

  lemma {:induction false} LastName(x: string)
    requires IsName(x)
    ensures RenderTail([x]) + Closing(x) == ['/'] + (x + Collapse(""))
  {
    RenderTailCons(x, []);
    assert [x] + [] == [x];
  }

  lemma {:induction false} RenderTailCons(head: string, rest: seq<string>)
    ensures RenderTail([head] + rest) == "/" + head + RenderTail(rest)
  {
    assert ([head] + rest)[1..] == rest;
  }

  lemma {:induction false} CollapseLead(s: string, x: string)
    requires s == ['/'] + x && x != "" && x[0] != '/'
    ensures Collapse(s) == ['/'] + Collapse(x)
  {
    assert s[1..] == x && s[1] == x[0];
  }

  lemma {:induction false} CollapseStep(s: string, head: string, rest: string)
    requires head != "" && SlashFree(head)
    requires s == ['/'] + (head + rest)
    ensures Collapse(s) == ['/'] + (head + Collapse(rest))
  {
    CollapseLead(s, head + rest);
    CollapseAfterName(head, rest);
  }

  lemma {:induction false} RenderTailEnds(segs: seq<string>)
    requires AreNames(segs) && segs != []
    ensures |RenderTail(segs)| > 1
    ensures RenderTail(segs)[0] == '/'
    ensures RenderTail(segs)[|RenderTail(segs)| - 1] != '/'
  {
    var t := RenderTail(segs[1..]);
    if |segs| > 1 {
      RenderTailEnds(segs[1..]);
    } else {
      assert IsName(segs[0]);
      assert RenderTail(segs) == "/" + segs[0];
    }
  }

  lemma {:induction false} NormalizeIsRender(p: string)
    ensures NormalizePath(p) == Render(Segments(p))
  {
    if p != "" {
      var x := if p[0] == '/' then p[1..] else p;
      assert (if p[0] == '/' then p else "/" + p) == ['/'] + x;
      if p[0] == '/' {
        SegmentsAfterSlash(p);
      }
      CollapseRenders(x);
      TrimRendered(x, Collapse(['/'] + x));
    }
  }

  lemma {:induction false} TrimRendered(x: string, c: string)
    requires c == RenderTail(Segments(x)) + Closing(x)
    ensures (if |c| > 1 && c[|c| - 1] == '/' then c[..|c| - 1] else c) == Render(Segments(x))
  {
    if Segments(x) == [] {
      SegmentsOfOpen(x);
    } else {
      RenderTailEnds(Segments(x));
    }
  }

  lemma {:induction false} SegmentsOfOpen(x: string)
    requires Segments(x) == []
    ensures EndsOpen(x)
    decreases |x|
  {
    var i := FirstSlash(x);
    if i < |x| {
      SegmentsOfOpen(x[i + 1..]);
    }
  }

  lemma {:induction false} AppendAssoc<T>(a: seq<T>, b: seq<T>, c: seq<T>)
    ensures (a + b) + c == a + (b + c)
  {
  }

  lemma {:induction false} JoinParts(a: string, head: string, y: string, b: string)
    requires a == head + (['/'] + y)
    ensures a + "/" + b == head + (['/'] + (y + "/" + b))
  {
    AppendAssoc(head, ['/'] + y, "/" + b);
    AppendAssoc(a, "/", b);
    AppendAssoc(['/'], y, "/" + b);
    AppendAssoc(y, "/", b);
  }

  lemma {:induction false} SegmentsOfJoin(a: string, b: string)
    ensures Segments(a + "/" + b) == Segments(a) + Segments(b)
    decreases |a|
  {
    var i := FirstSlash(a);
    if i < |a| {
      var head, y := a[..i], a[i + 1..];
      JoinParts(a, head, y, b);
      SegmentsOfJoin(y, b);
      SegmentsOfParts(a, head, y);
      SegmentsOfParts(a + "/" + b, head, y + "/" + b);
      AppendAssoc(if head == "" then [] else [head], Segments(y), Segments(b));
    } else {
      LastSegment(a);
      AppendAssoc(a, "/", b);
      SegmentsOfParts(a + "/" + b, a, b);
    }
  }

  lemma {:induction false} LastSegment(a: string)
    requires FirstSlash(a) == |a|
    ensures SlashFree(a)
    ensures Segments(a) == if a == "" then [] else [a]
  {
    assert a[..|a|] == a;
  }

  lemma {:induction false} SegmentsOfRenderTail(segs: seq<string>)
    requires AreNames(segs)
    ensures Segments(RenderTail(segs)) == segs
  {
    if segs != [] {
      var t := RenderTail(segs[1..]);
      SegmentsOfRenderTail(segs[1..]);
      assert IsName(segs[0]);
      if segs[1..] != [] {
        RenderTailEnds(segs[1..]);
      }
      SegmentsOfLeading(segs[0], t);
      assert segs == [segs[0]] + segs[1..];
    }
  }

  lemma {:induction false} SegmentsOfLeading(name: string, t: string)
    requires IsName(name)
    requires t == "" || t[0] == '/'
    ensures Segments("/" + name + t) == [name] + Segments(t)
  {
    var x := name + t;
    var r := "/" + name + t;
    assert r[1..] == x;
    SegmentsAfterSlash(r);
    FirstSlashAt(name, t);
    assert x[..|name|] == name;
    if t != "" {
      assert x[|name| + 1..] == t[1..];
      SegmentsAfterSlash(t);
    }
  }

  lemma {:induction false} SegmentsAfterSlash(r: string)
    requires r != "" && r[0] == '/'
    ensures Segments(r) == Segments(r[1..])
  {
    assert FirstSlash(r) == 0;
  }

  lemma {:induction false} SegmentsOfRender(segs: seq<string>)
    requires AreNames(segs)
    ensures Segments(Render(segs)) == segs
  {
    SegmentsOfRenderTail(segs);
  }

  lemma {:induction false} RenderTailCanonical(segs: seq<string>)
    requires AreNames(segs)
    ensures segs != [] ==> Canonical(RenderTail(segs))
  {
    if segs != [] {
      RenderTailEnds(segs);
      RenderTailCanonical(segs[1..]);
      var r, t := RenderTail(segs), RenderTail(segs[1..]);
      assert IsName(segs[0]);
      forall k | 0 <= k < |r| - 1
        ensures !(r[k] == '/' && r[k + 1] == '/')
      {
        if 0 < k <= |segs[0]| {
          assert r[k] == segs[0][k - 1];
        } else if k == 0 {
          assert r[1] == segs[0][0];
        } else {
          assert r[k] == t[k - 1 - |segs[0]|] && r[k + 1] == t[k - |segs[0]|];
        }
      }
    }
  }

  lemma {:induction false} NoDoubleSlashCollapse(p: string)
    requires forall k :: 0 <= k < |p| - 1 ==> !(p[k] == '/' && p[k + 1] == '/')
    ensures Collapse(p) == p
  {
    if |p| > 1 {
      assert !(p[0] == '/' && p[0 + 1] == '/');
      forall k | 0 <= k < |p[1..]| - 1
        ensures !(p[1..][k] == '/' && p[1..][k + 1] == '/')
      {
        assert !(p[k + 1] == '/' && p[k + 1 + 1] == '/');
      }
      NoDoubleSlashCollapse(p[1..]);
    }
  }

  /** normalizePath yields canonical paths only, and leaves exactly those alone. */
  lemma {:induction false} NormalizeFixesExactlyCanonical(p: string)
    ensures Canonical(NormalizePath(p))
    ensures Canonical(p) <==> NormalizePath(p) == p
    ensures NormalizePath(NormalizePath(p)) == NormalizePath(p)
  {
    NormalizeIsRender(p);
    var q := NormalizePath(p);
    RenderTailCanonical(Segments(p));
    NoDoubleSlashCollapse(q);
    assert NormalizePath(q) == q;
    if Canonical(p) {
      NoDoubleSlashCollapse(p);
    }
  }

  lemma {:induction false} RenderTailAppend(xs: seq<string>, ys: seq<string>)
    ensures RenderTail(xs + ys) == RenderTail(xs) + RenderTail(ys)
  {
    if xs == [] {
      assert xs + ys == ys;
    } else {
      assert (xs + ys)[1..] == xs[1..] + ys;
      RenderTailAppend(xs[1..], ys);
    }
  }

  lemma {:induction false} LastSlashBefore(a: string, name: string, s: string)
    requires SlashFree(name)
    requires s == a + ("/" + name)
    ensures LastIndexOf(s, '/') == |a|
    ensures s[..|a|] == a && s[|a| + 1..] == name
  {
    assert s[|a|] == '/';
    forall k | |a| < k < |s|
      ensures s[k] != '/'
    {
      assert s[k] == name[k - |a| - 1];
    }
  }

  /** The three operations on segments: joining concatenates, the parent drops
      the last segment, the base name is the last segment. */
  lemma {:induction false} PathOperationsOnSegments(p: string, name: string)
    ensures JoinPath(p, name) == Render(Segments(p) + Segments(name))
    ensures ParentPath(p) == Render(AllButLast(Segments(p)))
    ensures Basename(p) == LastOrEmpty(Segments(p))
  {
    JoinRenders(p, name);
    SplitSegments(p);
  }

  lemma {:induction false} SplitLast(segs: seq<string>)
    requires AreNames(segs) && segs != []
    ensures segs == AllButLast(segs) + [LastOrEmpty(segs)]
    ensures AreNames(AllButLast(segs)) && IsName(LastOrEmpty(segs))
  {
  }

  lemma {:induction false} SplitRoot(p: string)
    requires NormalizePath(p) == "/"
    ensures ParentPath(p) == "/" && Basename(p) == ""
  {
    assert LastIndexOf("/", '/') == 0;
  }

  lemma {:induction false} SplitSegments(p: string)
    ensures ParentPath(p) == Render(AllButLast(Segments(p)))
    ensures Basename(p) == LastOrEmpty(Segments(p))
  {
    NormalizeIsRender(p);
    var segs := Segments(p);
    if segs == [] {
      SplitRoot(p);
    } else {
      SplitLast(segs);
      SplitRendered(p, AllButLast(segs), LastOrEmpty(segs));
    }
  }

  lemma {:induction false} RenderTailSnoc(init: seq<string>, last: string)
    ensures RenderTail(init + [last]) == RenderTail(init) + ("/" + last)
  {
    RenderTailAppend(init, [last]);
    RenderTailCons(last, []);
    assert [last] + [] == [last];
  }

  lemma {:induction false} SplitRendered(p: string, init: seq<string>, last: string)
    requires AreNames(init) && IsName(last)
    requires NormalizePath(p) == RenderTail(init + [last])
    ensures ParentPath(p) == Render(init) && Basename(p) == last
  {
    var norm := NormalizePath(p);
    RenderTailSnoc(init, last);
    LastSlashBefore(RenderTail(init), last, norm);
    assert |norm| > 1;
    if init != [] {
      RenderTailEnds(init);
    }
  }

  lemma {:induction false} JoinRenders(p: string, name: string)
    ensures JoinPath(p, name) == Render(Segments(p) + Segments(name))
  {
    var empty := "";
    if p == "/" || p == "" {
      assert FirstSlash("/") == 0 && "/"[1..] == "";
      assert Segments(p) == [];
      NormalizeIsRender("/" + name);
      SegmentsOfJoin(empty, name);
      assert empty + "/" + name == "/" + name;
      assert [] + Segments(name) == Segments(name);
    } else {
      NormalizeIsRender(p + "/" + name);
      SegmentsOfJoin(p, name);
    }
  }

  lemma {:induction false} SegmentsOfName(name: string)
    requires IsName(name)
    ensures Segments(name) == [name]
  {
    FirstSlashAt(name, "");
    assert name + "" == name && name[..|name|] == name;
  }

  /** Joining a name under any path and taking it apart again gives both back. */
  lemma {:induction false} SplitUndoesJoin(parent: string, name: string)
    requires IsName(name)
    ensures Canonical(JoinPath(parent, name))
    ensures ParentPath(JoinPath(parent, name)) == NormalizePath(parent)
    ensures Basename(JoinPath(parent, name)) == name
    ensures |JoinPath(parent, name)| > |NormalizePath(parent)|
  {
    JoinRenders(parent, name);
    SegmentsOfName(name);
    var init := Segments(parent);
    var segs := init + [name];
    SegmentsOfRenderTail(segs);
    NormalizeIsRender(JoinPath(parent, name));
    SplitRendered(JoinPath(parent, name), init, name);
    NormalizeIsRender(parent);
    RenderTailCanonical(segs);
    RenderTailSnoc(init, name);
  }

  /** Taking a canonical path apart and joining the two halves gives it back. */
  lemma {:induction false} JoinUndoesSplit(p: string)
    requires Canonical(p) && p != "/"
    ensures JoinPath(ParentPath(p), Basename(p)) == p
    ensures IsName(Basename(p))
    ensures Canonical(ParentPath(p))
    ensures |ParentPath(p)| < |p|
  {
    NormalizeFixesExactlyCanonical(p);
    NormalizeIsRender(p);
    var segs := Segments(p);
    assert segs == segs[..|segs| - 1] + [segs[|segs| - 1]];
    JoinUndoesSplitSegments(p, segs[..|segs| - 1], segs[|segs| - 1]);
  }

  lemma {:induction false} JoinUndoesSplitSegments(p: string, init: seq<string>, last: string)
    requires AreNames(init) && IsName(last)
    requires p == NormalizePath(p) == RenderTail(init + [last])
    ensures JoinPath(ParentPath(p), Basename(p)) == p
    ensures Basename(p) == last && Canonical(ParentPath(p)) && |ParentPath(p)| < |p|
  {
    SplitRendered(p, init, last);
    SegmentsOfName(last);
    SegmentsOfRender(init);
    JoinRenders(Render(init), last);
    RenderTailSnoc(init, last);
    RenderTailCanonical(init);
  }

  /** The parent of any string is canonical, and is the string's own path only
      for the root. */
  lemma {:induction false} ParentIsCanonical(p: string)
    ensures Canonical(ParentPath(p))
    ensures Canonical(p) ==> (ParentPath(p) == p <==> p == "/")
    ensures Canonical(p) && p != "/" ==> |ParentPath(p)| < |p|
  {
    NormalizeFixesExactlyCanonical(p);
    PathOperationsOnSegments(p, "");
    var segs := Segments(p);
    assert AreNames(AllButLast(segs));
    RenderTailCanonical(AllButLast(segs));
    if Canonical(p) && p != "/" {
      JoinUndoesSplit(p);
    }
  }
}
