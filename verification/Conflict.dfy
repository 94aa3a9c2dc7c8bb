/** conflict.ts and the conflict branch of transfer.ts: does the destination exist, what to do, and a free name. */
module Conflict {
  import opened Options
  import opened Paths
  import Engine

  // ---------------------------------------------------------------------
  // Decimal numerals.
  // ---------------------------------------------------------------------

  function DigitChar(d: nat): (c: char)
    requires d < 10
    ensures c != '/' && c != '.' && '0' <= c <= '9'
    ensures c == '0' <==> d == 0
  {
    "0123456789"[d]
  }

  /** String(n). */
  function Decimal(n: nat): (s: string)
    ensures s != "" && SlashFree(s) && forall i :: 0 <= i < |s| ==> '0' <= s[i] <= '9'
    ensures n > 0 ==> s[0] != '0'
  {
    if n < 10 then [DigitChar(n)] else Decimal(n / 10) + [DigitChar(n % 10)]
  }

  function DigitValue(c: char): nat {
    if '0' <= c <= '9' then c as int - '0' as int else 0
  }

  function Value(s: string): nat {
    if s == "" then 0 else 10 * Value(s[..|s| - 1]) + DigitValue(s[|s| - 1])
  }

  lemma {:induction false} DigitRoundTrip(d: nat)
    requires d < 10
    ensures DigitValue(DigitChar(d)) == d
  {
    assert "0123456789"[d] == '0' + d as char;
  }

  lemma {:induction false} ValueSnoc(s: string, c: char)
    ensures Value(s + [c]) == 10 * Value(s) + DigitValue(c)
  {
    assert (s + [c])[..|s + [c]| - 1] == s;
  }

  lemma {:induction false} ValueOfDecimal(n: nat)
    ensures Value(Decimal(n)) == n
  {
    if n < 10 {
      DigitRoundTrip(n);
      ValueSnoc("", DigitChar(n));
      assert "" + [DigitChar(n)] == Decimal(n);
    } else {
      ValueOfDecimal(n / 10);
      DigitRoundTrip(n % 10);
      ValueSnoc(Decimal(n / 10), DigitChar(n % 10));
    }
  }

  // ---------------------------------------------------------------------
  // autoRename.
  // ---------------------------------------------------------------------

  function Base(name: string): string {
    var dotIdx := LastIndexOf(name, '.');
    if dotIdx > 0 then name[..dotIdx] else name
  }

  function Ext(name: string): string {
    var dotIdx := LastIndexOf(name, '.');
    if dotIdx > 0 then name[dotIdx..] else ""
  }

  function Candidate(name: string, n: nat): string {
    Base(name) + " (" + Decimal(n) + ")" + Ext(name)
  }

  /** The number goes before the last dot, unless that is the first character, or to the end. */
  lemma {:induction false} CandidateKeepsExtension(name: string, n: nat)
    ensures (forall k :: 0 < k < |name| ==> name[k] != '.') ==>
      Candidate(name, n) == name + " (" + Decimal(n) + ")"
    ensures forall k ::
      0 < k < |name| && name[k] == '.' && (forall l :: k < l < |name| ==> name[l] != '.') ==>
        Candidate(name, n) == name[..k] + " (" + Decimal(n) + ")" + name[k..]
  {
    var idx := LastIndexOf(name, '.');
    var numbered := name + " (" + Decimal(n) + ")";
    assert numbered + "" == numbered;
  }

  lemma {:induction false} MiddleEqual(a: string, x: string, y: string, b: string)
    requires a + x + b == a + y + b
    ensures x == y
  {
    assert |a + x + b| == |a| + |x| + |b| && |a + y + b| == |a| + |y| + |b|;
    assert (a + x + b)[|a|..|a| + |x|] == x;
    assert (a + y + b)[|a|..|a| + |y|] == y;
  }

  /** Different numbers give different candidates. */
  lemma {:induction false} CandidateInjective(name: string, m: nat, n: nat)
    requires Candidate(name, m) == Candidate(name, n)
    ensures m == n
  {
    var a, b := Base(name) + " (", ")" + Ext(name);
    assert a + Decimal(m) + b == Candidate(name, m);
    assert a + Decimal(n) + b == Candidate(name, n);
    MiddleEqual(a, Decimal(m), Decimal(n), b);
    ValueOfDecimal(m);
    ValueOfDecimal(n);
  }

  lemma {:induction false} CandidateIsName(name: string, n: nat)
    requires IsName(name)
    ensures IsName(Candidate(name, n))
  {
    var c := Candidate(name, n);
    assert c == Base(name) + " (" + Decimal(n) + ")" + Ext(name);
    assert SlashFree(Base(name)) && SlashFree(Ext(name)) && SlashFree(" (") && SlashFree(")");
  }

  /** The candidates tried before number n. */
  function Tried(name: string, n: nat): set<string> {
    set m | 1 <= m < n :: Candidate(name, m)
  }

  /** They are n - 1 different ones. */
  lemma {:induction false} TriedAreDistinct(name: string, n: nat)
    requires n >= 1
    ensures |Tried(name, n)| == n - 1
  {
    if n > 1 {
      TriedAreDistinct(name, n - 1);
      OneMoreTried(name, n - 1);
    } else {
      assert Tried(name, n) == {};
    }
  }

  lemma {:induction false} OneMoreTried(name: string, n: nat)
    requires n >= 1
    ensures Tried(name, n + 1) == Tried(name, n) + {Candidate(name, n)}
    ensures Candidate(name, n) !in Tried(name, n)
  {
    if Candidate(name, n) in Tried(name, n) {
      var m :| 1 <= m < n && Candidate(name, m) == Candidate(name, n);
      CandidateInjective(name, m, n);
      assert false;
    }
    assert forall c :: c in Tried(name, n + 1) <==> c in Tried(name, n) || c == Candidate(name, n);
  }

  lemma {:induction false} Subset(a: set<string>, b: set<string>)
    requires a <= b
    ensures |a| <= |b|
  {
    assert |b| == |a| + |b - a|;
  }

  lemma {:induction false} Pigeonhole(name: string, n: nat, siblingNames: set<string>)
    requires n >= 1 && Tried(name, n) <= siblingNames
    ensures n <= |siblingNames| + 1
  {
    TriedAreDistinct(name, n);
    Subset(Tried(name, n), siblingNames);
  }

  /** The loop ends after at most one try more than there are siblings, with the first candidate
      that is free. */
  method AutoRename(name: string, siblingNames: set<string>) returns (candidate: string, ghost tries: nat)
    ensures 1 <= tries <= |siblingNames| + 1
    ensures candidate == Candidate(name, tries) && candidate !in siblingNames
    ensures forall m: nat :: 1 <= m < tries ==> Candidate(name, m) in siblingNames
  {
    var n := 1;
    candidate := Candidate(name, n);
    assert Tried(name, n) == {};
    Pigeonhole(name, n, siblingNames);
    while candidate in siblingNames
      invariant n >= 1 && candidate == Candidate(name, n)
      invariant Tried(name, n) <= siblingNames && n <= |siblingNames| + 1
      decreases |siblingNames| + 1 - n
    {
      OneMoreTried(name, n);
      n := n + 1;
      Pigeonhole(name, n, siblingNames);
      candidate := Candidate(name, n);
    }
    tries := n;
    forall m: nat | 1 <= m < tries
      ensures Candidate(name, m) in siblingNames
    {
      assert Candidate(name, m) in Tried(name, n);
    }
  }

  // ---------------------------------------------------------------------
  // Listings.
  // ---------------------------------------------------------------------

  datatype Child = Child(name: string, isFolder: bool, remoteId: nat)

  type Pages = seq<seq<Child>>

  predicate Lists(pages: Pages, name: string) {
    exists i, j :: 0 <= i < |pages| && 0 <= j < |pages[i]| && pages[i][j].name == name
  }

  predicate ListsId(pages: Pages, name: string, remoteId: nat) {
    exists i, j :: 0 <= i < |pages| && 0 <= j < |pages[i]|
                   && pages[i][j].name == name && pages[i][j].remoteId == remoteId
  }

  /** No child listed before the jth of page i has its name. */
  predicate FirstAt(pages: Pages, name: string, i: nat, j: nat) {
    && i < |pages| && j < |pages[i]| && pages[i][j].name == name
    && (forall k, l :: 0 <= k < i && 0 <= l < |pages[k]| ==> pages[k][l].name != name)
    && (forall l :: 0 <= l < j ==> pages[i][l].name != name)
  }

  /** checkDestinationExists: page after page until the name is found; the first child of the
      name, whatever its type. */
  method CheckDestinationExists(pages: Pages, name: string) returns (existing: Option<Child>)
    ensures existing.Some? <==> Lists(pages, name)
    ensures existing.Some? ==> ListsId(pages, name, existing.value.remoteId)
    ensures existing.Some? ==> exists i: nat, j: nat :: FirstAt(pages, name, i, j) && pages[i][j] == existing.value
  {
    for i := 0 to |pages|
      invariant forall k, l :: 0 <= k < i && 0 <= l < |pages[k]| ==> pages[k][l].name != name
    {
      for j := 0 to |pages[i]|
        invariant forall l :: 0 <= l < j ==> pages[i][l].name != name
      {
        if pages[i][j].name == name {
          assert FirstAt(pages, name, i, j);
          return Some(pages[i][j]);
        }
      }
    }
    return None;
  }

  /** fetchSiblingNames: all pages. */
  method FetchSiblingNames(pages: Pages) returns (names: set<string>)
    ensures forall name :: name in names <==> Lists(pages, name)
  {
    names := {};
    for i := 0 to |pages|
      invariant forall name :: name in names <==>
        exists k, l :: 0 <= k < i && 0 <= l < |pages[k]| && pages[k][l].name == name
    {
      for j := 0 to |pages[i]|
        invariant forall name :: name in names <==>
          (exists k, l :: 0 <= k < i && 0 <= l < |pages[k]| && pages[k][l].name == name) ||
          (exists l :: 0 <= l < j && pages[i][l].name == name)
      {
        names := names + {pages[i][j].name};
      }
    }
  }

  // ---------------------------------------------------------------------
  // The decision and the branch.
  // ---------------------------------------------------------------------

  datatype Strategy = StrategyOverwrite | StrategySkip | StrategyRename | StrategyAsk | StrategyError

  /** resolveConflictDecision: None is the pause. */
  function ResolveConflictDecision(jobDecision: Option<Engine.Decision>, blanket: Option<Engine.Decision>,
                                   strategy: Strategy)
      : Option<Engine.Decision>
  {
    if jobDecision.Some? then jobDecision
    else if blanket.Some? then blanket
    else match strategy
      case StrategySkip => Some(Engine.Skip)
      case StrategyOverwrite => Some(Engine.Overwrite)
      case StrategyRename => Some(Engine.Rename)
      case _ => None
  }

  /** `path.replace(/\/[^/]*$/, "")`. */
  function StripLast(path: string): string {
    var idx := LastIndexOf(path, '/');
    if idx == -1 then path else path[..idx]
  }

  function RenamedPath(path: string, dstName: string): string {
    StripLast(path) + "/" + dstName
  }

  /** The renamed path is the new name under the old parent. */
  lemma {:induction false} RenamedPathJoins(path: string, dstName: string)
    requires Canonical(path) && path != "/" && IsName(dstName)
    ensures RenamedPath(path, dstName) == JoinPath(ParentPath(path), dstName)
    ensures Basename(RenamedPath(path, dstName)) == dstName
    ensures ParentPath(RenamedPath(path, dstName)) == ParentPath(path)
  {
    NormalizeFixesExactlyCanonical(path);
    NormalizeIsRender(path);
    var segs := Segments(path);
    SplitLast(segs);
    var init, last := AllButLast(segs), LastOrEmpty(segs);
    RenderTailSnoc(init, last);
    LastSlashBefore(RenderTail(init), last, path);
    SplitRendered(path, init, last);
    JoinRenders(Render(init), dstName);
    SegmentsOfRender(init);
    SegmentsOfName(dstName);
    RenderTailSnoc(init, dstName);
    SplitUndoesJoin(ParentPath(path), dstName);
    ParentIsCanonical(path);
    NormalizeFixesExactlyCanonical(ParentPath(path));
    AppendAssoc(StripLast(path), "/", dstName);
  }

  datatype Placement = Pause | SkipFile | Place(name: string, path: string, deletes: Option<nat>)

  /** The file takes the place of the first one listed under its name. */
  ghost predicate Overwrites(r: Placement, name: string, path: string, checked: Pages) {
    && r.Place? && r.name == name && r.path == path && r.deletes.Some?
    && exists i: nat, j: nat :: FirstAt(checked, name, i, j) && checked[i][j].remoteId == r.deletes.value
  }

  /** The file goes beside it, under the first numbered name that no sibling has. */
  ghost predicate Renames(r: Placement, name: string, path: string, siblings: Pages) {
    && r.Place? && r.deletes == None && IsName(r.name)
    && (exists n: nat :: n >= 1 && r.name == Candidate(name, n) && !Lists(siblings, r.name)
                         && forall m :: 1 <= m < n ==> Lists(siblings, Candidate(name, m)))
    && r.path == JoinPath(ParentPath(path), r.name)
    && ParentPath(r.path) == ParentPath(path) && Basename(r.path) == r.name
  }

  /** The conflict branch of the transfer handler: where the file goes. The two listings are those
      of checkDestinationExists and fetchSiblingNames. The decision for the job goes before the
      blanket one, and that before the strategy of the operation. */
  method PlaceFile(name: string, path: string, checked: Pages, siblings: Pages,
                   jobDecision: Option<Engine.Decision>, blanket: Option<Engine.Decision>, strategy: Strategy)
      returns (r: Placement)
    requires IsName(name) && Canonical(path) && path != "/"
    ensures !Lists(checked, name) ==> r == Place(name, path, None)
    ensures r.Pause? <==>
      Lists(checked, name) && jobDecision.None? && blanket.None? && strategy in {StrategyAsk, StrategyError}
    ensures Lists(checked, name) && jobDecision == Some(Engine.Skip) ==> r == SkipFile
    ensures Lists(checked, name) && jobDecision == Some(Engine.Overwrite) ==> Overwrites(r, name, path, checked)
    ensures Lists(checked, name) && jobDecision == Some(Engine.Rename) ==> Renames(r, name, path, siblings)
    ensures Lists(checked, name) && jobDecision.None? && blanket == Some(Engine.Skip) ==> r == SkipFile
    ensures Lists(checked, name) && jobDecision.None? && blanket == Some(Engine.Overwrite) ==>
      Overwrites(r, name, path, checked)
    ensures Lists(checked, name) && jobDecision.None? && blanket == Some(Engine.Rename) ==>
      Renames(r, name, path, siblings)
    ensures Lists(checked, name) && jobDecision.None? && blanket.None? && strategy == StrategySkip ==> r == SkipFile
    ensures Lists(checked, name) && jobDecision.None? && blanket.None? && strategy == StrategyOverwrite ==>
      Overwrites(r, name, path, checked)
    ensures Lists(checked, name) && jobDecision.None? && blanket.None? && strategy == StrategyRename ==>
      Renames(r, name, path, siblings)
  {
    var existing := CheckDestinationExists(checked, name);
    if existing.None? {
      return Place(name, path, None);
    }
    var decision := ResolveConflictDecision(jobDecision, blanket, strategy);
    if decision.None? {
      return Pause;
    }
    match decision.value
    case Skip =>
      return SkipFile;
    case Overwrite =>
      return Place(name, path, Some(existing.value.remoteId));
    case Rename =>
      var names := FetchSiblingNames(siblings);
      var dstName, tries := AutoRename(name, names);
      CandidateIsName(name, tries);
      RenamedPathJoins(path, dstName);
      return Place(dstName, RenamedPath(path, dstName), None);
  }
}
