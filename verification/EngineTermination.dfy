/** Every run is finite: a natural number falls with every action. */
module EngineTermination {
  import opened Engine
  import opened Options
  import opened EngineInvariant

  /** What a process can still do by itself. */
  function Rank(p: Process): nat {
    match p
    case Waiting(_, a, _) => if a < MAX_ATTEMPTS then 18 - 2 * a else 0
    case Handling(_, a, _) => if a < MAX_ATTEMPTS then 17 - 2 * a else 0
    case Exhausted(_) => 8
    case Crediting(_, _) => 7
    case Selecting(_) => 6
    case Releasing(_, _) => 5
    case Cascading(_) => 4
    case Reading => 3
    case Deciding(_) => 2
    case Publishing(_) => 1
    case Launching(_) => 1
    case Resolving(_) => 4
    case Readding(_, _) => 23
    case Done => 0
  }

  /** What a job can still give rise to: its first delivery, one decision, one skip. */
  function Weight(s: State, j: nat): nat
    requires j < |s.status|
  {
    (if j in s.keys then 0 else 19) + (if j in s.decided then 0 else 26) + (if s.status[j] == Queued then 1 else 0)
  }

  function JobsWeight(s: State, n: nat): nat
    requires n <= |s.status|
  {
    if n == 0 then 0 else JobsWeight(s, n - 1) + Weight(s, n - 1)
  }

  function ProcsRank(procs: seq<Process>): nat {
    if procs == [] then 0 else ProcsRank(procs[..|procs| - 1]) + Rank(procs[|procs| - 1])
  }

  function Potential(s: State): nat {
    JobsWeight(s, |s.status|) + ProcsRank(s.procs)
  }

  lemma {:induction false} RankUpdate(procs: seq<Process>, i: nat, p: Process)
    requires i < |procs|
    ensures ProcsRank(procs[i := p]) + Rank(procs[i]) == ProcsRank(procs) + Rank(p)
  {
    var n := |procs| - 1;
    if i < n {
      assert procs[i := p][..n] == procs[..n][i := p];
      RankUpdate(procs[..n], i, p);
    } else {
      assert procs[i := p][..n] == procs[..n];
    }
  }

  lemma {:induction false} RankAppend(procs: seq<Process>, p: Process)
    ensures ProcsRank(procs + [p]) == ProcsRank(procs) + Rank(p)
  {
    assert (procs + [p])[..|procs|] == procs;
  }

  lemma {:induction false} WeightsFall(s: State, t: State, n: nat)
    requires n <= |s.status| == |t.status|
    requires forall x: nat :: x < n ==> Weight(t, x) <= Weight(s, x)
    ensures JobsWeight(t, n) <= JobsWeight(s, n)
  {
    if n > 0 {
      WeightsFall(s, t, n - 1);
    }
  }

  lemma {:induction false} WeightsFallBut(s: State, t: State, n: nat, k: nat)
    requires k < n <= |s.status| == |t.status|
    requires forall x: nat :: x < n && x != k ==> Weight(t, x) <= Weight(s, x)
    ensures JobsWeight(t, n) + Weight(s, k) <= JobsWeight(s, n) + Weight(t, k)
  {
    if k == n - 1 {
      WeightsFall(s, t, n - 1);
    } else {
      WeightsFallBut(s, t, n - 1, k);
    }
  }

  /** The job whose row an action may change the weight of. */
  predicate Changes(plan: Plan, s: State, a: Action, k: nat)
    requires Sized(plan, s)
  {
    match a
    case AddRoot(i) => i < |s.procs| && s.procs[i].Launching? && s.procs[i].todo != [] && s.procs[i].todo[0] == k
    case ReleaseOne(i) => i < |s.procs| && s.procs[i].Releasing? && s.procs[i].todo != [] && s.procs[i].todo[0] == k
    case Resolve(j, _) => j == k
    case ResolveMore(_, j) => j == k
    case CascadeLevel(i) =>
      i < |s.procs| && s.procs[i].Cascading? && k in SkippedBy(plan, s.status, s.procs[i].frontier)
    case _ => false
  }

  lemma {:induction false} WeightKeptSolo(plan: Plan, s: State, a: Action, x: nat)
    requires Sized(plan, s) && Enabled(plan, s, a) && x < |plan| && Solo(a)
    requires Sized(plan, Next(plan, s, a))
    ensures Weight(Next(plan, s, a), x) <= Weight(s, x)
    ensures Changes(plan, s, a, x) ==> Weight(Next(plan, s, a), x) < Weight(s, x)
  {
  }

  lemma {:induction false} WeightKeptStart(plan: Plan, s: State, a: Action, x: nat)
    requires Sized(plan, s) && Enabled(plan, s, a) && x < |plan| && !Solo(a)
    requires Sized(plan, Next(plan, s, a)) && !Changes(plan, s, a, x)
    ensures Weight(Next(plan, s, a), x) == Weight(s, x)
  {
  }

  lemma {:induction false} SoloRank(plan: Plan, s: State, a: Action)
    requires Sized(plan, s) && Enabled(plan, s, a) && Solo(a) && ProcOk(plan, s, s.procs[a.i])
    ensures Rank(Next(plan, s, a).procs[a.i]) < Rank(s.procs[a.i])
      || (a.CascadeLevel? && Rank(Next(plan, s, a).procs[a.i]) == Rank(s.procs[a.i])
          && SkippedBy(plan, s.status, s.procs[a.i].frontier) != {})
  {
    if OfDelivery(a) || a.Claim? {
      DeliveryRank(plan, s, a);
    }
  }

  lemma {:induction false} DeliveryRank(plan: Plan, s: State, a: Action)
    requires Sized(plan, s) && Enabled(plan, s, a) && (OfDelivery(a) || a.Claim?) && ProcOk(plan, s, s.procs[a.i])
    ensures Rank(Next(plan, s, a).procs[a.i]) < Rank(s.procs[a.i])
  {
  }

  lemma {:induction false} SoloFalls(plan: Plan, s: State, a: Action)
    requires IsForest(plan) && Structure(plan, s) && Enabled(plan, s, a) && Solo(a)
    requires Sized(plan, Next(plan, s, a))
    ensures Potential(Next(plan, s, a)) < Potential(s)
  {
    var t := Next(plan, s, a);
    SoloStep(plan, s, a);
    assert ProcOk(plan, s, s.procs[a.i]);
    SoloRank(plan, s, a);
    RankUpdate(s.procs, a.i, t.procs[a.i]);
    forall x: nat | x < |plan|
      ensures Weight(t, x) <= Weight(s, x)
    {
      WeightKeptSolo(plan, s, a, x);
    }
    if Rank(t.procs[a.i]) < Rank(s.procs[a.i]) {
      WeightsFall(s, t, |plan|);
    } else {
      var k :| k in SkippedBy(plan, s.status, s.procs[a.i].frontier);
      WeightKeptSolo(plan, s, a, k);
      WeightsFallBut(s, t, |plan|, k);
    }
  }

  lemma {:induction false} AddFalls(plan: Plan, s: State, a: Action)
    requires IsForest(plan) && Structure(plan, s) && Enabled(plan, s, a)
    requires (a.AddRoot? || a.ReleaseOne?) && s.procs[a.i].todo != []
    requires Sized(plan, Next(plan, s, a))
    ensures Potential(Next(plan, s, a)) < Potential(s)
  {
    var t := Next(plan, s, a);
    var k := s.procs[a.i].todo[0];
    assert k in TodoOf(s.procs[a.i]);
    TodoFacts(plan, s, s.procs[a.i], k);
    forall x: nat | x < |plan| && x != k
      ensures Weight(t, x) <= Weight(s, x)
    {
      WeightKeptStart(plan, s, a, x);
    }
    WeightsFallBut(s, t, |plan|, k);
    AddShape(plan, s, a, k);
    var mid := s.procs[a.i := t.procs[a.i]];
    RankUpdate(s.procs, a.i, t.procs[a.i]);
    RankAppend(mid, Waiting(k, 0, None));
  }

  lemma {:induction false} AddShape(plan: Plan, s: State, a: Action, k: nat)
    requires Sized(plan, s) && Enabled(plan, s, a)
    requires (a.AddRoot? || a.ReleaseOne?) && s.procs[a.i].todo != []
    requires k == s.procs[a.i].todo[0] && k < |plan| && k !in s.keys
    ensures var t := Next(plan, s, a);
      && t.procs == s.procs[a.i := t.procs[a.i]] + [Waiting(k, 0, None)]
      && Rank(t.procs[a.i]) == Rank(s.procs[a.i])
      && |t.status| == |s.status| && Weight(t, k) + 19 == Weight(s, k)
  {
  }

  lemma {:induction false} ReleaseDoneFalls(plan: Plan, s: State, i: nat)
    requires Sized(plan, s) && Enabled(plan, s, ReleaseOne(i)) && s.procs[i].todo == []
    ensures Potential(Next(plan, s, ReleaseOne(i))) < Potential(s)
  {
    var t := Next(plan, s, ReleaseOne(i));
    RankUpdate(s.procs, i, Reading);
    WeightsFall(s, t, |plan|);
  }

  lemma {:induction false} ResolveFalls(plan: Plan, s: State, a: Action)
    requires IsForest(plan) && Structure(plan, s) && Enabled(plan, s, a)
    requires a.Resolve? || a.ResolveMore?
    requires Sized(plan, Next(plan, s, a))
    ensures Potential(Next(plan, s, a)) < Potential(s)
  {
    var t := Next(plan, s, a);
    assert RowOk(plan, s, a.j);
    forall x: nat | x < |plan| && x != a.j
      ensures Weight(t, x) <= Weight(s, x)
    {
      WeightKeptStart(plan, s, a, x);
    }
    WeightsFallBut(s, t, |plan|, a.j);
    ResolvedWeight(plan, s, a);
    if a.Resolve? {
      RankAppend(s.procs, t.procs[|s.procs|]);
    } else {
      RankUpdate(s.procs, a.i, t.procs[a.i]);
    }
  }

  lemma {:induction false} ResolvedWeight(plan: Plan, s: State, a: Action)
    requires a.Resolve? || a.ResolveMore?
    requires Sized(plan, s) && Enabled(plan, s, a) && RowOk(plan, s, a.j)
    ensures var t := Next(plan, s, a);
      && |t.status| == |s.status| && Weight(t, a.j) + 25 <= Weight(s, a.j)
      && (a.Resolve? ==> t.procs == s.procs + [t.procs[|s.procs|]] && Rank(t.procs[|s.procs|]) <= 23)
      && (a.ResolveMore? ==> t.procs == s.procs[a.i := t.procs[a.i]] && Rank(t.procs[a.i]) <= 23)
  {
    if a.Resolve? {
      AfterResolvingFalls(plan, s, a.j, a.d);
    } else {
      AfterResolvingFalls(plan, s, a.j, s.procs[a.i].choice);
    }
  }

  lemma {:induction false} AfterResolvingFalls(plan: Plan, s: State, j: nat, d: Decision)
    requires Sized(plan, s) && j < |plan| && RowOk(plan, s, j) && s.status[j] == AwaitingConflict
    ensures var (t, p) := AfterResolving(s, j, d);
      |t.status| == |s.status| && t.procs == s.procs && Weight(t, j) + 25 <= Weight(s, j) && Rank(p) <= 23
  {
  }

  lemma {:induction false} ReaddFalls(plan: Plan, s: State, i: nat)
    requires Sized(plan, s) && Enabled(plan, s, Readd(i))
    ensures Potential(Next(plan, s, Readd(i))) < Potential(s)
  {
    var t := Next(plan, s, Readd(i));
    var p := s.procs[i];
    RankUpdate(s.procs, i, Resolving(p.choice));
    RankAppend(s.procs[i := Resolving(p.choice)], Waiting(p.job, 0, Some(p.choice)));
    WeightsFall(s, t, |plan|);
  }

  lemma {:induction false} PotentialFalls(plan: Plan, s: State, a: Action)
    requires IsForest(plan) && Structure(plan, s) && Enabled(plan, s, a)
    requires Structure(plan, Next(plan, s, a))
    ensures Potential(Next(plan, s, a)) < Potential(s)
  {
    if Solo(a) {
      SoloFalls(plan, s, a);
    } else if a.Resolve? || a.ResolveMore? {
      ResolveFalls(plan, s, a);
    } else if a.Readd? {
      ReaddFalls(plan, s, a.i);
    } else if s.procs[a.i].todo != [] {
      AddFalls(plan, s, a);
    } else {
      ReleaseDoneFalls(plan, s, a.i);
    }
  }

  lemma {:induction false} InitialWeight(plan: Plan, rows: map<nat, Row>, stats: Stats, n: nat)
    requires n <= |plan|
    ensures JobsWeight(Init(plan, rows, stats), n) == 46 * n
  {
    if n > 0 {
      InitialWeight(plan, rows, stats, n - 1);
    }
  }
}
