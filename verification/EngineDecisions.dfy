/** The user's decisions and the attempts of a delivery, through the machine. */
module EngineDecisions {
  import opened Engine
  import opened Options
  import opened EngineInvariant
  import opened EngineTheorems

  // ---------------------------------------------------------------------
  // A delivery acts on what the user decided.
  // ---------------------------------------------------------------------

  /** Some request of the run asked for d. */
  ghost predicate Asked(acts: seq<Action>, d: Decision) {
    exists k :: 0 <= k < |acts| && acts[k].Resolve? && acts[k].d == d
  }

  /** A request asked for d for this job, or for d for another job and reached this one by applyToAll. */
  ghost predicate AskedFor(acts: seq<Action>, j: nat, d: Decision) {
    && d != Skip
    && ((exists k :: 0 <= k < |acts| && acts[k] == Resolve(j, d))
        || (Asked(acts, d) && exists k :: 0 <= k < |acts| && acts[k].ResolveMore? && acts[k].j == j))
  }

  /** The decision a process holds is one that was asked for. */
  ghost predicate HoldsAsked(acts: seq<Action>, p: Process) {
    match p
    case Waiting(j, _, d) => d.Some? ==> AskedFor(acts, j, d.value)
    case Handling(j, _, d) => d.Some? ==> AskedFor(acts, j, d.value)
    case Resolving(d) => Asked(acts, d)
    case Readding(j, d) => Asked(acts, d) && AskedFor(acts, j, d)
    case _ => true
  }

  ghost predicate AllHoldAsked(acts: seq<Action>, s: State) {
    forall i :: 0 <= i < |s.procs| ==> HoldsAsked(acts, s.procs[i])
  }

  lemma {:induction false} MoreAsked(acts: seq<Action>, a: Action, p: Process)
    requires HoldsAsked(acts, p)
    ensures HoldsAsked(acts + [a], p)
  {
    assert forall k :: 0 <= k < |acts| ==> (acts + [a])[k] == acts[k];
  }

  lemma {:induction false} NowAsked(acts: seq<Action>, j: nat, d: Decision)
    ensures Asked(acts + [Resolve(j, d)], d)
    ensures d != Skip ==> AskedFor(acts + [Resolve(j, d)], j, d)
  {
    assert (acts + [Resolve(j, d)])[|acts|] == Resolve(j, d);
  }

  lemma {:induction false} NowAskedToo(acts: seq<Action>, i: nat, j: nat, d: Decision)
    requires Asked(acts, d)
    ensures Asked(acts + [ResolveMore(i, j)], d)
    ensures d != Skip ==> AskedFor(acts + [ResolveMore(i, j)], j, d)
  {
    assert (acts + [ResolveMore(i, j)])[|acts|] == ResolveMore(i, j);
    MoreAsked(acts, ResolveMore(i, j), Resolving(d));
  }

  /** If q is a delivery it has the job and the decision of p, and q is no request. */
  predicate SameDelivery(p: Process, q: Process) {
    if q.Waiting? || q.Handling? then
      (p.Waiting? || p.Handling?) && p.job == q.job && p.decision == q.decision
    else !q.Resolving? && !q.Readding?
  }

  lemma {:induction false} SoloDelivery(plan: Plan, s: State, a: Action)
    requires Enabled(plan, s, a) && Solo(a)
    ensures a.i < |Next(plan, s, a).procs| && SameDelivery(s.procs[a.i], Next(plan, s, a).procs[a.i])
  {
    if OfDelivery(a) || a.Claim? {
      DeliveryStays(plan, s, a);
    } else {
      NoDelivery(plan, s, a);
    }
  }

  lemma {:induction false} DeliveryStays(plan: Plan, s: State, a: Action)
    requires Enabled(plan, s, a) && (OfDelivery(a) || a.Claim?)
    ensures a.i < |Next(plan, s, a).procs| && SameDelivery(s.procs[a.i], Next(plan, s, a).procs[a.i])
  {
  }

  lemma {:induction false} NoDelivery(plan: Plan, s: State, a: Action)
    requires Enabled(plan, s, a) && Solo(a) && !OfDelivery(a) && !a.Claim?
    ensures a.i < |Next(plan, s, a).procs| && SameDelivery(s.procs[a.i], Next(plan, s, a).procs[a.i])
  {
  }

  lemma {:induction false} SameHolds(acts: seq<Action>, p: Process, q: Process)
    requires SameDelivery(p, q) && HoldsAsked(acts, p)
    ensures HoldsAsked(acts, q)
  {
  }

  lemma {:induction false} AddHolds(plan: Plan, s: State, a: Action, acts: seq<Action>, k: nat)
    requires Enabled(plan, s, a) && (a.AddRoot? || a.ReleaseOne?)
    requires k < |Next(plan, s, a).procs| && (k == a.i || k == |s.procs|)
    ensures HoldsAsked(acts, Next(plan, s, a).procs[k])
  {
  }

  lemma {:induction false} ResolveHolds(plan: Plan, s: State, a: Action, acts: seq<Action>, k: nat)
    requires Enabled(plan, s, a) && (a.Resolve? || a.ResolveMore? || a.Readd?) && AllHoldAsked(acts, s)
    requires k < |Next(plan, s, a).procs| && (k == Actor(s, a) || k == |s.procs|)
    ensures HoldsAsked(acts + [a], Next(plan, s, a).procs[k])
  {
    if a.Resolve? {
      NowAsked(acts, a.j, a.d);
    } else if a.ResolveMore? {
      NowAskedToo(acts, a.i, a.j, s.procs[a.i].choice);
    } else {
      MoreAsked(acts, a, s.procs[a.i]);
    }
  }

  lemma {:induction false} AskedStep(plan: Plan, s: State, a: Action, acts: seq<Action>)
    requires Enabled(plan, s, a) && AllHoldAsked(acts, s)
    ensures AllHoldAsked(acts + [a], Next(plan, s, a))
  {
    forall k: nat | k < |Next(plan, s, a).procs|
      ensures HoldsAsked(acts + [a], Next(plan, s, a).procs[k])
    {
      if k != Actor(s, a) {
        ProcsOfAction(plan, s, a, k);
      }
      if k < |s.procs| && k != Actor(s, a) {
        MoreAsked(acts, a, s.procs[k]);
      } else if Solo(a) {
        MoreAsked(acts, a, s.procs[k]);
        SoloDelivery(plan, s, a);
        SameHolds(acts + [a], s.procs[k], Next(plan, s, a).procs[k]);
      } else if a.AddRoot? || a.ReleaseOne? {
        AddHolds(plan, s, a, acts + [a], k);
      } else {
        ResolveHolds(plan, s, a, acts, k);
      }
    }
  }

  lemma {:induction false} AskedAlong(plan: Plan, before: seq<Action>, s: State, acts: seq<Action>)
    requires IsRun(plan, s, acts) && AllHoldAsked(before, s)
    ensures AllHoldAsked(before + acts, After(plan, s, acts))
    decreases |acts|
  {
    if acts == [] {
      assert before + acts == before;
    } else {
      AskedStep(plan, s, acts[0], before);
      AskedAlong(plan, before + [acts[0]], Next(plan, s, acts[0]), acts[1..]);
      assert before + [acts[0]] + acts[1..] == before + acts;
    }
  }

  /** In every reached state: if a handler is given a decision, it is one the user made for its job, or
      for all paused jobs, and it is not skip. */
  lemma {:induction false} DecisionsAreTheUsers(plan: Plan, rows: map<nat, Row>, opening: Stats, acts: seq<Action>,
                                                s: State, i: nat)
    requires Reaches(plan, rows, opening, acts, s) && i < |s.procs| && s.procs[i].Handling?
    ensures s.procs[i].decision.Some? ==> AskedFor(acts, s.procs[i].job, s.procs[i].decision.value)
  {
    var start := Init(plan, rows, opening);
    assert AllHoldAsked([], start);
    AskedAlong(plan, [], start, acts);
    assert [] + acts == acts;
  }

  /** What a decision does to the paused job: skip ends it there, any other decision requeues it and
      goes with its one new delivery. */
  lemma {:induction false} DecisionIsCarriedOut(plan: Plan, s: State, j: nat, d: Decision)
    requires |s.status| == |s.bytes| == |plan| && j < |plan| && s.status[j] == AwaitingConflict
    ensures Enabled(plan, s, Resolve(j, d))
    ensures
      var t := Next(plan, s, Resolve(j, d));
      if d == Skip then
        t.status == s.status[j := Skipped] && t.procs == s.procs + [Resolving(Skip)]
      else
        && t.status == s.status[j := Queued]
        && Enabled(plan, t, Readd(|s.procs|))
        && Next(plan, t, Readd(|s.procs|)).procs == s.procs + [Resolving(d), Waiting(j, 0, Some(d))]
        && Next(plan, t, Readd(|s.procs|)).status == t.status
  {
    var t := Next(plan, s, Resolve(j, d));
    if d != Skip {
      assert t.procs == s.procs + [Readding(j, d)];
      assert t.procs[|s.procs| := Resolving(d)] == s.procs + [Resolving(d)];
    }
  }

  // ---------------------------------------------------------------------
  // Attempts.
  // ---------------------------------------------------------------------

  /** A delivery that is claimed and throws is tried again with the same decision, four times; the
      fifth attempt is the last. */
  lemma {:induction false} FifthAttemptIsLast(plan: Plan, s: State, i: nat)
    requires |s.status| == |s.bytes| == |plan| && i < |s.procs| && s.procs[i].Waiting? && s.procs[i].job < |plan|
    requires s.status[s.procs[i].job] in {Queued, Running}
    ensures Enabled(plan, s, Claim(i)) && Enabled(plan, Next(plan, s, Claim(i)), Throw(i))
    ensures
      var p := s.procs[i];
      Next(plan, Next(plan, s, Claim(i)), Throw(i)) == s.(
        status := s.status[p.job := Running],
        procs := s.procs[i := if p.attempt < 4 then Waiting(p.job, p.attempt + 1, p.decision) else Exhausted(p.job)])
  {
    var p := s.procs[i];
    var t := Next(plan, s, Claim(i));
    assert t == s.(status := s.status[p.job := Running], procs := s.procs[i := Handling(p.job, p.attempt, p.decision)]);
    var next := if p.attempt < 4 then Waiting(p.job, p.attempt + 1, p.decision) else Exhausted(p.job);
    assert t.procs[i := next] == s.procs[i := next];
  }
}
