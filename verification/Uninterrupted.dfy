/**
  One process of the state machine, left alone, does what the statements in place do: the
  actions of module Engine refine the methods of Bookkeeping.Tables.
  */
module Uninterrupted {
  import opened Options
  import opened Engine
  import opened Bookkeeping

  /** acts is a run from s to u. */
  ghost predicate Brings(plan: Plan, s: State, acts: seq<Action>, u: State) {
    IsRun(plan, s, acts) && After(plan, s, acts) == u
  }

  lemma {:induction false} Then(plan: Plan, s: State, a: Action, t: State, rest: seq<Action>, u: State)
    requires Enabled(plan, s, a) && t == Next(plan, s, a) && Brings(plan, t, rest, u)
    ensures Brings(plan, s, [a] + rest, u)
  {
    assert ([a] + rest)[1..] == rest;
  }

  // ---------------------------------------------------------------------
  // The claim.
  // ---------------------------------------------------------------------

  /** The claiming action writes the row as Tables.Claim does, and goes on exactly when a row came back. */
  lemma {:induction false} ClaimAlone(plan: Plan, s: State, i: nat)
    requires Enabled(plan, s, Claim(i))
    ensures
      var p := s.procs[i];
      var row := s.status[p.job] in {Queued, Running, Failed, AwaitingConflict};
      Next(plan, s, Claim(i)) == s.(
        status := if row then s.status[p.job := Running] else s.status,
        procs := s.procs[i := if row then Handling(p.job, p.attempt, p.decision) else Done])
  {
  }

  // ---------------------------------------------------------------------
  // enqueueChildren.
  // ---------------------------------------------------------------------

  /** The deliveries of the queue as processes. */
  function Deliveries(js: seq<nat>): (r: seq<Process>)
    ensures |r| == |js| && forall k :: 0 <= k < |js| ==> r[k] == Waiting(js[k], 0, None)
  {
    seq(|js|, k requires 0 <= k < |js| => Waiting(js[k], 0, None))
  }

  lemma {:induction false} DeliveriesAppend(a: seq<nat>, b: seq<nat>)
    ensures Deliveries(a + b) == Deliveries(a) + Deliveries(b)
  {
  }

  /** What telling BullMQ of js adds to its queue does not depend on what is in it. */
  lemma {:induction false} QueueGrows(keys: set<nat>, queue: seq<nat>, js: seq<nat>)
    ensures QueueAfter(keys, queue, js) == queue + QueueAfter(keys, [], js)
  {
    if js != [] {
      QueueGrows(keys, queue, js[..|js| - 1]);
    }
  }

  function Fresh(keys: set<nat>, x: nat): seq<nat> {
    if x in keys then [] else [x]
  }

  lemma {:induction false} TellOne(keys: set<nat>, x: nat)
    ensures KeysAfter(keys, [x]) == keys + {x}
    ensures QueueAfter(keys, [], [x]) == Fresh(keys, x)
  {
    assert [x][..|[x]| - 1] == [];
    assert SetOf([x]) == {x};
    assert KeysAfter(keys, []) == keys;
  }

  lemma {:induction false} KeysCons(keys: set<nat>, x: nat, rest: seq<nat>)
    ensures KeysAfter(keys, [x] + rest) == KeysAfter(keys + {x}, rest)
  {
    assert forall j :: j in [x] + rest <==> j == x || j in rest;
  }

  lemma {:induction false} QueueCons(keys: set<nat>, x: nat, rest: seq<nat>)
    ensures QueueAfter(keys, [], [x] + rest) == Fresh(keys, x) + QueueAfter(keys + {x}, [], rest)
  {
    var all := [x] + rest;
    if rest == [] {
      TellOne(keys, x);
      assert all == [x];
    } else {
      var init, last := rest[..|rest| - 1], rest[|rest| - 1];
      QueueCons(keys, x, init);
      assert all[..|all| - 1] == [x] + init && all[|all| - 1] == last;
      KeysCons(keys, x, init);
    }
  }

  /** The state after BullMQ has been told of js and process i stands at p. */
  function Told(s: State, i: nat, p: Process, js: seq<nat>): State
    requires i < |s.procs|
  {
    s.(keys := KeysAfter(s.keys, js), procs := s.procs[i := p] + Deliveries(QueueAfter(s.keys, [], js)))
  }

  lemma {:induction false} AddTells(t: State, x: nat)
    ensures Add(t, x) == t.(keys := t.keys + {x}, procs := t.procs + Deliveries(Fresh(t.keys, x)))
  {
    if x in t.keys {
      assert t.keys + {x} == t.keys;
      assert t.procs + Deliveries([]) == t.procs;
    } else {
      assert Deliveries([x]) == [Waiting(x, 0, None)];
    }
  }

  lemma {:induction false} ReleaseShape(plan: Plan, s: State, i: nat, p: nat, x: nat, todo: seq<nat>, rest: seq<nat>)
    requires |s.status| == |s.bytes| == |plan| && i < |s.procs| && s.procs[i] == Releasing(p, todo)
    requires todo != [] && todo[0] == x && todo[1..] == rest
    ensures Enabled(plan, s, ReleaseOne(i))
    ensures Next(plan, s, ReleaseOne(i)) == Told(s, i, Releasing(p, rest), [x])
  {
    TellOne(s.keys, x);
    AddTells(Become(s, i, Releasing(p, rest)), x);
  }

  lemma {:induction false} ReplaceUnder(procs: seq<Process>, i: nat, p: Process, q: Process, d: seq<Process>,
                                        e: seq<Process>)
    requires i < |procs|
    ensures (procs[i := p] + d)[i := q] + e == procs[i := q] + (d + e)
  {
  }

  lemma {:induction false} ToldTwice(s: State, i: nat, p: Process, q: Process, x: nat, js: seq<nat>)
    requires i < |s.procs|
    ensures i < |Told(s, i, p, [x]).procs|
    ensures Told(Told(s, i, p, [x]), i, q, js) == Told(s, i, q, [x] + js)
  {
    TellOne(s.keys, x);
    KeysCons(s.keys, x, js);
    QueueCons(s.keys, x, js);
    DeliveriesAppend(Fresh(s.keys, x), QueueAfter(s.keys + {x}, [], js));
    ReplaceUnder(s.procs, i, p, q, Deliveries(Fresh(s.keys, x)), Deliveries(QueueAfter(s.keys + {x}, [], js)));
  }

  function Releases(i: nat, n: nat): seq<Action> {
    if n == 0 then [] else [ReleaseOne(i)] + Releases(i, n - 1)
  }

  lemma {:induction false} ReleasesCons(i: nat, n: nat, more: seq<Action>)
    requires n > 0
    ensures Releases(i, n) + more == [ReleaseOne(i)] + (Releases(i, n - 1) + more)
    ensures Releases(i, 0) + more == more
  {
  }

  /** The adds of js, and then whatever follows in state u. */
  lemma {:induction false} ReleaseOn(plan: Plan, s: State, i: nat, p: nat, js: seq<nat>, left: seq<nat>, u: State,
                                     more: seq<Action>, acts: seq<Action>, end: State)
    requires |s.status| == |s.bytes| == |plan| && i < |s.procs| && s.procs[i] == Releasing(p, js + left)
    requires u == Told(s, i, Releasing(p, left), js) && Brings(plan, u, more, end)
    requires acts == Releases(i, |js|) + more
    ensures Brings(plan, s, acts, end)
    decreases |js|
  {
    if js == [] {
      NothingTold(s, i, p, left);
      ReleasesCons(i, 1, more);
    } else {
      var x, rest := js[0], js[1..];
      assert js == [x] + rest;
      var t := ReleaseFirst(plan, s, i, p, x, rest, left, u);
      var onward := Releases(i, |rest|) + more;
      ReleaseOn(plan, t, i, p, rest, left, u, more, onward, end);
      ReleasesCons(i, |js|, more);
      Then(plan, s, ReleaseOne(i), t, onward, end);
    }
  }

  lemma {:induction false} ReleaseFirst(plan: Plan, s: State, i: nat, p: nat, x: nat, rest: seq<nat>, left: seq<nat>,
                                        u: State)
      returns (t: State)
    requires |s.status| == |s.bytes| == |plan| && i < |s.procs| && s.procs[i] == Releasing(p, [x] + rest + left)
    requires u == Told(s, i, Releasing(p, left), [x] + rest)
    ensures Enabled(plan, s, ReleaseOne(i)) && t == Next(plan, s, ReleaseOne(i))
    ensures |t.status| == |t.bytes| == |plan| && i < |t.procs| && t.procs[i] == Releasing(p, rest + left)
    ensures u == Told(t, i, Releasing(p, left), rest)
  {
    assert ([x] + rest + left)[1..] == rest + left;
    ReleaseShape(plan, s, i, p, x, [x] + rest + left, rest + left);
    t := Told(s, i, Releasing(p, rest + left), [x]);
    ToldTwice(s, i, Releasing(p, rest + left), Releasing(p, left), x, rest);
  }

  lemma {:induction false} NothingTold(s: State, i: nat, p: nat, left: seq<nat>)
    requires i < |s.procs| && s.procs[i] == Releasing(p, [] + left)
    ensures Told(s, i, Releasing(p, left), []) == s
  {
    assert [] + left == left;
    assert KeysAfter(s.keys, []) == s.keys;
    assert s.procs[i := Releasing(p, left)] + [] == s.procs;
  }

  /** The actions of enqueueChildren when the add after failAt successful ones throws. */
  function Enqueues(i: nat, children: seq<nat>, failAt: nat): seq<Action> {
    [SelectChildren(i)]
    + (Releases(i, |Upto(children, failAt)|) + [if |children| <= failAt then ReleaseOne(i) else ReleaseThrow(i)])
  }

  /** Left alone, a process past its credit tells BullMQ of the same children as
      Tables.EnqueueChildren, with the same deliveries, and changes nothing else; it
      goes on to the count, or to the cascade if an add throws. */
  lemma {:induction false} EnqueueAlone(plan: Plan, s: State, i: nat, p: nat, failAt: nat)
    requires |s.status| == |s.bytes| == |plan| && i < |s.procs| && s.procs[i] == Selecting(p)
    ensures
      var children := QueuedChildren(plan, s.status, p, |plan|);
      Brings(plan, s, Enqueues(i, children, failAt),
             Told(s, i, if |children| <= failAt then Reading else Cascading({p}), Upto(children, failAt)))
  {
    var children := QueuedChildren(plan, s.status, p, |plan|);
    var told, left := SplitUpto(children, failAt);
    var last := if |children| <= failAt then ReleaseOne(i) else ReleaseThrow(i);
    var to := if |children| <= failAt then Reading else Cascading({p});
    var t := s.(procs := s.procs[i := Releasing(p, children)]);
    var u := Told(t, i, Releasing(p, left), told);
    ToldElsewhere(s, i, Releasing(p, children), Releasing(p, left), to, told);
    var end := Told(s, i, to, told);
    LastRelease(plan, u, i, p, left, last, to, end);
    ReleaseOn(plan, t, i, p, told, left, u, [last], Releases(i, |told|) + [last], end);
    SelectShape(plan, s, i, p, children, t);
    Then(plan, s, SelectChildren(i), t, Releases(i, |told|) + [last], end);
  }

  lemma {:induction false} SplitUpto(children: seq<nat>, failAt: nat) returns (told: seq<nat>, left: seq<nat>)
    ensures told == Upto(children, failAt) && children == told + left
    ensures left == [] <==> |children| <= failAt
  {
    told := Upto(children, failAt);
    left := children[|told|..];
  }

  lemma {:induction false} SelectShape(plan: Plan, s: State, i: nat, p: nat, children: seq<nat>, t: State)
    requires |s.status| == |s.bytes| == |plan| && i < |s.procs| && s.procs[i] == Selecting(p)
    requires children == QueuedChildren(plan, s.status, p, |plan|)
    requires t == s.(procs := s.procs[i := Releasing(p, children)])
    ensures Enabled(plan, s, SelectChildren(i)) && Next(plan, s, SelectChildren(i)) == t
  {
  }

  lemma {:induction false} LastRelease(plan: Plan, u: State, i: nat, p: nat, left: seq<nat>, last: Action, to: Process,
                                       end: State)
    requires |u.status| == |u.bytes| == |plan| && i < |u.procs| && u.procs[i] == Releasing(p, left)
    requires (last == ReleaseOne(i) && left == [] && to == Reading)
             || (last == ReleaseThrow(i) && to == Cascading({p}))
    requires end == u.(procs := u.procs[i := to])
    ensures Brings(plan, u, [last], end)
  {
    RunOne(plan, u, last);
  }

  lemma {:induction false} ToldElsewhere(s: State, i: nat, p: Process, q: Process, end: Process, js: seq<nat>)
    requires i < |s.procs|
    ensures
      var t := s.(procs := s.procs[i := p]);
      var u := Told(t, i, q, js);
      && i < |u.procs| && u.procs[i] == q
      && u.(procs := u.procs[i := end]) == Told(s, i, end, js)
  {
    var d := Deliveries(QueueAfter(s.keys, [], js));
    assert (s.procs[i := p][i := q] + d)[i := end] == s.procs[i := end] + d;
  }

  // ---------------------------------------------------------------------
  // cascadeSkipDescendants.
  // ---------------------------------------------------------------------

  function Levels(i: nat, n: nat): seq<Action> {
    if n == 0 then [] else [CascadeLevel(i)] + Levels(i, n - 1)
  }

  /** Left alone, a cascading process of the state machine does what cascadeSkipDescendants does:
      after finitely many levels it has skipped the closure and changed nothing else. */
  lemma {:induction false} CascadeAlone(plan: Plan, s: State, i: nat, root: nat) returns (n: nat)
    requires |s.status| == |s.bytes| == |plan| && i < |s.procs| && s.procs[i] == Cascading({root})
    ensures Brings(plan, s, Levels(i, n), Cascade(s, i, Reading, Closure(plan, s.status, root)))
  {
    assert s.status == MarkSkipped(s.status, {});
    n := CascadeOn(plan, s, i, root, s.status, {});
  }

  lemma {:induction false} CascadeOn(plan: Plan, s: State, i: nat, root: nat, was: seq<Status>, skipped: set<nat>)
      returns (n: nat)
    requires |was| == |s.status| == |s.bytes| == |plan| && i < |s.procs| && s.procs[i].Cascading?
    requires Cascaded(plan, was, root, s.procs[i].frontier, skipped) && s.status == MarkSkipped(was, skipped)
    ensures Brings(plan, s, Levels(i, n), Cascade(s, i, Reading, Closure(plan, was, root)))
    decreases QueuedSet(s.status)
  {
    var hit := SkippedBy(plan, s.status, s.procs[i].frontier);
    var p := if hit == {} then Reading else Cascading(hit);
    var t := Cascade(s, i, p, MarkSkipped(s.status, hit));
    LevelShape(plan, s, i, hit, t);
    LevelCascades(plan, was, s.status, root, s.procs[i].frontier, skipped);
    if hit == {} {
      assert skipped + hit == skipped;
      ClosedIsClosure(plan, was, root, skipped);
      n := 1;
      OneLevel(plan, s, i, 0, t, t);
    } else {
      QueuedFalls(plan, s.status, s.procs[i].frontier);
      var m := CascadeOn(plan, t, i, root, was, skipped + hit);
      n := m + 1;
      CascadeTwice(s, i, p, t.status, Closure(plan, was, root));
      OneLevel(plan, s, i, m, t, Cascade(s, i, Reading, Closure(plan, was, root)));
    }
  }

  lemma {:induction false} OneLevel(plan: Plan, s: State, i: nat, m: nat, t: State, end: State)
    requires Enabled(plan, s, CascadeLevel(i)) && t == Next(plan, s, CascadeLevel(i))
    requires Brings(plan, t, Levels(i, m), end)
    ensures Brings(plan, s, Levels(i, m + 1), end)
  {
    Then(plan, s, CascadeLevel(i), t, Levels(i, m), end);
  }

  /** A state in which process i and the statuses have changed. */
  function Cascade(s: State, i: nat, p: Process, status: seq<Status>): State
    requires i < |s.procs|
  {
    s.(procs := s.procs[i := p], status := status)
  }

  lemma {:induction false} LevelShape(plan: Plan, s: State, i: nat, hit: set<nat>, t: State)
    requires |s.status| == |s.bytes| == |plan| && i < |s.procs| && s.procs[i].Cascading?
    requires hit == SkippedBy(plan, s.status, s.procs[i].frontier)
    requires t == Cascade(s, i, if hit == {} then Reading else Cascading(hit), MarkSkipped(s.status, hit))
    ensures Enabled(plan, s, CascadeLevel(i)) && Next(plan, s, CascadeLevel(i)) == t
  {
  }

  lemma {:induction false} CascadeTwice(s: State, i: nat, p: Process, st: seq<Status>, end: seq<Status>)
    requires i < |s.procs|
    ensures Cascade(Cascade(s, i, p, st), i, Reading, end) == Cascade(s, i, Reading, end)
  {
    assert s.procs[i := p][i := Reading] == s.procs[i := Reading];
  }

  // ---------------------------------------------------------------------
  // The end of a job.
  // ---------------------------------------------------------------------

  /** What incrementTransferStats does, counter by counter. */
  predicate Counts(before: Stats, after: Stats, kind: Kind, n: nat) {
    && after.bytesUploaded == before.bytesUploaded + (if kind == Upload then n else 0)
    && after.filesUploaded == before.filesUploaded + (if kind == Upload && n > 0 then 1 else 0)
    && after.bytesTransferred == before.bytesTransferred + (if kind in {Copy, Transfer, Move} then n else 0)
    && after.filesTransferred == before.filesTransferred + (if kind in {Copy, Transfer, Move} && n > 0 then 1 else 0)
  }

  /** A handler that returns, left alone up to its bookkeeping: the row has succeeded with the bytes the
      handler reported, the counters count them, what it materialised is in the nodes table; a
      folder goes on to its children, any other job to the count. */
  lemma {:induction false} SuccessAlone(plan: Plan, s: State, i: nat, bytes: nat, u: Upsert) returns (t: State)
    requires Enabled(plan, s, Succeed(i, bytes, u))
    ensures Brings(plan, s, [Succeed(i, bytes, u), Credit(i)], t)
    ensures
      var j := s.procs[i].job;
      && t == s.(
        status := s.status[j := Succeeded],
        bytes := s.bytes[j := bytes],
        rows := if u == NoUpsert then s.rows else s.rows[u.remoteId := u.row],
        procs := s.procs[i := if plan[j].kind == CreateFolder then Selecting(j) else Reading],
        stats := t.stats)
      && Counts(s.stats, t.stats, plan[j].kind, bytes)
  {
    var j := s.procs[i].job;
    var next := if plan[j].kind == CreateFolder then Selecting(j) else Reading;
    var u1 := Next(plan, s, Succeed(i, bytes, u));
    assert u1.procs[i] == Crediting(j, bytes);
    t := CreditAlone(plan, u1, i, j, bytes);
    Then(plan, s, Succeed(i, bytes, u), u1, [Credit(i)], t);
    assert [Succeed(i, bytes, u), Credit(i)] == [Succeed(i, bytes, u)] + [Credit(i)];
    assert s.procs[i := Crediting(j, bytes)][i := next] == s.procs[i := next];
  }

  lemma {:induction false} CreditAlone(plan: Plan, s: State, i: nat, j: nat, bytes: nat) returns (t: State)
    requires |s.status| == |s.bytes| == |plan| && i < |s.procs| && s.procs[i] == Crediting(j, bytes) && j < |plan|
    ensures Brings(plan, s, [Credit(i)], t) && Counts(s.stats, t.stats, plan[j].kind, bytes)
    ensures t == s.(procs := s.procs[i := if plan[j].kind == CreateFolder then Selecting(j) else Reading],
                    stats := t.stats)
  {
    t := Next(plan, s, Credit(i));
    RunOne(plan, s, Credit(i));
  }

  /** A delivery whose last attempt threw, left alone, leaves the rows as Tables.OnFailed leaves them: the
      job failed and, if it is a folder, everything reached below it skipped. */
  lemma {:induction false} FailureAlone(plan: Plan, s: State, i: nat) returns (acts: seq<Action>)
    requires Enabled(plan, s, MarkFailed(i))
    ensures
      var j := s.procs[i].job;
      var failed := s.status[j := Failed];
      Brings(plan, s, acts,
             Cascade(s, i, Reading, if plan[j].kind == CreateFolder then Closure(plan, failed, j) else failed))
  {
    var j := s.procs[i].job;
    var failed := s.status[j := Failed];
    var t := Next(plan, s, MarkFailed(i));
    if plan[j].kind == CreateFolder {
      var n := CascadeAlone(plan, t, i, j);
      acts := [MarkFailed(i)] + Levels(i, n);
      Then(plan, s, MarkFailed(i), t, Levels(i, n), Cascade(t, i, Reading, Closure(plan, failed, j)));
      CascadeTwice(s, i, Cascading({j}), failed, Closure(plan, failed, j));
    } else {
      acts := [MarkFailed(i)];
      RunOne(plan, s, MarkFailed(i));
    }
  }

  // ---------------------------------------------------------------------
  // maybeFinalizeOperation.
  // ---------------------------------------------------------------------

  /** The actions of one call. */
  function Finalisation(s: State, i: nat): seq<Action> {
    if HasPending(s.status) then [ReadCounts(i)]
    else if s.op.Final? then [ReadCounts(i), WriteVerdict(i)]
    else [ReadCounts(i), WriteVerdict(i), Publish(i)]
  }

  /** Left alone, a process that is about to count does what Tables.MaybeFinalizeOperation does. */
  lemma {:induction false} FinaliseAlone(plan: Plan, s: State, i: nat) returns (t: State)
    requires |s.status| == |s.bytes| == |plan| && i < |s.procs| && s.procs[i].Reading?
    ensures Brings(plan, s, Finalisation(s, i), t)
    ensures Finalises(s.status, Outcome(s.op, s.published, s.sourceDeletes),
                      Outcome(t.op, t.published, t.sourceDeletes))
    ensures t == s.(procs := s.procs[i := Done], op := t.op, published := t.published, sourceDeletes := t.sourceDeletes,
                    wins := s.wins + if t.published == s.published then 0 else 1)
  {
    t := Next(plan, s, ReadCounts(i));
    if HasPending(s.status) {
      RunOne(plan, s, ReadCounts(i));
    } else {
      var v := VerdictOf(s.status);
      assert t == s.(procs := s.procs[i := Deciding(v)]);
      t := DecideAlone(plan, t, i, v);
      var rest := if s.op.Final? then [WriteVerdict(i)] else [WriteVerdict(i), Publish(i)];
      Then(plan, s, ReadCounts(i), Next(plan, s, ReadCounts(i)), rest, t);
      assert Finalisation(s, i) == [ReadCounts(i)] + rest;
      assert s.procs[i := Deciding(v)][i := Done] == s.procs[i := Done];
    }
  }

  lemma {:induction false} DecideAlone(plan: Plan, s: State, i: nat, v: Verdict) returns (t: State)
    requires |s.status| == |s.bytes| == |plan| && i < |s.procs| && s.procs[i] == Deciding(v)
    ensures
      Brings(plan, s, if s.op.Final? then [WriteVerdict(i)] else [WriteVerdict(i), Publish(i)], t)
    ensures s.op.Final? ==> t == s.(procs := s.procs[i := Done])
    ensures !s.op.Final? ==>
      t == s.(procs := s.procs[i := Done], op := Final(v), wins := s.wins + 1, published := s.published + [v],
              sourceDeletes := s.sourceDeletes + if v == AllSucceeded then 1 else 0)
  {
    t := Next(plan, s, WriteVerdict(i));
    if s.op.Final? {
      RunOne(plan, s, WriteVerdict(i));
    } else {
      var u := t;
      RunOne(plan, u, Publish(i));
      Then(plan, s, WriteVerdict(i), u, [Publish(i)], Next(plan, u, Publish(i)));
      assert [WriteVerdict(i), Publish(i)] == [WriteVerdict(i)] + [Publish(i)];
      assert s.procs[i := Publishing(v)][i := Done] == s.procs[i := Done];
      t := Next(plan, u, Publish(i));
    }
  }

  lemma {:induction false} RunOne(plan: Plan, s: State, a: Action)
    requires Enabled(plan, s, a)
    ensures Brings(plan, s, [a], Next(plan, s, a))
  {
    assert [a][1..] == [];
  }
}
