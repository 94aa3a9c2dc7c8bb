/**
  handler.ts and operation-state.ts as they are written: statements over the tables,
  loops included, each run without interruption. The state machine of module Engine
  interleaves the same statements.
  */
module Bookkeeping {
  import opened Engine
  import opened Options

  // ---------------------------------------------------------------------
  // maybeFinalizeOperation: from the counted rows to a verdict.
  // ---------------------------------------------------------------------

  datatype CountRow = CountRow(status: Status, count: nat)

  /** What SELECT status, count(*) ... GROUP BY status may return: every status that occurs,
      once, with the number of its rows, in any order. */
  ghost predicate IsGroupBy(rows: seq<CountRow>, status: seq<Status>) {
    && (forall k :: 0 <= k < |rows| ==> rows[k].count == multiset(status)[rows[k].status])
    && (forall st :: st in status ==> exists k :: 0 <= k < |rows| && rows[k].status == st)
  }

  function CountFor(counts: map<Status, nat>, st: Status): nat {
    if st in counts then counts[st] else 0
  }

  method LoadCounts(rows: seq<CountRow>, ghost status: seq<Status>) returns (counts: map<Status, nat>)
    requires IsGroupBy(rows, status)
    ensures forall st :: CountFor(counts, st) == multiset(status)[st]
  {
    counts := map[];
    for i := 0 to |rows|
      invariant forall st :: st in counts ==> counts[st] == multiset(status)[st]
      invariant forall k :: 0 <= k < i ==> rows[k].status in counts
    {
      counts := counts[rows[i].status := rows[i].count];
    }
    forall st
      ensures CountFor(counts, st) == multiset(status)[st]
    {
      if st in status {
        var k :| 0 <= k < |rows| && rows[k].status == st;
      } else {
        assert st !in multiset(status);
      }
    }
  }

  /** The verdict of the counted rows, or None while a job is pending. */
  method Decide(rows: seq<CountRow>, ghost status: seq<Status>) returns (verdict: Option<Verdict>)
    requires IsGroupBy(rows, status)
    ensures verdict == if HasPending(status) then None else Some(VerdictOf(status))
    ensures verdict.None? <==> Queued in status || Running in status || AwaitingConflict in status
    ensures verdict == Some(SomeFailed) <==> verdict.Some? && Failed in status
    ensures verdict == Some(WasCancelled) <==> verdict.Some? && Failed !in status && Cancelled in status
    ensures verdict == Some(AllSucceeded) <==> forall st :: st in status ==> st == Succeeded || st == Skipped
  {
    var counts := LoadCounts(rows, status);
    CountedExactly(status);
    var pending := CountFor(counts, Queued) + CountFor(counts, Running) + CountFor(counts, AwaitingConflict);
    if pending > 0 {
      return None;
    }
    if CountFor(counts, Failed) > 0 {
      return Some(SomeFailed);
    }
    if CountFor(counts, Cancelled) > 0 {
      return Some(WasCancelled);
    }
    return Some(AllSucceeded);
  }

  lemma {:induction false} CountedExactly(status: seq<Status>)
    ensures forall st :: multiset(status)[st] > 0 <==> st in status
  {
    forall st
      ensures multiset(status)[st] > 0 <==> st in status
    {
      assert st in multiset(status) <==> st in status;
    }
  }

  /** The operation row, what has been published and how often the sources were sent to deletion. */
  datatype Outcome = Outcome(op: OpStatus, published: seq<Verdict>, sourceDeletes: nat)

  /** What maybeFinalizeOperation does to them: nothing while a job is pending or if the row is
      final already, else the one final write, its publication and, on success, the delete. */
  predicate Finalises(status: seq<Status>, before: Outcome, after: Outcome) {
    if HasPending(status) || before.op.Final? then after == before
    else
      && after.op == Final(VerdictOf(status))
      && after.published == before.published + [VerdictOf(status)]
      && after.sourceDeletes == before.sourceDeletes + if VerdictOf(status) == AllSucceeded then 1 else 0
  }

  // ---------------------------------------------------------------------
  // The closure cascadeSkipDescendants computes.
  // ---------------------------------------------------------------------

  /** j is reached from root through at most n + 1 parent links, all from queued jobs. */
  ghost predicate ReachedIn(plan: Plan, status: seq<Status>, root: nat, j: nat, n: nat)
    requires |status| == |plan|
    decreases n
  {
    && j < |plan| && status[j] == Queued && plan[j].parent.Some?
    && (plan[j].parent.value == root || (n > 0 && ReachedIn(plan, status, root, plan[j].parent.value, n - 1)))
  }

  ghost predicate Reached(plan: Plan, status: seq<Status>, root: nat, j: nat)
    requires |status| == |plan|
  {
    exists n: nat :: ReachedIn(plan, status, root, j, n)
  }

  /** The statuses after skipping everything reached from root. */
  ghost function Closure(plan: Plan, status: seq<Status>, root: nat): (r: seq<Status>)
    requires |status| == |plan|
    ensures |r| == |plan|
    ensures forall j :: 0 <= j < |plan| ==> r[j] == if Reached(plan, status, root, j) then Skipped else status[j]
  {
    seq(|plan|, j requires 0 <= j < |plan| => if Reached(plan, status, root, j) then Skipped else status[j])
  }

  function QueuedSet(status: seq<Status>): set<nat> {
    set j: nat | j < |status| && status[j] == Queued
  }

  /** What is true between two levels: `skipped` is reached, holds the frontier, and is
      closed under queued children except for those of the frontier. */
  ghost predicate Cascaded(plan: Plan, was: seq<Status>, root: nat, frontier: set<nat>, skipped: set<nat>)
    requires |was| == |plan|
  {
    && (forall j :: j in skipped ==> Reached(plan, was, root, j))
    && frontier <= skipped + {root}
    && forall j: nat ::
         (j < |plan| && was[j] == Queued && plan[j].parent.Some? && plan[j].parent.value in skipped + {root} - frontier)
         ==> j in skipped
  }

  lemma {:induction false} LevelCascades(plan: Plan, was: seq<Status>, now: seq<Status>, root: nat,
                                         frontier: set<nat>, skipped: set<nat>)
    requires |was| == |plan| && Cascaded(plan, was, root, frontier, skipped)
    requires now == MarkSkipped(was, skipped)
    ensures Cascaded(plan, was, root, SkippedBy(plan, now, frontier), skipped + SkippedBy(plan, now, frontier))
    ensures MarkSkipped(now, SkippedBy(plan, now, frontier)) ==
      MarkSkipped(was, skipped + SkippedBy(plan, now, frontier))
  {
    var hit := SkippedBy(plan, now, frontier);
    forall j | j in hit
      ensures Reached(plan, was, root, j)
    {
      FrontierReaches(plan, was, root, j, plan[j].parent.value, skipped);
    }
  }

  lemma {:induction false} FrontierReaches(plan: Plan, was: seq<Status>, root: nat, j: nat, p: nat, skipped: set<nat>)
    requires |was| == |plan| && j < |plan| && was[j] == Queued && plan[j].parent == Some(p)
    requires p in skipped + {root}
    requires forall k :: k in skipped ==> Reached(plan, was, root, k)
    ensures Reached(plan, was, root, j)
  {
    if p == root {
      assert ReachedIn(plan, was, root, j, 0);
    } else {
      var n: nat :| ReachedIn(plan, was, root, p, n);
      assert ReachedIn(plan, was, root, j, n + 1);
    }
  }

  lemma {:induction false} ClosedHoldsAll(plan: Plan, was: seq<Status>, root: nat, skipped: set<nat>, j: nat, n: nat)
    requires |was| == |plan| && Cascaded(plan, was, root, {}, skipped)
    requires ReachedIn(plan, was, root, j, n)
    ensures j in skipped
    decreases n
  {
    var p := plan[j].parent.value;
    if p != root {
      ClosedHoldsAll(plan, was, root, skipped, p, n - 1);
    }
    assert p in skipped + {root} - {};
  }

  function SetOf(js: seq<nat>): set<nat> {
    set j | j in js
  }

  function Upto(js: seq<nat>, n: nat): seq<nat> {
    if n < |js| then js[..n] else js
  }

  /** BullMQ after being told of js. */
  function KeysAfter(keys: set<nat>, js: seq<nat>): set<nat> {
    keys + SetOf(js)
  }

  /** Its queue: told of js one by one, a known id is not delivered again. */
  function QueueAfter(keys: set<nat>, queue: seq<nat>, js: seq<nat>): seq<nat> {
    if js == [] then queue
    else
      var init, last := js[..|js| - 1], js[|js| - 1];
      if last in KeysAfter(keys, init) then QueueAfter(keys, queue, init) else QueueAfter(keys, queue, init) + [last]
  }

  lemma {:induction false} OneMoreTold(js: seq<nat>, i: nat, keys: set<nat>, queue: seq<nat>)
    requires i < |js|
    ensures KeysAfter(keys, js[..i + 1]) == KeysAfter(keys, js[..i]) + {js[i]}
    ensures QueueAfter(keys, queue, js[..i + 1]) ==
      if js[i] in KeysAfter(keys, js[..i]) then QueueAfter(keys, queue, js[..i])
      else QueueAfter(keys, queue, js[..i]) + [js[i]]
  {
    var next := js[..i + 1];
    assert next[..|next| - 1] == js[..i] && next[|next| - 1] == js[i];
  }

  /** Each job told of is delivered once if BullMQ did not know it, and not at all if it did. */
  lemma {:induction false} DeliveredOnce(keys: set<nat>, queue: seq<nat>, js: seq<nat>, j: nat)
    ensures multiset(QueueAfter(keys, queue, js))[j] == multiset(queue)[j] + if j in js && j !in keys then 1 else 0
  {
    if js != [] {
      var init, last := js[..|js| - 1], js[|js| - 1];
      DeliveredOnce(keys, queue, init, j);
      assert js == init + [last];
    }
  }

  lemma {:induction false} ClosedIsClosure(plan: Plan, was: seq<Status>, root: nat, skipped: set<nat>)
    requires |was| == |plan| && Cascaded(plan, was, root, {}, skipped)
    ensures MarkSkipped(was, skipped) == Closure(plan, was, root)
  {
    forall j: nat | j < |plan|
      ensures j in skipped <==> Reached(plan, was, root, j)
    {
      if Reached(plan, was, root, j) {
        var n: nat :| ReachedIn(plan, was, root, j, n);
        ClosedHoldsAll(plan, was, root, skipped, j, n);
      }
    }
  }

  // ---------------------------------------------------------------------
  // The statements, in place.
  // ---------------------------------------------------------------------

  class Tables {
    const plan: Plan
    var status: seq<Status>
    var bytes: seq<nat>
    var keys: set<nat>        // custom job ids BullMQ knows
    var queue: seq<nat>       // deliveries added
    var op: OpStatus
    var published: seq<Verdict>
    var sourceDeletes: nat
    var stats: Stats

    ghost predicate Valid()
      reads this
    {
      |status| == |bytes| == |plan|
    }

    constructor (plan: Plan, stats: Stats)
      ensures Valid() && this.plan == plan && op == Ready && this.stats == stats
      ensures forall j :: 0 <= j < |plan| ==> status[j] == Queued
      ensures keys == {} && queue == [] && published == [] && sourceDeletes == 0
    {
      this.plan, this.stats, op := plan, stats, Ready;
      status, bytes := seq(|plan|, _ => Queued), seq(|plan|, _ => 0);
      keys, queue, published, sourceDeletes := {}, [], [], 0;
    }

    /** The claiming UPDATE of runWrapped: true if it returned the row. */
    method Claim(j: nat) returns (row: bool)
      requires Valid() && j < |plan|
      modifies this`status
      ensures Valid()
      ensures row <==> old(status)[j] in {Queued, Running, Failed, AwaitingConflict}
      ensures status == if row then old(status)[j := Running] else old(status)
    {
      row := status[j] == Queued || status[j] == Running || status[j] == Failed || status[j] == AwaitingConflict;
      if row {
        status := status[j := Running];
      }
    }

    /** incrementTransferStats: an upload counts as uploaded, a copy, transfer or move as transferred,
        and a job that moved no bytes not at all. */
    method IncrementTransferStats(kind: Kind, n: nat)
      modifies this`stats
      ensures stats == AddStats(old(stats), kind, n)
      ensures n > 0 && kind == Upload ==>
        stats == old(stats).(bytesUploaded := old(stats).bytesUploaded + n,
                             filesUploaded := old(stats).filesUploaded + 1)
      ensures n > 0 && kind in {Copy, Transfer, Move} ==>
        stats == old(stats).(bytesTransferred := old(stats).bytesTransferred + n,
                             filesTransferred := old(stats).filesTransferred + 1)
      ensures n == 0 || kind in {CreateFolder, Delete} ==> stats == old(stats)
    {
      if kind == CreateFolder || kind == Delete || n == 0 {
        return;
      }
      if kind == Upload {
        stats := stats.(bytesUploaded := stats.bytesUploaded + n, filesUploaded := stats.filesUploaded + 1);
      } else {
        stats := stats.(bytesTransferred := stats.bytesTransferred + n, filesTransferred := stats.filesTransferred + 1);
      }
    }

    /** q.add under the job's own id. */
    method Add(j: nat)
      modifies this`keys, this`queue
      ensures keys == old(keys) + {j}
      ensures queue == if j in old(keys) then old(queue) else old(queue) + [j]
    {
      if j !in keys {
        keys, queue := keys + {j}, queue + [j];
      }
    }

    /** enqueueChildren; the add after failAt successful ones throws. Children that BullMQ
        knows already are not delivered twice. */
    method EnqueueChildren(p: nat, failAt: nat) returns (ok: bool)
      requires Valid()
      modifies this`keys, this`queue
      ensures ok == (|QueuedChildren(plan, status, p, |plan|)| <= failAt)
      ensures var told := Upto(QueuedChildren(plan, status, p, |plan|), failAt);
        keys == KeysAfter(old(keys), told) && queue == QueueAfter(old(keys), old(queue), told)
    {
      ok := AddEach(QueuedChildren(plan, status, p, |plan|), failAt);
    }

    method AddEach(children: seq<nat>, failAt: nat) returns (ok: bool)
      modifies this`keys, this`queue
      ensures ok == (|children| <= failAt)
      ensures keys == KeysAfter(old(keys), Upto(children, failAt))
      ensures queue == QueueAfter(old(keys), old(queue), Upto(children, failAt))
    {
      ghost var known, before := keys, queue;
      var i := 0;
      while i < |children| && i < failAt
        invariant i <= |children| && i <= failAt
        invariant keys == KeysAfter(known, children[..i])
        invariant queue == QueueAfter(known, before, children[..i])
      {
        OneMoreTold(children, i, known, before);
        Add(children[i]);
        i := i + 1;
      }
      assert children[..i] == Upto(children, failAt);
      ok := i == |children|;
    }

    /** cascadeSkipDescendants, on any parent graph, cycles included: it ends, and it skips
        exactly the jobs reached from the parent through queued jobs. */
    method CascadeSkipDescendants(parent: nat)
      requires Valid()
      modifies this`status
      ensures Valid()
      ensures status == Closure(plan, old(status), parent)
    {
      ghost var was, skipped := status, {};
      var parentIds := {parent};
      assert status == MarkSkipped(was, skipped);
      while parentIds != {}
        invariant Valid() && Cascaded(plan, was, parent, parentIds, skipped)
        invariant status == MarkSkipped(was, skipped)
        decreases QueuedSet(status), parentIds
      {
        LevelCascades(plan, was, status, parent, parentIds, skipped);
        var children := SkippedBy(plan, status, parentIds);
        QueuedFalls(plan, status, parentIds);
        skipped := skipped + children;
        status := MarkSkipped(status, children);
        parentIds := children;
      }
      ClosedIsClosure(plan, was, parent, skipped);
    }

    /** The end of runWrapped for a createFolder job: whether or not the release throws
        midway, no child is left queued that BullMQ was not told about. */
    method ReleaseOrSkip(p: nat, failAt: nat)
      requires Valid()
      modifies this`status, this`keys, this`queue
      ensures Valid() && old(keys) <= keys
      ensures forall j: nat :: ParentOf(plan, p, j) && status[j] == Queued ==> j in keys
      ensures forall j: nat :: j < |plan| && status[j] != old(status)[j] ==>
        status[j] == Skipped && Reached(plan, old(status), p, j)
    {
      var ok := EnqueueChildren(p, failAt);
      if !ok {
        CascadeSkipDescendants(p);
        forall j: nat | ParentOf(plan, p, j) && old(status)[j] == Queued // all of them are skipped
          ensures Reached(plan, old(status), p, j)
        {
          assert ReachedIn(plan, old(status), p, j, 0);
        }
      }
    }

    /** The `failed` listener. */
    method OnFailed(j: nat, rows: seq<CountRow>)
      requires Valid() && j < |plan|
      requires IsGroupBy(rows, AfterFailure(status, j))
      modifies this
      ensures Valid() && keys == old(keys) && queue == old(queue)
      ensures status == AfterFailure(old(status), j)
      ensures bytes == old(bytes) && stats == old(stats) && sourceDeletes == old(sourceDeletes)
      ensures op == if old(op).Final? || HasPending(status) then old(op) else Final(SomeFailed)
      ensures published ==
        if old(op).Final? || HasPending(status) then old(published) else old(published) + [SomeFailed]
    {
      status := status[j := Failed];
      ghost var failed := status;
      if plan[j].kind == CreateFolder {
        CascadeSkipDescendants(j);
      }
      assert status == AfterFailure(old(status), j);
      assert status[j] == Failed by {
        assert failed[j] == Failed;
      }
      MaybeFinalizeOperation(rows);
    }

    /** markJobFailed followed by the cascade of a folder job. */
    ghost function AfterFailure(was: seq<Status>, j: nat): (r: seq<Status>)
      requires |was| == |plan| && j < |plan|
      ensures |r| == |plan| && r[j] == Failed
    {
      var failed := was[j := Failed];
      if plan[j].kind == CreateFolder then Closure(plan, failed, j) else failed
    }

    /** maybeFinalizeOperation, nobody else writing between its count and its update. */
    method MaybeFinalizeOperation(rows: seq<CountRow>)
      requires Valid() && IsGroupBy(rows, status)
      modifies this`op, this`published, this`sourceDeletes
      ensures Finalises(status, old(Outcome(op, published, sourceDeletes)), Outcome(op, published, sourceDeletes))
    {
      var verdict := Decide(rows, status);
      if verdict.None? || op.Final? {
        return;
      }
      op := Final(verdict.value);
      published := published + [verdict.value];
      if verdict.value == AllSucceeded {
        sourceDeletes := sourceDeletes + 1;
      }
    }
  }

  lemma {:induction false} QueuedFalls(plan: Plan, status: seq<Status>, frontier: set<nat>)
    requires |status| == |plan|
    ensures var hit := SkippedBy(plan, status, frontier);
            QueuedSet(MarkSkipped(status, hit)) <= QueuedSet(status)
            && (hit != {} ==> QueuedSet(MarkSkipped(status, hit)) < QueuedSet(status))
  {
    var hit := SkippedBy(plan, status, frontier);
    if hit != {} {
      var j :| j in hit;
      assert j in QueuedSet(status) && j !in QueuedSet(MarkSkipped(status, hit));
    }
  }
}
