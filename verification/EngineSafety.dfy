/** Nothing is stranded, no finalisation is lost, folders come first, the ledger balances. */
module EngineSafety {
  import opened Engine
  import opened EngineInvariant

  // ---------------------------------------------------------------------
  // No job is stranded.
  // ---------------------------------------------------------------------

  lemma {:induction false} RunningStep(plan: Plan, s: State, a: Action, j: nat)
    requires IsForest(plan) && Structure(plan, s) && Enabled(plan, s, a) && j < |plan|
    requires Structure(plan, Next(plan, s, a)) && RunningHeld(s, j)
    ensures RunningHeld(Next(plan, s, a), j)
  {
    var t := Next(plan, s, a);
    if t.status[j] == Running {
      if s.status[j] == Running {
        var i :| 0 <= i < |s.procs| && Runs(s.procs[i], j);
        RunnerMovesOn(plan, s, a, i, j);
      } else {
        RunningBegins(plan, s, a, j);
      }
    }
  }

  lemma {:induction false} RunningBegins(plan: Plan, s: State, a: Action, j: nat)
    requires Sized(plan, s) && Enabled(plan, s, a) && j < |plan|
    requires Sized(plan, Next(plan, s, a))
    requires s.status[j] != Running && Next(plan, s, a).status[j] == Running
    ensures a.Claim? && Runs(Next(plan, s, a).procs[a.i], j)
  {
    if !Solo(a) {
      RunningKeptAtStart(plan, s, a, j);
      assert false;
    }
  }

  lemma {:induction false} RunningKeptAtStart(plan: Plan, s: State, a: Action, j: nat)
    requires Sized(plan, s) && Enabled(plan, s, a) && j < |plan| && !Solo(a)
    requires Sized(plan, Next(plan, s, a))
    ensures Next(plan, s, a).status[j] == Running ==> s.status[j] == Running
  {
    if a.AddRoot? || a.ReleaseOne? {
      AddWritesNoRow(plan, s, a);
    }
  }

  lemma {:induction false} RunnerMovesOn(plan: Plan, s: State, a: Action, i: nat, j: nat)
    requires Sized(plan, s) && Enabled(plan, s, a) && j < |plan|
    requires Sized(plan, Next(plan, s, a))
    requires i < |s.procs| && Runs(s.procs[i], j) && Next(plan, s, a).status[j] == Running
    ensures i < |Next(plan, s, a).procs| && Runs(Next(plan, s, a).procs[i], j)
  {
    if i == Actor(s, a) {
      RunnerActs(plan, s, a, j);
    } else {
      ProcsKept(plan, s, a, i);
    }
  }

  lemma {:induction false} ProcsKept(plan: Plan, s: State, a: Action, i: nat)
    requires Enabled(plan, s, a) && i < |s.procs| && i != Actor(s, a)
    ensures i < |Next(plan, s, a).procs| && Next(plan, s, a).procs[i] == s.procs[i]
  {
    if Solo(a) {
      SoloStep(plan, s, a);
    } else {
      ProcsKeptAtStart(plan, s, a, i);
    }
  }

  lemma {:induction false} ProcsKeptAtStart(plan: Plan, s: State, a: Action, i: nat)
    requires Enabled(plan, s, a) && i < |s.procs| && i != Actor(s, a) && !Solo(a)
    ensures i < |Next(plan, s, a).procs| && Next(plan, s, a).procs[i] == s.procs[i]
  {
  }

  lemma {:induction false} RunnerActs(plan: Plan, s: State, a: Action, j: nat)
    requires Sized(plan, s) && Enabled(plan, s, a) && j < |plan| && !a.Resolve?
    requires Sized(plan, Next(plan, s, a))
    requires Runs(s.procs[a.i], j) && Next(plan, s, a).status[j] == Running
    ensures Runs(Next(plan, s, a).procs[a.i], j)
  {
    assert a.Claim? || a.Succeed? || a.Throw? || a.Pause? || a.MarkFailed?;
  }

  predicate Serving(plan: Plan, s: State, i: nat, j: nat)
    requires j < |plan|
  {
    i < |s.procs| && Serves(plan, s.procs[i], j)
  }

  /** A server of a queued job either stays, hands over in place, or starts the delivery. */
  lemma {:induction false} ServerMovesOn(plan: Plan, s: State, a: Action, i: nat, j: nat)
    requires IsForest(plan) && Structure(plan, s) && Enabled(plan, s, a) && j < |plan|
    requires Structure(plan, Next(plan, s, a))
    requires Serving(plan, s, i, j)
    requires s.status[j] == Queued && Next(plan, s, a).status[j] == Queued
    ensures var t := Next(plan, s, a); Serving(plan, t, i, j) || Serving(plan, t, |s.procs|, j)
  {
    if i == Actor(s, a) {
      assert ProcOk(plan, s, s.procs[i]);
      ServerActs(plan, s, a, j);
    } else {
      ServerWaits(plan, s, a, i, j);
    }
  }

  lemma {:induction false} ServerWaits(plan: Plan, s: State, a: Action, i: nat, j: nat)
    requires Sized(plan, s) && Enabled(plan, s, a) && j < |plan|
    requires Serving(plan, s, i, j) && i != Actor(s, a)
    ensures Serving(plan, Next(plan, s, a), i, j)
  {
    ProcsKept(plan, s, a, i);
  }

  lemma {:induction false} ServerActs(plan: Plan, s: State, a: Action, j: nat)
    requires IsForest(plan) && Sized(plan, s) && Enabled(plan, s, a) && j < |plan| && !a.Resolve?
    requires Sized(plan, Next(plan, s, a))
    requires Serving(plan, s, a.i, j) && ProcOk(plan, s, s.procs[a.i])
    requires s.status[j] == Queued && Next(plan, s, a).status[j] == Queued
    ensures var t := Next(plan, s, a); Serving(plan, t, a.i, j) || Serving(plan, t, |s.procs|, j)
  {
    var p := s.procs[a.i];
    if p.Launching? || p.Releasing? {
      ListServerActs(plan, s, a, j);
    } else if p.Crediting? || p.Selecting? {
      assert ParentOf(plan, p.job, j);
      FolderServerActs(plan, s, a, j);
    } else {
      OtherServerActs(plan, s, a, j);
    }
  }

  lemma {:induction false} ListServerActs(plan: Plan, s: State, a: Action, j: nat)
    requires IsForest(plan) && Sized(plan, s) && Enabled(plan, s, a) && j < |plan| && !a.Resolve?
    requires s.procs[a.i].Launching? || s.procs[a.i].Releasing?
    requires Serving(plan, s, a.i, j) && ProcOk(plan, s, s.procs[a.i])
    ensures var t := Next(plan, s, a); Serving(plan, t, a.i, j) || Serving(plan, t, |s.procs|, j)
  {
    var todo := TodoOf(s.procs[a.i]);
    TodoFacts(plan, s, s.procs[a.i], j);
    TodoFacts(plan, s, s.procs[a.i], todo[0]);
    if a.ReleaseThrow? {
      ThrowTakesOver(plan, s, a.i, j);
    } else {
      TodoAdvances(plan, s, a, j);
    }
  }

  lemma {:induction false} ThrowTakesOver(plan: Plan, s: State, i: nat, j: nat)
    requires Enabled(plan, s, ReleaseThrow(i)) && ParentOf(plan, s.procs[i].job, j)
    ensures Serving(plan, Next(plan, s, ReleaseThrow(i)), i, j)
  {
  }

  lemma {:induction false} TodoAdvances(plan: Plan, s: State, a: Action, j: nat)
    requires Enabled(plan, s, a) && j < |plan|
    requires a.AddRoot? || a.ReleaseOne?
    requires j in s.procs[a.i].todo && s.procs[a.i].todo[0] !in s.keys
    ensures var t := Next(plan, s, a); Serving(plan, t, a.i, j) || Serving(plan, t, |s.procs|, j)
  {
    var todo := s.procs[a.i].todo;
    assert todo == [todo[0]] + todo[1..];
  }

  lemma {:induction false} FolderServerActs(plan: Plan, s: State, a: Action, j: nat)
    requires IsForest(plan) && Sized(plan, s) && Enabled(plan, s, a) && j < |plan| && !a.Resolve?
    requires s.procs[a.i].Crediting? || s.procs[a.i].Selecting?
    requires ParentOf(plan, s.procs[a.i].job, j) && s.status[j] == Queued
    ensures Serving(plan, Next(plan, s, a), a.i, j)
  {
    if a.ReleaseThrow? {
      ThrowTakesOver(plan, s, a.i, j);
    } else if a.Credit? {
      CreditTakesOver(plan, s, a.i, j);
    } else {
      SelectTakesOver(plan, s, a.i, j);
    }
  }

  lemma {:induction false} CreditTakesOver(plan: Plan, s: State, i: nat, j: nat)
    requires IsForest(plan) && Enabled(plan, s, Credit(i)) && ParentOf(plan, s.procs[i].job, j)
    ensures Serving(plan, Next(plan, s, Credit(i)), i, j)
  {
    assert IsFolder(plan, s.procs[i].job);
  }

  lemma {:induction false} SelectTakesOver(plan: Plan, s: State, i: nat, j: nat)
    requires Enabled(plan, s, SelectChildren(i)) && ParentOf(plan, s.procs[i].job, j)
    requires s.status[j] == Queued
    ensures Serving(plan, Next(plan, s, SelectChildren(i)), i, j)
  {
    assert j in QueuedChildren(plan, s.status, s.procs[i].job, |plan|);
  }

  lemma {:induction false} OtherServerActs(plan: Plan, s: State, a: Action, j: nat)
    requires Sized(plan, s) && Enabled(plan, s, a) && j < |plan| && !a.Resolve?
    requires s.procs[a.i].Waiting? || s.procs[a.i].Readding? || s.procs[a.i].Cascading?
    requires Sized(plan, Next(plan, s, a))
    requires Serving(plan, s, a.i, j) && s.status[j] == Queued && Next(plan, s, a).status[j] == Queued
    ensures Serving(plan, Next(plan, s, a), |s.procs|, j)
  {
    assert a.Claim? || a.Readd? || a.CascadeLevel?;
  }

  /** When a pending folder stops being pending, a process takes over its children. */
  lemma {:induction false} FolderHandsOver(plan: Plan, s: State, a: Action, p: nat, j: nat)
    requires IsForest(plan) && Structure(plan, s) && Enabled(plan, s, a)
    requires Structure(plan, Next(plan, s, a))
    requires ParentOf(plan, p, j) && (s.status[p] == Queued || s.status[p] == Running)
    requires Next(plan, s, a).status[p] != Queued && Next(plan, s, a).status[p] != Running
    ensures !a.Resolve? && Serving(plan, Next(plan, s, a), a.i, j)
  {
    assert IsFolder(plan, p);
    assert Next(plan, s, a).status[p] != s.status[p];
    if a.CascadeLevel? {
    } else {
      PendingEnds(plan, s, a, p);
    }
  }

  lemma {:induction false} PendingEnds(plan: Plan, s: State, a: Action, p: nat)
    requires Sized(plan, s) && Enabled(plan, s, a) && IsFolder(plan, p) && !a.CascadeLevel?
    requires s.status[p] == Queued || s.status[p] == Running
    requires Sized(plan, Next(plan, s, a))
    requires Next(plan, s, a).status[p] != Queued && Next(plan, s, a).status[p] != Running
    ensures (a.Succeed? || a.MarkFailed?) && s.procs[a.i].job == p
  {
    if !Solo(a) {
      PendingLastsAtStart(plan, s, a, p);
      assert false;
    }
  }

  lemma {:induction false} PendingLastsAtStart(plan: Plan, s: State, a: Action, p: nat)
    requires Sized(plan, s) && Enabled(plan, s, a) && p < |plan| && !Solo(a)
    requires s.status[p] == Queued || s.status[p] == Running
    requires Sized(plan, Next(plan, s, a))
    ensures Next(plan, s, a).status[p] == s.status[p]
  {
    if a.AddRoot? || a.ReleaseOne? {
      AddWritesNoRow(plan, s, a);
    } else {
      PendingLastsAtResolve(plan, s, a, p);
    }
  }

  lemma {:induction false} PendingLastsAtResolve(plan: Plan, s: State, a: Action, p: nat)
    requires Sized(plan, s) && Enabled(plan, s, a) && p < |plan| && (a.Resolve? || a.ResolveMore? || a.Readd?)
    requires s.status[p] == Queued || s.status[p] == Running
    requires Sized(plan, Next(plan, s, a))
    ensures Next(plan, s, a).status[p] == s.status[p]
  {
  }

  lemma {:induction false} QueuedBegins(plan: Plan, s: State, a: Action, j: nat)
    requires Sized(plan, s) && Enabled(plan, s, a) && j < |plan|
    requires Sized(plan, Next(plan, s, a))
    requires s.status[j] != Queued && Next(plan, s, a).status[j] == Queued
    ensures Serving(plan, Next(plan, s, a), Actor(s, a), j)
  {
    if Solo(a) {
      NoneQueuedSolo(plan, s, a, j);
      assert false;
    } else if a.AddRoot? || a.ReleaseOne? {
      AddWritesNoRow(plan, s, a);
      assert false;
    } else {
      ResolvedServes(plan, s, a, j);
    }
  }

  lemma {:induction false} NoneQueuedSolo(plan: Plan, s: State, a: Action, j: nat)
    requires Sized(plan, s) && Enabled(plan, s, a) && j < |plan| && Solo(a)
    requires Sized(plan, Next(plan, s, a))
    ensures Next(plan, s, a).status[j] == Queued ==> s.status[j] == Queued
  {
  }

  lemma {:induction false} ResolvedServes(plan: Plan, s: State, a: Action, j: nat)
    requires Sized(plan, s) && Enabled(plan, s, a) && j < |plan| && (a.Resolve? || a.ResolveMore? || a.Readd?)
    requires Sized(plan, Next(plan, s, a))
    requires s.status[j] != Queued && Next(plan, s, a).status[j] == Queued
    ensures Serving(plan, Next(plan, s, a), Actor(s, a), j)
  {
  }

  lemma {:induction false} QueuedStep(plan: Plan, s: State, a: Action, j: nat)
    requires IsForest(plan) && Structure(plan, s) && Enabled(plan, s, a) && j < |plan|
    requires Structure(plan, Next(plan, s, a)) && QueuedServed(plan, s, j)
    ensures QueuedServed(plan, Next(plan, s, a), j)
  {
    var t := Next(plan, s, a);
    if t.status[j] == Queued {
      if s.status[j] != Queued {
        QueuedBegins(plan, s, a, j);
        ServedBy(plan, t, Actor(s, a), j);
      } else if exists i :: 0 <= i < |s.procs| && Serves(plan, s.procs[i], j) {
        var i: nat :| i < |s.procs| && Serves(plan, s.procs[i], j);
        ServerMovesOn(plan, s, a, i, j);
        ServedBy(plan, t, if Serving(plan, t, i, j) then i else |s.procs|, j);
      } else {
        var p: nat :| ParentOf(plan, p, j) && (s.status[p] == Queued || s.status[p] == Running);
        if t.status[p] != Queued && t.status[p] != Running {
          FolderHandsOver(plan, s, a, p, j);
          ServedBy(plan, t, a.i, j);
        }
      }
    }
  }

  lemma {:induction false} ServedBy(plan: Plan, t: State, i: nat, j: nat)
    requires IsForest(plan) && |t.status| == |plan| && j < |plan| && Serving(plan, t, i, j)
    ensures QueuedServed(plan, t, j)
  {
  }

  lemma {:induction false} StrandingStep(plan: Plan, s: State, a: Action)
    requires IsForest(plan) && Structure(plan, s) && Enabled(plan, s, a)
    requires NoneStranded(plan, s) && Structure(plan, Next(plan, s, a))
    ensures NoneStranded(plan, Next(plan, s, a))
  {
    forall j: nat | j < |plan|
      ensures RunningHeld(Next(plan, s, a), j) && QueuedServed(plan, Next(plan, s, a), j)
    {
      RunningStep(plan, s, a, j);
      QueuedStep(plan, s, a, j);
    }
  }

  // ---------------------------------------------------------------------
  // No finalisation is lost.
  // ---------------------------------------------------------------------

  ghost predicate FinaliserLeft(s: State) {
    exists i :: 0 <= i < |s.procs| && WillFinalize(s.procs[i])
  }

  ghost predicate FinalisationDue(s: State) {
    AllTerminal(s.status) && s.wins == 0 ==> FinaliserLeft(s)
  }

  lemma {:induction false} LastJobEnds(plan: Plan, s: State, a: Action, x: nat)
    requires Sized(plan, s) && Enabled(plan, s, a) && x < |plan|
    requires Sized(plan, Next(plan, s, a))
    requires Pending(s.status[x]) && !Pending(Next(plan, s, a).status[x])
    ensures WillFinalize(Next(plan, s, a).procs[Actor(s, a)])
  {
  }

  lemma {:induction false} FinaliserMovesOn(plan: Plan, s: State, a: Action)
    requires Sized(plan, s) && Enabled(plan, s, a) && AllTerminal(s.status) && !a.Resolve?
    requires WillFinalize(s.procs[a.i])
    requires s.op.Final? ==> s.wins > 0
    ensures Next(plan, s, a).wins > 0 || WillFinalize(Next(plan, s, a).procs[a.i])
  {
    assert !HasPending(s.status);
  }

  lemma {:induction false} WinsGrow(plan: Plan, s: State, a: Action)
    requires Enabled(plan, s, a)
    ensures s.wins <= Next(plan, s, a).wins
  {
  }

  lemma {:induction false} FinalisationStep(plan: Plan, s: State, a: Action)
    requires IsForest(plan) && Structure(plan, s) && Enabled(plan, s, a)
    requires FinalisationDue(s) && (s.op.Final? ==> s.wins > 0)
    requires Structure(plan, Next(plan, s, a))
    ensures FinalisationDue(Next(plan, s, a))
  {
    var t := Next(plan, s, a);
    WinsGrow(plan, s, a);
    if AllTerminal(t.status) && t.wins == 0 {
      if !AllTerminal(s.status) {
        var x: nat :| x < |plan| && Pending(s.status[x]);
        LastJobEnds(plan, s, a, x);
      } else {
        var i :| 0 <= i < |s.procs| && WillFinalize(s.procs[i]);
        if i == Actor(s, a) {
          FinaliserMovesOn(plan, s, a);
          assert WillFinalize(t.procs[a.i]);
        } else {
          ProcsKept(plan, s, a, i);
          assert WillFinalize(t.procs[i]);
        }
      }
    }
  }

  // ---------------------------------------------------------------------
  // One verdict.
  // ---------------------------------------------------------------------

  function PublishingCount(procs: seq<Process>): nat {
    if procs == [] then 0
    else PublishingCount(procs[..|procs| - 1]) + if procs[|procs| - 1].Publishing? then 1 else 0
  }

  lemma {:induction false} PublishingUpdate(procs: seq<Process>, i: nat, p: Process)
    requires i < |procs|
    ensures PublishingCount(procs[i := p]) + (if procs[i].Publishing? then 1 else 0)
         == PublishingCount(procs) + (if p.Publishing? then 1 else 0)
  {
    var n := |procs| - 1;
    if i < n {
      assert procs[i := p][..n] == procs[..n][i := p];
      PublishingUpdate(procs[..n], i, p);
    } else {
      assert procs[i := p][..n] == procs[..n];
    }
  }

  lemma {:induction false} PublishingAppend(procs: seq<Process>, p: Process)
    ensures PublishingCount(procs + [p]) == PublishingCount(procs) + if p.Publishing? then 1 else 0
  {
    assert (procs + [p])[..|procs|] == procs;
  }

  lemma {:induction false} NonePublishing(procs: seq<Process>)
    requires forall i :: 0 <= i < |procs| ==> !procs[i].Publishing?
    ensures PublishingCount(procs) == 0
  {
    if procs != [] {
      NonePublishing(procs[..|procs| - 1]);
    }
  }

  /** How the operation row, the `running` write and the winning updates fit together. */
  ghost predicate RowOfOperation(s: State) {
    if !s.launched then
      !s.late && (if s.wins == 0 then s.op == Ready else s.wins == 1 && s.op.Final?)
    else if !s.late then
      if s.wins == 0 then s.op == InProgress else s.wins == 1 && s.op.Final?
    else
      (s.wins == 1 && s.op == InProgress) || (s.wins == 2 && s.op.Final?)
  }

  ghost predicate OneVerdict(s: State) {
    && (s.wins > 0 ==> AllTerminal(s.status))
    && (s.op.Final? ==> s.op.verdict == VerdictOf(s.status))
    && (forall k :: 0 <= k < |s.published| ==> s.published[k] == VerdictOf(s.status))
    && s.wins == |s.published| + PublishingCount(s.procs)
    && s.sourceDeletes == (if VerdictOf(s.status) == AllSucceeded then |s.published| else 0)
  }

  ghost predicate Launched(s: State) {
    |s.procs| > 0 && (s.launched <==> !s.procs[0].Launching?)
  }

  ghost predicate Outcome(s: State) {
    RowOfOperation(s) && OneVerdict(s) && Launched(s)
  }

  lemma {:induction false} RowOfOperationStep(plan: Plan, s: State, a: Action)
    requires Sized(plan, s) && Enabled(plan, s, a)
    requires RowOfOperation(s) && Launched(s)
    ensures RowOfOperation(Next(plan, s, a)) && Launched(Next(plan, s, a))
  {
    if a.WriteRunning? {
      RunningWritten(plan, s, a.i);
    } else {
      LaunchedKept(plan, s, a);
      if a.WriteVerdict? {
        VerdictWritten(plan, s, a.i);
      } else {
        OperationUntouched(plan, s, a);
      }
    }
  }

  lemma {:induction false} RunningWritten(plan: Plan, s: State, i: nat)
    requires Sized(plan, s) && Enabled(plan, s, WriteRunning(i)) && RowOfOperation(s) && Launched(s)
    ensures RowOfOperation(Next(plan, s, WriteRunning(i))) && Launched(Next(plan, s, WriteRunning(i)))
  {
  }

  lemma {:induction false} VerdictWritten(plan: Plan, s: State, i: nat)
    requires Sized(plan, s) && Enabled(plan, s, WriteVerdict(i)) && RowOfOperation(s)
    ensures RowOfOperation(Next(plan, s, WriteVerdict(i)))
  {
  }

  lemma {:induction false} LaunchedKept(plan: Plan, s: State, a: Action)
    requires Sized(plan, s) && Enabled(plan, s, a) && Launched(s) && !a.WriteRunning?
    ensures Launched(Next(plan, s, a)) && Next(plan, s, a).launched == s.launched
  {
    if Solo(a) {
      LaunchedKeptSolo(plan, s, a);
    } else {
      LaunchedKeptStart(plan, s, a);
    }
  }

  lemma {:induction false} LaunchedKeptSolo(plan: Plan, s: State, a: Action)
    requires Enabled(plan, s, a) && Launched(s) && !a.WriteRunning? && Solo(a)
    ensures Launched(Next(plan, s, a)) && Next(plan, s, a).launched == s.launched
  {
  }

  lemma {:induction false} LaunchedKeptStart(plan: Plan, s: State, a: Action)
    requires Enabled(plan, s, a) && Launched(s) && !Solo(a)
    ensures Launched(Next(plan, s, a)) && Next(plan, s, a).launched == s.launched
  {
  }

  lemma {:induction false} OperationUntouched(plan: Plan, s: State, a: Action)
    requires Enabled(plan, s, a) && !a.WriteRunning? && !a.WriteVerdict?
    ensures var t := Next(plan, s, a);
      t.op == s.op && t.launched == s.launched && t.late == s.late && t.wins == s.wins
    ensures !a.Publish? ==>
      Next(plan, s, a).published == s.published && Next(plan, s, a).sourceDeletes == s.sourceDeletes
  {
    if !Solo(a) {
      OperationAtStart(plan, s, a);
    }
  }

  lemma {:induction false} OperationAtStart(plan: Plan, s: State, a: Action)
    requires Enabled(plan, s, a) && !Solo(a)
    ensures var t := Next(plan, s, a);
      && t.op == s.op && t.launched == s.launched && t.late == s.late && t.wins == s.wins
      && t.published == s.published && t.sourceDeletes == s.sourceDeletes
  {
    if a.AddRoot? || a.ReleaseOne? {
      OperationAtAdd(plan, s, a);
    }
  }

  lemma {:induction false} OperationAtAdd(plan: Plan, s: State, a: Action)
    requires Enabled(plan, s, a) && (a.AddRoot? || a.ReleaseOne?)
    ensures var t := Next(plan, s, a);
      && t.op == s.op && t.launched == s.launched && t.late == s.late && t.wins == s.wins
      && t.published == s.published && t.sourceDeletes == s.sourceDeletes
  {
  }

  lemma {:induction false} CountsOfAction(plan: Plan, s: State, a: Action)
    requires Enabled(plan, s, a) && s.wins == |s.published| + PublishingCount(s.procs)
    ensures var t := Next(plan, s, a); t.wins == |t.published| + PublishingCount(t.procs)
  {
    if Solo(a) {
      SoloStep(plan, s, a);
      PublishingUpdate(s.procs, a.i, Next(plan, s, a).procs[a.i]);
      CountsSolo(plan, s, a);
    } else {
      CountsStart(plan, s, a);
    }
  }

  lemma {:induction false} CountsSolo(plan: Plan, s: State, a: Action)
    requires Enabled(plan, s, a) && Solo(a)
    ensures var t := Next(plan, s, a);
      t.wins - |t.published| - (if t.procs[a.i].Publishing? then 1 else 0)
      == s.wins - |s.published| - (if s.procs[a.i].Publishing? then 1 else 0)
  {
    if !a.WriteVerdict? && !a.Publish? {
      OnlyRacersCount(plan, s, a);
    }
  }

  lemma {:induction false} OnlyRacersCount(plan: Plan, s: State, a: Action)
    requires Enabled(plan, s, a) && Solo(a) && !a.WriteVerdict? && !a.Publish?
    ensures var t := Next(plan, s, a);
      && t.wins == s.wins && t.published == s.published
      && !s.procs[a.i].Publishing? && !t.procs[a.i].Publishing?
  {
  }

  lemma {:induction false} CountsStart(plan: Plan, s: State, a: Action)
    requires Enabled(plan, s, a) && !Solo(a)
    ensures var t := Next(plan, s, a);
      t.wins == s.wins && t.published == s.published && PublishingCount(t.procs) == PublishingCount(s.procs)
  {
    var t := Next(plan, s, a);
    OperationUntouched(plan, s, a);
    StartingShape(plan, s, a);
    if a.Resolve? {
      PublishingAppend(s.procs, t.procs[|s.procs|]);
    } else {
      PublishingUpdate(s.procs, a.i, t.procs[a.i]);
      if |t.procs| > |s.procs| {
        PublishingAppend(s.procs[a.i := t.procs[a.i]], t.procs[|s.procs|]);
      }
    }
  }

  /** The process list after an action that can start a process. */
  lemma {:induction false} StartingShape(plan: Plan, s: State, a: Action)
    requires Enabled(plan, s, a) && !Solo(a)
    ensures var t := Next(plan, s, a);
      if a.Resolve? then
        |t.procs| == |s.procs| + 1 && t.procs == s.procs + [t.procs[|s.procs|]] && Quiet(t.procs[|s.procs|])
      else
        && |s.procs| <= |t.procs| <= |s.procs| + 1
        && Quiet(s.procs[a.i]) && Quiet(t.procs[a.i])
        && (|t.procs| == |s.procs| ==> t.procs == s.procs[a.i := t.procs[a.i]])
        && (|t.procs| > |s.procs| ==>
              t.procs == s.procs[a.i := t.procs[a.i]] + [t.procs[|s.procs|]] && Quiet(t.procs[|s.procs|]))
  {
  }

  predicate Quiet(p: Process) {
    !p.Publishing? && !p.Crediting?
  }

  lemma {:induction false} OneVerdictStep(plan: Plan, s: State, a: Action)
    requires IsForest(plan) && Structure(plan, s) && Enabled(plan, s, a) && Outcome(s)
    ensures OneVerdict(Next(plan, s, a))
  {
    CountsOfAction(plan, s, a);
    if s.wins > 0 {
      TerminalStays(plan, s, a);
    }
    if !a.Resolve? {
      assert ProcOk(plan, s, s.procs[a.i]);
    }
    VerdictKept(plan, s, a);
  }

  lemma {:induction false} VerdictKept(plan: Plan, s: State, a: Action)
    requires Sized(plan, s) && Enabled(plan, s, a) && OneVerdict(s)
    requires s.op.Final? ==> s.wins > 0
    requires !a.Resolve? ==> ProcOk(plan, s, s.procs[a.i])
    requires s.wins > 0 ==> Next(plan, s, a).status == s.status
    ensures var t := Next(plan, s, a);
      && (t.wins > 0 ==> AllTerminal(t.status))
      && (t.op.Final? ==> t.op.verdict == VerdictOf(t.status))
      && (forall k :: 0 <= k < |t.published| ==> t.published[k] == VerdictOf(t.status))
      && t.sourceDeletes == (if VerdictOf(t.status) == AllSucceeded then |t.published| else 0)
  {
    if a.WriteVerdict? || a.WriteRunning? || a.Publish? {
      VerdictActs(plan, s, a);
    } else {
      OperationUntouched(plan, s, a);
    }
  }

  lemma {:induction false} VerdictActs(plan: Plan, s: State, a: Action)
    requires Sized(plan, s) && Enabled(plan, s, a) && OneVerdict(s)
    requires a.WriteVerdict? || a.WriteRunning? || a.Publish?
    requires ProcOk(plan, s, s.procs[a.i])
    ensures var t := Next(plan, s, a);
      && t.status == s.status
      && (t.wins > 0 ==> AllTerminal(t.status))
      && (t.op.Final? ==> t.op.verdict == VerdictOf(t.status))
      && (forall k :: 0 <= k < |t.published| ==> t.published[k] == VerdictOf(t.status))
      && t.sourceDeletes == (if VerdictOf(t.status) == AllSucceeded then |t.published| else 0)
  {
  }

  // ---------------------------------------------------------------------
  // Folders are materialised.
  // ---------------------------------------------------------------------

  /** The row resolveDestinationParent looks up. */
  ghost predicate HasFolderRow(rows: map<nat, Row>, path: string) {
    exists r :: r in rows && rows[r] == Row(path, true)
  }

  ghost predicate FoldersMaterialised(plan: Plan, s: State)
    requires |s.status| == |plan|
  {
    forall f: nat :: IsFolder(plan, f) && s.status[f] == Succeeded ==> HasFolderRow(s.rows, plan[f].path)
  }

  lemma {:induction false} MaterialisedStep(plan: Plan, s: State, a: Action)
    requires Sized(plan, s) && Enabled(plan, s, a) && FoldersMaterialised(plan, s)
    requires Sized(plan, Next(plan, s, a))
    ensures FoldersMaterialised(plan, Next(plan, s, a))
  {
    var t := Next(plan, s, a);
    forall f: nat | IsFolder(plan, f) && t.status[f] == Succeeded
      ensures HasFolderRow(t.rows, plan[f].path)
    {
      if a.Succeed? {
        FolderRowKept(plan, s, a.i, a.bytes, a.upsert, f);
      } else {
        OnlySucceedWrites(plan, s, a, f);
      }
    }
  }

  lemma {:induction false} OnlySucceedWrites(plan: Plan, s: State, a: Action, f: nat)
    requires Sized(plan, s) && Enabled(plan, s, a) && !a.Succeed? && f < |plan|
    requires Sized(plan, Next(plan, s, a))
    ensures Next(plan, s, a).rows == s.rows
    ensures Next(plan, s, a).status[f] == Succeeded ==> s.status[f] == Succeeded
  {
    if Solo(a) {
      OnlySucceedWritesSolo(plan, s, a, f);
    } else {
      OnlySucceedWritesStart(plan, s, a, f);
    }
  }

  lemma {:induction false} OnlySucceedWritesSolo(plan: Plan, s: State, a: Action, f: nat)
    requires Sized(plan, s) && Enabled(plan, s, a) && !a.Succeed? && f < |plan| && Solo(a)
    requires Sized(plan, Next(plan, s, a))
    ensures Next(plan, s, a).rows == s.rows
    ensures Next(plan, s, a).status[f] == Succeeded ==> s.status[f] == Succeeded
  {
    SoloStatus(plan, s, a, f);
    SoloRows(plan, s, a);
  }

  lemma {:induction false} SoloStatus(plan: Plan, s: State, a: Action, f: nat)
    requires Sized(plan, s) && Enabled(plan, s, a) && !a.Succeed? && f < |plan| && Solo(a)
    requires Sized(plan, Next(plan, s, a))
    ensures Next(plan, s, a).status[f] == Succeeded ==> s.status[f] == Succeeded
  {
  }

  lemma {:induction false} SoloRows(plan: Plan, s: State, a: Action)
    requires Sized(plan, s) && Enabled(plan, s, a) && !a.Succeed? && Solo(a)
    ensures Next(plan, s, a).rows == s.rows
  {
  }

  lemma {:induction false} OnlySucceedWritesStart(plan: Plan, s: State, a: Action, f: nat)
    requires Sized(plan, s) && Enabled(plan, s, a) && f < |plan| && !Solo(a)
    requires Sized(plan, Next(plan, s, a))
    ensures Next(plan, s, a).rows == s.rows
    ensures Next(plan, s, a).status[f] == Succeeded ==> s.status[f] == Succeeded
  {
    if a.AddRoot? || a.ReleaseOne? {
      AddWritesNoRow(plan, s, a);
    }
  }

  lemma {:induction false} AddWritesNoRow(plan: Plan, s: State, a: Action)
    requires Enabled(plan, s, a) && (a.AddRoot? || a.ReleaseOne?)
    ensures Next(plan, s, a).rows == s.rows && Next(plan, s, a).status == s.status
  {
  }

  lemma {:induction false} FolderRowKept(plan: Plan, s: State, i: nat, bytes: nat, u: Upsert, f: nat)
    requires Sized(plan, s) && Enabled(plan, s, Succeed(i, bytes, u)) && FoldersMaterialised(plan, s)
    requires IsFolder(plan, f) && (s.status[f] == Succeeded || f == s.procs[i].job)
    ensures HasFolderRow(Next(plan, s, Succeed(i, bytes, u)).rows, plan[f].path)
  {
    var t := Next(plan, s, Succeed(i, bytes, u));
    if f == s.procs[i].job {
      assert t.rows[u.remoteId] == Row(plan[f].path, true);
    } else {
      var r :| r in s.rows && s.rows[r] == Row(plan[f].path, true);
      assert r in t.rows && t.rows[r] == Row(plan[f].path, true);
    }
  }

  // ---------------------------------------------------------------------
  // The transfer ledger.
  // ---------------------------------------------------------------------

  /** What the succeeded rows 0..n are worth to a counter. */
  function EarnedBySucceeded(plan: Plan, s: State, c: Counter, n: nat): nat
    requires n <= |plan| && |s.status| == |plan| && |s.bytes| == |plan|
  {
    if n == 0 then 0
    else EarnedBySucceeded(plan, s, c, n - 1)
         + if s.status[n - 1] == Succeeded then Earned(plan[n - 1].kind, s.bytes[n - 1], c) else 0
  }

  function OwedBy(plan: Plan, p: Process, c: Counter): nat {
    if p.Crediting? && p.job < |plan| then Earned(plan[p.job].kind, p.bytes, c) else 0
  }

  /** What has been written to jobs but not yet to transfer_stats. */
  function Owed(plan: Plan, procs: seq<Process>, c: Counter): nat {
    if procs == [] then 0
    else Owed(plan, procs[..|procs| - 1], c) + OwedBy(plan, procs[|procs| - 1], c)
  }

  lemma {:induction false} OwedUpdate(plan: Plan, procs: seq<Process>, c: Counter, i: nat, p: Process)
    requires i < |procs|
    ensures Owed(plan, procs[i := p], c) + OwedBy(plan, procs[i], c) == Owed(plan, procs, c) + OwedBy(plan, p, c)
  {
    var n := |procs| - 1;
    if i < n {
      assert procs[i := p][..n] == procs[..n][i := p];
      OwedUpdate(plan, procs[..n], c, i, p);
    } else {
      assert procs[i := p][..n] == procs[..n];
    }
  }

  lemma {:induction false} OwedAppend(plan: Plan, procs: seq<Process>, c: Counter, p: Process)
    ensures Owed(plan, procs + [p], c) == Owed(plan, procs, c) + OwedBy(plan, p, c)
  {
    assert (procs + [p])[..|procs|] == procs;
  }

  lemma {:induction false} NothingOwed(plan: Plan, procs: seq<Process>, c: Counter)
    requires forall i :: 0 <= i < |procs| ==> !procs[i].Crediting?
    ensures Owed(plan, procs, c) == 0
  {
    if procs != [] {
      NothingOwed(plan, procs[..|procs| - 1], c);
    }
  }

  /** Counters are the opening balance plus what the succeeded jobs earned, less what is still owed. */
  ghost predicate LedgerBalances(plan: Plan, opening: Stats, s: State)
    requires |s.status| == |plan| && |s.bytes| == |plan|
  {
    forall c :: s.stats.Get(c) + Owed(plan, s.procs, c)
             == opening.Get(c) + EarnedBySucceeded(plan, s, c, |plan|)
  }

  lemma {:induction false} EarnedSame(plan: Plan, s: State, t: State, c: Counter, n: nat)
    requires n <= |plan| && |s.status| == |s.bytes| == |plan| && |t.status| == |t.bytes| == |plan|
    requires forall x :: 0 <= x < n ==>
      t.bytes[x] == s.bytes[x] && (t.status[x] == Succeeded <==> s.status[x] == Succeeded)
    ensures EarnedBySucceeded(plan, t, c, n) == EarnedBySucceeded(plan, s, c, n)
  {
    if n > 0 {
      EarnedSame(plan, s, t, c, n - 1);
    }
  }

  lemma {:induction false} EarnedOneMore(plan: Plan, s: State, t: State, c: Counter, n: nat, j: nat)
    requires j < n <= |plan| && |s.status| == |s.bytes| == |plan| && |t.status| == |t.bytes| == |plan|
    requires s.status[j] != Succeeded && t.status[j] == Succeeded
    requires forall x :: 0 <= x < n && x != j ==> t.bytes[x] == s.bytes[x] && t.status[x] == s.status[x]
    ensures EarnedBySucceeded(plan, t, c, n) == EarnedBySucceeded(plan, s, c, n) + Earned(plan[j].kind, t.bytes[j], c)
  {
    if j == n - 1 {
      EarnedSame(plan, s, t, c, n - 1);
    } else {
      EarnedOneMore(plan, s, t, c, n - 1, j);
    }
  }

  lemma {:induction false} LedgerSucceed(plan: Plan, s: State, i: nat, bytes: nat, u: Upsert, c: Counter)
    requires Sized(plan, s) && Enabled(plan, s, Succeed(i, bytes, u)) && ProcOk(plan, s, s.procs[i])
    ensures var t := Next(plan, s, Succeed(i, bytes, u));
      && Sized(plan, t) && t.stats == s.stats
      && Owed(plan, t.procs, c) == Owed(plan, s.procs, c) + Earned(plan[s.procs[i].job].kind, bytes, c)
      && EarnedBySucceeded(plan, t, c, |plan|)
         == EarnedBySucceeded(plan, s, c, |plan|) + Earned(plan[s.procs[i].job].kind, bytes, c)
  {
    var j := s.procs[i].job;
    var t := Next(plan, s, Succeed(i, bytes, u));
    OwedUpdate(plan, s.procs, c, i, Crediting(j, bytes));
    EarnedOneMore(plan, s, t, c, |plan|, j);
  }

  lemma {:induction false} LedgerCredit(plan: Plan, s: State, i: nat, c: Counter)
    requires Sized(plan, s) && Enabled(plan, s, Credit(i))
    ensures var t := Next(plan, s, Credit(i));
      && Sized(plan, t)
      && t.stats.Get(c) + Owed(plan, t.procs, c) == s.stats.Get(c) + Owed(plan, s.procs, c)
      && EarnedBySucceeded(plan, t, c, |plan|) == EarnedBySucceeded(plan, s, c, |plan|)
  {
    var p := s.procs[i];
    var t := Next(plan, s, Credit(i));
    OwedUpdate(plan, s.procs, c, i, t.procs[i]);
    EarnedSame(plan, s, t, c, |plan|);
  }

  lemma {:induction false} LedgerOther(plan: Plan, s: State, a: Action, c: Counter)
    requires IsForest(plan) && Structure(plan, s) && Enabled(plan, s, a) && !a.Succeed? && !a.Credit?
    requires Structure(plan, Next(plan, s, a))
    ensures var t := Next(plan, s, a);
      && t.stats == s.stats
      && Owed(plan, t.procs, c) == Owed(plan, s.procs, c)
      && EarnedBySucceeded(plan, t, c, |plan|) == EarnedBySucceeded(plan, s, c, |plan|)
  {
    var t := Next(plan, s, a);
    OwedOther(plan, s, a, c);
    forall x: nat | x < |plan|
      ensures t.bytes[x] == s.bytes[x] && (t.status[x] == Succeeded <==> s.status[x] == Succeeded)
    {
      OnlySucceedWrites(plan, s, a, x);
      BytesKept(plan, s, a, x);
      if s.status[x] == Succeeded {
        SucceededStays(plan, s, a, x);
      }
    }
    EarnedSame(plan, s, t, c, |plan|);
  }

  lemma {:induction false} BytesKept(plan: Plan, s: State, a: Action, x: nat)
    requires Sized(plan, s) && Enabled(plan, s, a) && !a.Succeed? && x < |plan|
    requires Sized(plan, Next(plan, s, a))
    ensures Next(plan, s, a).bytes[x] == s.bytes[x]
    ensures !a.Credit? ==> Next(plan, s, a).stats == s.stats
  {
    if Solo(a) {
      BytesKeptSolo(plan, s, a);
    } else {
      BytesKeptStart(plan, s, a);
    }
  }

  lemma {:induction false} BytesKeptSolo(plan: Plan, s: State, a: Action)
    requires Enabled(plan, s, a) && !a.Succeed? && Solo(a)
    ensures Next(plan, s, a).bytes == s.bytes
    ensures !a.Credit? ==> Next(plan, s, a).stats == s.stats
  {
  }

  lemma {:induction false} BytesKeptStart(plan: Plan, s: State, a: Action)
    requires Enabled(plan, s, a) && !Solo(a)
    ensures Next(plan, s, a).bytes == s.bytes && Next(plan, s, a).stats == s.stats
  {
  }

  lemma {:induction false} OwedOther(plan: Plan, s: State, a: Action, c: Counter)
    requires Enabled(plan, s, a) && !a.Succeed? && !a.Credit?
    ensures Owed(plan, Next(plan, s, a).procs, c) == Owed(plan, s.procs, c)
  {
    var t := Next(plan, s, a);
    if Solo(a) {
      SoloStep(plan, s, a);
      QuietSolo(plan, s, a);
      OwedUpdate(plan, s.procs, c, a.i, t.procs[a.i]);
    } else {
      StartingShape(plan, s, a);
      if a.Resolve? {
        OwedAppend(plan, s.procs, c, t.procs[|s.procs|]);
      } else {
        OwedUpdate(plan, s.procs, c, a.i, t.procs[a.i]);
        if |t.procs| > |s.procs| {
          OwedAppend(plan, s.procs[a.i := t.procs[a.i]], c, t.procs[|s.procs|]);
        }
      }
    }
  }

  lemma {:induction false} QuietSolo(plan: Plan, s: State, a: Action)
    requires Enabled(plan, s, a) && Solo(a) && !a.Succeed? && !a.Credit?
    ensures !s.procs[a.i].Crediting? && !Next(plan, s, a).procs[a.i].Crediting?
  {
  }

  lemma {:induction false} LedgerStep(plan: Plan, opening: Stats, s: State, a: Action)
    requires IsForest(plan) && Structure(plan, s) && Enabled(plan, s, a)
    requires Structure(plan, Next(plan, s, a)) && LedgerBalances(plan, opening, s)
    ensures LedgerBalances(plan, opening, Next(plan, s, a))
  {
    forall c
      ensures Next(plan, s, a).stats.Get(c) + Owed(plan, Next(plan, s, a).procs, c)
           == opening.Get(c) + EarnedBySucceeded(plan, Next(plan, s, a), c, |plan|)
    {
      if a.Succeed? {
        assert ProcOk(plan, s, s.procs[a.i]);
        LedgerSucceed(plan, s, a.i, a.bytes, a.upsert, c);
      } else if a.Credit? {
        LedgerCredit(plan, s, a.i, c);
      } else {
        LedgerOther(plan, s, a, c);
      }
    }
  }
}
