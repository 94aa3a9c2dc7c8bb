/** What holds over whole runs of an operation, from the state `executePlan` starts in. */
module EngineTheorems {
  import opened Engine
  import opened Options
  import opened EngineInvariant
  import opened EngineSafety
  import opened EngineTermination

  ghost predicate Good(plan: Plan, opening: Stats, s: State)
    requires IsForest(plan)
  {
    && Structure(plan, s)
    && NoneStranded(plan, s)
    && FinalisationDue(s)
    && Outcome(s)
    && FoldersMaterialised(plan, s)
    && LedgerBalances(plan, opening, s)
  }

  lemma {:induction false} GoodStep(plan: Plan, opening: Stats, s: State, a: Action)
    requires IsForest(plan) && Good(plan, opening, s) && Enabled(plan, s, a)
    ensures Good(plan, opening, Next(plan, s, a))
  {
    StructureStep(plan, s, a);
    StrandingStep(plan, s, a);
    FinalisationStep(plan, s, a);
    RowOfOperationStep(plan, s, a);
    OneVerdictStep(plan, s, a);
    MaterialisedStep(plan, s, a);
    LedgerStep(plan, opening, s, a);
  }

  lemma {:induction false} NothingEarned(plan: Plan, rows: map<nat, Row>, stats: Stats, c: Counter, n: nat)
    requires n <= |plan|
    ensures EarnedBySucceeded(plan, Init(plan, rows, stats), c, n) == 0
  {
    if n > 0 {
      NothingEarned(plan, rows, stats, c, n - 1);
    }
  }

  lemma {:induction false} GoodInit(plan: Plan, rows: map<nat, Row>, stats: Stats)
    requires IsForest(plan) && plan != []
    ensures Good(plan, stats, Init(plan, rows, stats))
  {
    var s := Init(plan, rows, stats);
    forall j: nat | j < |plan|
      ensures QueuedServed(plan, s, j)
    {
      if plan[j].parent == None {
        assert Serves(plan, s.procs[0], j);
      } else {
        assert ParentOf(plan, plan[j].parent.value, j);
      }
    }
    assert s.status[0] == Queued;
    NonePublishing(s.procs);
    forall c
      ensures s.stats.Get(c) + Owed(plan, s.procs, c) == stats.Get(c) + EarnedBySucceeded(plan, s, c, |plan|)
    {
      NothingOwed(plan, s.procs, c);
      NothingEarned(plan, rows, stats, c, |plan|);
    }
  }

  /** Invariance over runs, together with the bound on their length. */
  lemma {:induction false} GoodAlong(plan: Plan, opening: Stats, s: State, acts: seq<Action>)
    requires IsForest(plan) && Good(plan, opening, s) && IsRun(plan, s, acts)
    ensures Good(plan, opening, After(plan, s, acts))
    ensures Potential(After(plan, s, acts)) + |acts| <= Potential(s)
    decreases |acts|
  {
    if acts != [] {
      GoodStep(plan, opening, s, acts[0]);
      PotentialFalls(plan, s, acts[0]);
      GoodAlong(plan, opening, Next(plan, s, acts[0]), acts[1..]);
    }
  }

  /** A run of an operation: from the rows and counters found by executePlan, any interleaving. */
  ghost predicate Reaches(plan: Plan, rows: map<nat, Row>, opening: Stats, acts: seq<Action>, s: State) {
    IsRun(plan, Init(plan, rows, opening), acts) && s == After(plan, Init(plan, rows, opening), acts)
  }

  lemma {:induction false} ReachedIsGood(plan: Plan, rows: map<nat, Row>, opening: Stats, acts: seq<Action>, s: State)
    requires IsForest(plan) && plan != [] && Reaches(plan, rows, opening, acts, s)
    ensures Good(plan, opening, s)
  {
    GoodInit(plan, rows, opening);
    GoodAlong(plan, opening, Init(plan, rows, opening), acts);
  }

  /** Every interleaving is over after at most 46 actions a job. */
  lemma {:induction false} EveryRunIsBounded(plan: Plan, rows: map<nat, Row>, opening: Stats, acts: seq<Action>)
    requires IsForest(plan) && plan != [] && IsRun(plan, Init(plan, rows, opening), acts)
    ensures |acts| <= 46 * |plan| + 1
  {
    GoodInit(plan, rows, opening);
    GoodAlong(plan, opening, Init(plan, rows, opening), acts);
    InitialWeight(plan, rows, opening, |plan|);
    assert ProcsRank([Launching(Roots(plan, |plan|))]) == 1;
  }

  /** The action a process that is not done can always take. */
  function StepOf(s: State, i: nat): Action
    requires i < |s.procs|
  {
    match s.procs[i]
    case Waiting(_, _, _) => Claim(i)
    case Handling(_, _, _) => Throw(i)
    case Exhausted(_) => MarkFailed(i)
    case Crediting(_, _) => Credit(i)
    case Selecting(_) => SelectChildren(i)
    case Releasing(_, _) => ReleaseOne(i)
    case Cascading(_) => CascadeLevel(i)
    case Reading => ReadCounts(i)
    case Deciding(_) => WriteVerdict(i)
    case Publishing(_) => Publish(i)
    case Launching(todo) => if todo == [] then WriteRunning(i) else AddRoot(i)
    case Resolving(_) => EndResolve(i)
    case Readding(_, _) => Readd(i)
    case Done => EndResolve(i)
  }

  lemma {:induction false} ProcessCanStep(plan: Plan, s: State, i: nat)
    requires IsForest(plan) && Structure(plan, s) && i < |s.procs| && !s.procs[i].Done?
    ensures Enabled(plan, s, StepOf(s, i))
  {
    assert ProcOk(plan, s, s.procs[i]);
  }

  lemma {:induction false} QuiescentIsStuck(plan: Plan, s: State, a: Action)
    requires Quiescent(s)
    ensures !Enabled(plan, s, a)
  {
  }

  lemma {:induction false} CanGoOn(plan: Plan, s: State) returns (a: Action)
    requires IsForest(plan) && Structure(plan, s) && !Quiescent(s)
    ensures Enabled(plan, s, a)
  {
    if i: nat :| i < |s.procs| && !s.procs[i].Done? {
      ProcessCanStep(plan, s, i);
      a :| Enabled(plan, s, a);
    } else {
      var j: nat :| j < |s.status| && s.status[j] == AwaitingConflict;
      a := Resolve(j, Skip);
    }
  }

  /** A run can be continued until, and only until, it is quiescent: no deadlock. */
  lemma {:induction false} StuckExactlyWhenQuiescent(plan: Plan, rows: map<nat, Row>, opening: Stats,
                                                     acts: seq<Action>, s: State)
    requires IsForest(plan) && plan != [] && Reaches(plan, rows, opening, acts, s)
    ensures Quiescent(s) <==> forall a :: !Enabled(plan, s, a)
  {
    ReachedIsGood(plan, rows, opening, acts, s);
    if Quiescent(s) {
      forall a
        ensures !Enabled(plan, s, a)
      {
        QuiescentIsStuck(plan, s, a);
      }
    } else {
      var a := CanGoOn(plan, s);
    }
  }

  // ---------------------------------------------------------------------
  // No job is stranded.
  // ---------------------------------------------------------------------

  /** In every reachable state a queued job that no process is going to claim, release
      or skip hangs below a folder job that is itself still queued or running. */
  lemma {:induction false} NoJobIsStranded(plan: Plan, rows: map<nat, Row>, opening: Stats, acts: seq<Action>,
                                           s: State, j: nat)
    requires IsForest(plan) && plan != [] && Reaches(plan, rows, opening, acts, s)
    requires j < |plan| && j < |s.status| && s.status[j] == Queued
    ensures exists r: nat, i: nat :: r < |plan| && i < |s.procs| && Above(plan, r, j)
              && (Serves(plan, s.procs[i], r) || Runs(s.procs[i], r))
  {
    ReachedIsGood(plan, rows, opening, acts, s);
    var r, i := SomeoneIsAtWork(plan, s, j);
  }

  /** r is j or one of its ancestors. */
  ghost predicate Above(plan: Plan, r: nat, j: nat)
    requires IsForest(plan)
    decreases if j < |plan| then |plan[j].path| else 0
  {
    r == j || (j < |plan| && plan[j].parent.Some? && ParentOf(plan, plan[j].parent.value, j)
               && Above(plan, r, plan[j].parent.value))
  }

  lemma {:induction false} SomeoneIsAtWork(plan: Plan, s: State, j: nat) returns (r: nat, i: nat)
    requires IsForest(plan) && Structure(plan, s) && NoneStranded(plan, s)
    requires j < |plan| && (s.status[j] == Queued || s.status[j] == Running)
    ensures r < |plan| && i < |s.procs| && Above(plan, r, j)
    ensures Serves(plan, s.procs[i], r) || Runs(s.procs[i], r)
    decreases |plan[j].path|
  {
    assert RunningHeld(s, j) && QueuedServed(plan, s, j);
    if s.status[j] == Running {
      r, i :| r == j && i < |s.procs| && Runs(s.procs[i], j);
    } else if exists k :: 0 <= k < |s.procs| && Serves(plan, s.procs[k], j) {
      r, i :| r == j && i < |s.procs| && Serves(plan, s.procs[i], j);
    } else {
      var p: nat :| ParentOf(plan, p, j) && (s.status[p] == Queued || s.status[p] == Running);
      r, i := SomeoneIsAtWork(plan, s, p);
    }
  }

  lemma {:induction false} DoneServesNobody(plan: Plan, p: Process, j: nat)
    requires j < |plan| && p.Done?
    ensures !Serves(plan, p, j) && !Runs(p, j)
  {
  }

  lemma {:induction false} QuiescentIsTerminal(plan: Plan, s: State)
    requires IsForest(plan) && Structure(plan, s) && NoneStranded(plan, s) && Quiescent(s)
    ensures AllTerminal(s.status)
  {
    forall j | 0 <= j < |s.status|
      ensures !Pending(s.status[j])
    {
      if s.status[j] == Queued || s.status[j] == Running {
        var r, i := SomeoneIsAtWork(plan, s, j);
        DoneServesNobody(plan, s.procs[i], r);
        assert false;
      }
    }
  }

  // ---------------------------------------------------------------------
  // Finalisation.
  // ---------------------------------------------------------------------

  /** In every reachable state all racers past the count agree, and agree with every verdict
      published so far; source deletes follow published successes, one each, and a
      success means that no job failed or is pending. */
  lemma {:induction false} RacersAgree(plan: Plan, rows: map<nat, Row>, opening: Stats, acts: seq<Action>, s: State)
    requires IsForest(plan) && plan != [] && Reaches(plan, rows, opening, acts, s)
    ensures forall i :: 0 <= i < |s.procs| && (s.procs[i].Deciding? || s.procs[i].Publishing?) ==>
      s.procs[i].verdict == VerdictOf(s.status) && AllTerminal(s.status)
    ensures forall k :: 0 <= k < |s.published| ==> s.published[k] == VerdictOf(s.status)
    ensures s.op.Final? ==> s.op.verdict == VerdictOf(s.status) && AllTerminal(s.status)
    ensures |s.published| <= s.wins <= if s.late then 2 else 1
    ensures s.sourceDeletes <= s.wins
    ensures s.sourceDeletes > 0 ==>
      forall j :: 0 <= j < |s.status| ==> s.status[j] == Succeeded || s.status[j] == Skipped
  {
    ReachedIsGood(plan, rows, opening, acts, s);
    forall i | 0 <= i < |s.procs| && (s.procs[i].Deciding? || s.procs[i].Publishing?)
      ensures s.procs[i].verdict == VerdictOf(s.status) && AllTerminal(s.status)
    {
      assert ProcOk(plan, s, s.procs[i]);
    }
    if s.sourceDeletes > 0 {
      assert VerdictOf(s.status) == AllSucceeded;
      forall j | 0 <= j < |s.status|
        ensures s.status[j] == Succeeded || s.status[j] == Skipped
      {
        assert s.status[j] in s.status;
      }
    }
  }

  /** No finalisation is lost while jobs are all terminal: someone won, or will read the counts. */
  lemma {:induction false} FinalisationIsComing(plan: Plan, rows: map<nat, Row>, opening: Stats, acts: seq<Action>,
                                                s: State)
    requires IsForest(plan) && plan != [] && Reaches(plan, rows, opening, acts, s)
    requires forall j :: 0 <= j < |s.status| ==> !Pending(s.status[j])
    ensures s.wins > 0 || exists i :: 0 <= i < |s.procs| && WillFinalize(s.procs[i])
  {
    ReachedIsGood(plan, rows, opening, acts, s);
  }

  /** How every complete run ends. The unguarded `running` write of executePlan is the one
      thing that can spoil it: the operation ends final with its verdict published exactly
      once if and only if that write did not find the operation final already. */
  lemma {:induction false} EveryCompleteRun(plan: Plan, rows: map<nat, Row>, opening: Stats, acts: seq<Action>,
                                            s: State)
    requires IsForest(plan) && plan != [] && Reaches(plan, rows, opening, acts, s) && Quiescent(s)
    ensures forall j :: 0 <= j < |s.status| ==>
      s.status[j] == Succeeded || s.status[j] == Failed || s.status[j] == Skipped
    ensures |s.published| >= 1
    ensures (s.op.Final? && |s.published| == 1) <==> !s.late
    ensures s.op.Final? ==>
      s.op.verdict == if exists j :: 0 <= j < |s.status| && s.status[j] == Failed then SomeFailed else AllSucceeded
  {
    ReachedIsGood(plan, rows, opening, acts, s);
    QuiescentIsTerminal(plan, s);
    NonePublishing(s.procs);
    forall j: nat | j < |s.status|
      ensures s.status[j] == Succeeded || s.status[j] == Failed || s.status[j] == Skipped
    {
      assert RowOk(plan, s, j);
    }
    assert !FinaliserLeft(s);
    assert s.wins == |s.published| > 0;
    assert s.launched;
  }

  /** The `running` write finds the operation final exactly when some finaliser won before it. */
  lemma {:induction false} LateMeansAWinCameFirst(plan: Plan, rows: map<nat, Row>, opening: Stats, acts: seq<Action>,
                                                  s: State, i: nat)
    requires IsForest(plan) && plan != [] && Reaches(plan, rows, opening, acts, s)
    requires Enabled(plan, s, WriteRunning(i))
    ensures Next(plan, s, WriteRunning(i)).late <==> s.wins == 1
    ensures s.wins <= 1
  {
    ReachedIsGood(plan, rows, opening, acts, s);
    assert i == 0;
  }

  // ---------------------------------------------------------------------
  // Rows that are over stay over.
  // ---------------------------------------------------------------------

  lemma {:induction false} OverIsOver(plan: Plan, opening: Stats, s: State, acts: seq<Action>, j: nat)
    requires IsForest(plan) && Good(plan, opening, s) && IsRun(plan, s, acts)
    requires j < |plan| && !Pending(s.status[j])
    ensures j < |After(plan, s, acts).status|
    ensures After(plan, s, acts).status[j] == s.status[j]
    decreases |acts|
  {
    if acts != [] {
      GoodStep(plan, opening, s, acts[0]);
      OverIsOverStep(plan, s, acts[0], j);
      OverIsOver(plan, opening, Next(plan, s, acts[0]), acts[1..], j);
    }
  }

  lemma {:induction false} OverIsOverStep(plan: Plan, s: State, a: Action, j: nat)
    requires IsForest(plan) && Structure(plan, s) && Enabled(plan, s, a)
    requires Sized(plan, Next(plan, s, a)) && j < |plan| && !Pending(s.status[j])
    ensures Next(plan, s, a).status[j] == s.status[j]
  {
    RowsKeptByAction(plan, s, a, j);
    assert RowOk(plan, s, j);
    if !a.Resolve? && !a.ResolveMore? {
      assert ProcOk(plan, s, s.procs[a.i]);
    }
  }

  /** A delivery of a job that a cascade skipped is dropped when it is claimed. */
  lemma {:induction false} SkippedNeverRuns(plan: Plan, rows: map<nat, Row>, opening: Stats, acts: seq<Action>,
                                            s: State, i: nat)
    requires IsForest(plan) && plan != [] && Reaches(plan, rows, opening, acts, s)
    requires Enabled(plan, s, Claim(i)) && s.status[s.procs[i].job] == Skipped
    ensures Next(plan, s, Claim(i)) == s.(procs := s.procs[i := Done])
    ensures forall later :: IsRun(plan, s, later) ==>
      var t := After(plan, s, later);
      |t.status| == |plan| && t.status[s.procs[i].job] == Skipped
  {
    ReachedIsGood(plan, rows, opening, acts, s);
    forall later | IsRun(plan, s, later)
      ensures var t := After(plan, s, later);
              |t.status| == |plan| && t.status[s.procs[i].job] == Skipped
    {
      GoodAlong(plan, opening, s, later);
      OverIsOver(plan, opening, s, later, s.procs[i].job);
    }
  }

  // ---------------------------------------------------------------------
  // Folder before content.
  // ---------------------------------------------------------------------

  /** When a job below a planned folder starts to run, the folder job has succeeded and the
      nodes table has a live folder row at the parent path of the job's destination. */
  lemma {:induction false} FolderBeforeContent(plan: Plan, rows: map<nat, Row>, opening: Stats, acts: seq<Action>,
                                               s: State, i: nat)
    requires IsForest(plan) && plan != [] && Reaches(plan, rows, opening, acts, s)
    requires Enabled(plan, s, Claim(i)) && plan[s.procs[i].job].parent.Some?
    ensures var p := plan[s.procs[i].job].parent.value;
      && p < |plan| && s.status[p] == Succeeded
      && HasFolderRow(s.rows, Paths.ParentPath(plan[s.procs[i].job].path))
  {
    ReachedIsGood(plan, rows, opening, acts, s);
    assert ProcOk(plan, s, s.procs[i]);
    var j := s.procs[i].job;
    var p := plan[j].parent.value;
    assert ParentOf(plan, p, j);
    assert Released(s, p);
  }

  // ---------------------------------------------------------------------
  // The ledger.
  // ---------------------------------------------------------------------

  /** The succeeded ones of the first n jobs that are of these kinds and moved bytes. */
  function Moved(plan: Plan, s: State, kinds: set<Kind>, n: nat): set<nat>
    requires n <= |plan| && |s.status| == |s.bytes| == |plan|
  {
    set j: nat | j < n && s.status[j] == Succeeded && plan[j].kind in kinds && s.bytes[j] > 0
  }

  /** The bytes that the succeeded ones of the first n jobs that are of these kinds moved. */
  function BytesMoved(plan: Plan, s: State, kinds: set<Kind>, n: nat): nat
    requires n <= |plan| && |s.status| == |s.bytes| == |plan|
  {
    if n == 0 then 0
    else if s.status[n - 1] == Succeeded && plan[n - 1].kind in kinds then
      BytesMoved(plan, s, kinds, n - 1) + s.bytes[n - 1]
    else BytesMoved(plan, s, kinds, n - 1)
  }

  lemma {:induction false} EarnedIsMoved(plan: Plan, s: State, n: nat)
    requires n <= |plan| && |s.status| == |s.bytes| == |plan|
    ensures EarnedBySucceeded(plan, s, BytesUploaded, n) == BytesMoved(plan, s, {Upload}, n)
    ensures EarnedBySucceeded(plan, s, BytesTransferred, n) == BytesMoved(plan, s, {Copy, Transfer, Move}, n)
    ensures EarnedBySucceeded(plan, s, FilesUploaded, n) == |Moved(plan, s, {Upload}, n)|
    ensures EarnedBySucceeded(plan, s, FilesTransferred, n) == |Moved(plan, s, {Copy, Transfer, Move}, n)|
  {
    if n > 0 {
      EarnedIsMoved(plan, s, n - 1);
      OneMoreMoved(plan, s, {Upload}, n - 1);
      OneMoreMoved(plan, s, {Copy, Transfer, Move}, n - 1);
    } else {
      assert Moved(plan, s, {Upload}, 0) == {} && Moved(plan, s, {Copy, Transfer, Move}, 0) == {};
    }
  }

  lemma {:induction false} OneMoreMoved(plan: Plan, s: State, kinds: set<Kind>, n: nat)
    requires n < |plan| && |s.status| == |s.bytes| == |plan|
    ensures |Moved(plan, s, kinds, n + 1)| == |Moved(plan, s, kinds, n)|
      + if s.status[n] == Succeeded && plan[n].kind in kinds && s.bytes[n] > 0 then 1 else 0
  {
    if s.status[n] == Succeeded && plan[n].kind in kinds && s.bytes[n] > 0 {
      assert Moved(plan, s, kinds, n + 1) == Moved(plan, s, kinds, n) + {n};
    } else {
      assert Moved(plan, s, kinds, n + 1) == Moved(plan, s, kinds, n);
    }
  }

  lemma {:induction false} Credited(plan: Plan, opening: Stats, s: State, c: Counter)
    requires |s.status| == |s.bytes| == |plan| && LedgerBalances(plan, opening, s) && Quiescent(s)
    ensures s.stats.Get(c) == opening.Get(c) + EarnedBySucceeded(plan, s, c, |plan|)
  {
    NothingOwed(plan, s.procs, c);
  }

  /** At the end of a run the uploaded counters of transfer_stats have grown by the bytes and the
      number of the succeeded uploads, and the transferred ones by those of the succeeded
      copies, transfers and moves. */
  lemma {:induction false} LedgerAtTheEnd(plan: Plan, rows: map<nat, Row>, opening: Stats, acts: seq<Action>,
                                          s: State)
    requires IsForest(plan) && plan != [] && Reaches(plan, rows, opening, acts, s) && Quiescent(s)
    ensures |s.status| == |s.bytes| == |plan|
    ensures s.stats.bytesUploaded == opening.bytesUploaded + BytesMoved(plan, s, {Upload}, |plan|)
    ensures s.stats.filesUploaded == opening.filesUploaded + |Moved(plan, s, {Upload}, |plan|)|
    ensures s.stats.bytesTransferred ==
      opening.bytesTransferred + BytesMoved(plan, s, {Copy, Transfer, Move}, |plan|)
    ensures s.stats.filesTransferred == opening.filesTransferred + |Moved(plan, s, {Copy, Transfer, Move}, |plan|)|
  {
    ReachedIsGood(plan, rows, opening, acts, s);
    EarnedIsMoved(plan, s, |plan|);
    Credited(plan, opening, s, BytesUploaded);
    Credited(plan, opening, s, FilesUploaded);
    Credited(plan, opening, s, BytesTransferred);
    Credited(plan, opening, s, FilesTransferred);
  }
}
