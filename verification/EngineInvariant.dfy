/** What every interleaving keeps. */
module EngineInvariant {
  import opened Engine
  import opened Options

  /** The job a process is attached to: the delivery, its bookkeeping, or a pending re-add. */
  function JobOf(p: Process): Option<nat> {
    match p
    case Waiting(j, _, _) => Some(j)
    case Handling(j, _, _) => Some(j)
    case Exhausted(j) => Some(j)
    case Crediting(j, _) => Some(j)
    case Selecting(j) => Some(j)
    case Releasing(j, _) => Some(j)
    case Readding(j, _) => Some(j)
    case _ => None
  }

  /** The process that will move a running job on. */
  predicate Runs(p: Process, j: nat) {
    || (p.Waiting? && p.job == j && p.attempt > 0)
    || (p.Handling? && p.job == j)
    || (p.Exhausted? && p.job == j)
  }

  /** A process that will claim, release or skip the queued job. */
  predicate Serves(plan: Plan, p: Process, j: nat)
    requires j < |plan|
  {
    match p
    case Waiting(k, _, _) => k == j
    case Readding(k, _) => k == j
    case Launching(todo) => j in todo
    case Crediting(k, _) => plan[j].parent == Some(k)
    case Selecting(k) => plan[j].parent == Some(k)
    case Releasing(_, todo) => j in todo
    case Cascading(frontier) => plan[j].parent.Some? && plan[j].parent.value in frontier
    case _ => false
  }

  /** A process that has yet to read the counts, or has read pending == 0. */
  predicate WillFinalize(p: Process) {
    p.Crediting? || p.Selecting? || p.Releasing? || p.Cascading? || p.Reading? || p.Deciding?
    || p.Resolving? || p.Readding?
  }

  predicate Distinct(todo: seq<nat>) {
    forall k, l :: 0 <= k < l < |todo| ==> todo[k] != todo[l]
  }

  ghost predicate Sized(plan: Plan, s: State) {
    && |s.status| == |plan| && |s.bytes| == |plan|
    && |s.procs| > 0
    && (forall i :: 0 < i < |s.procs| ==> !s.procs[i].Launching?)
  }

  /** Where a process stands agrees with the row of its job. */
  ghost predicate ProcOk(plan: Plan, s: State, p: Process)
    requires |s.status| == |plan| && |s.bytes| == |plan|
  {
    match p
    case Waiting(j, a, d) =>
      && j < |plan| && j in s.keys && a < MAX_ATTEMPTS && (d.Some? <==> j in s.decided)
      && (if a == 0 then s.status[j] == Queued || s.status[j] == Skipped else s.status[j] == Running)
    case Handling(j, a, d) =>
      j < |plan| && j in s.keys && a < MAX_ATTEMPTS && (d.Some? <==> j in s.decided) && s.status[j] == Running
    case Exhausted(j) => j < |plan| && j in s.keys && s.status[j] == Running
    case Crediting(j, b) => j < |plan| && j in s.keys && s.status[j] == Succeeded && s.bytes[j] == b
    case Selecting(j) => IsFolder(plan, j) && j in s.keys && s.status[j] == Succeeded
    case Releasing(j, todo) =>
      && IsFolder(plan, j) && j in s.keys && s.status[j] == Succeeded && Distinct(todo)
      && (forall k :: 0 <= k < |todo| ==> ParentOf(plan, j, todo[k]) && todo[k] !in s.keys)
    case Cascading(frontier) => forall x :: x in frontier ==> x < |plan|
    case Reading => true
    case Deciding(v) => AllTerminal(s.status) && v == VerdictOf(s.status)
    case Publishing(v) => AllTerminal(s.status) && v == VerdictOf(s.status)
    case Launching(todo) =>
      && Distinct(todo)
      && (forall k :: 0 <= k < |todo| ==> todo[k] < |plan| && plan[todo[k]].parent == None && todo[k] !in s.keys)
    case Resolving(_) => true
    case Readding(j, d) =>
      && j < |plan| && j in s.keys && j in s.decided && d != Skip
      && (s.status[j] == Queued || s.status[j] == Skipped)
    case Done => true
  }

  /** BullMQ gives a job to one worker at a time, and no second delivery of it is alive. */
  ghost predicate OneProcessPerJob(procs: seq<Process>) {
    forall i, k :: 0 <= i < |procs| && 0 <= k < |procs| && i != k && JobOf(procs[i]).Some? ==>
      JobOf(procs[i]) != JobOf(procs[k])
  }

  ghost predicate Untouched(s: State, j: nat)
    requires j < |s.status|
  {
    && (s.status[j] == Queued || s.status[j] == Skipped)
    && j !in s.decided
  }

  /** The row of a job agrees with what BullMQ knows of it. */
  ghost predicate RowOk(plan: Plan, s: State, j: nat)
    requires |s.status| == |plan| && j < |plan|
  {
    && s.status[j] != Cancelled
    && (s.status[j] == AwaitingConflict ==> j in s.keys && j !in s.decided && CanPause(plan[j].kind))
    && (j !in s.keys ==> Untouched(s, j))
  }

  /** A job is delivered only after its folder succeeded and began to release. */
  ghost predicate Released(s: State, p: nat)
    requires p < |s.status|
  {
    && s.status[p] == Succeeded
    && (forall i :: 0 <= i < |s.procs| && JobOf(s.procs[i]) == Some(p) ==> s.procs[i].Releasing?)
  }

  ghost predicate FolderFirst(plan: Plan, s: State)
    requires |s.status| == |plan| && IsForest(plan)
  {
    forall p: nat, j: nat :: ParentOf(plan, p, j) && j in s.keys ==> Released(s, p)
  }

  ghost predicate RunningHeld(s: State, j: nat)
    requires j < |s.status|
  {
    s.status[j] == Running ==> exists i :: 0 <= i < |s.procs| && Runs(s.procs[i], j)
  }

  ghost predicate QueuedServed(plan: Plan, s: State, j: nat)
    requires |s.status| == |plan| && j < |plan| && IsForest(plan)
  {
    s.status[j] == Queued ==>
      || (exists i :: 0 <= i < |s.procs| && Serves(plan, s.procs[i], j))
      || (exists p: nat :: ParentOf(plan, p, j) && (s.status[p] == Queued || s.status[p] == Running))
  }

  ghost predicate Structure(plan: Plan, s: State)
    requires IsForest(plan)
  {
    && Sized(plan, s)
    && (forall i :: 0 <= i < |s.procs| ==> ProcOk(plan, s, s.procs[i]))
    && OneProcessPerJob(s.procs)
    && (forall j: nat :: j < |plan| ==> RowOk(plan, s, j))
    && FolderFirst(plan, s)
  }

  ghost predicate NoneStranded(plan: Plan, s: State)
    requires IsForest(plan) && |s.status| == |plan|
  {
    forall j: nat :: j < |plan| ==> RunningHeld(s, j) && QueuedServed(plan, s, j)
  }

  // ---------------------------------------------------------------------
  // Structure.
  // ---------------------------------------------------------------------

  lemma {:induction false} SizedStep(plan: Plan, s: State, a: Action)
    requires Sized(plan, s) && Enabled(plan, s, a)
    ensures Sized(plan, Next(plan, s, a))
  {
    if Solo(a) {
      SizedSolo(plan, s, a);
    } else {
      SizedStart(plan, s, a);
    }
  }

  lemma {:induction false} SizedSolo(plan: Plan, s: State, a: Action)
    requires Sized(plan, s) && Enabled(plan, s, a) && Solo(a)
    ensures Sized(plan, Next(plan, s, a))
  {
  }

  lemma {:induction false} SizedStart(plan: Plan, s: State, a: Action)
    requires Sized(plan, s) && Enabled(plan, s, a) && !Solo(a)
    ensures Sized(plan, Next(plan, s, a))
  {
    if a.AddRoot? || a.ReleaseOne? {
      SizedAdd(plan, s, a);
    } else {
      SizedResolve(plan, s, a);
    }
  }

  lemma {:induction false} SizedAdd(plan: Plan, s: State, a: Action)
    requires Sized(plan, s) && Enabled(plan, s, a) && (a.AddRoot? || a.ReleaseOne?)
    ensures Sized(plan, Next(plan, s, a))
  {
  }

  lemma {:induction false} SizedResolve(plan: Plan, s: State, a: Action)
    requires Sized(plan, s) && Enabled(plan, s, a) && (a.Resolve? || a.ResolveMore? || a.Readd?)
    ensures Sized(plan, Next(plan, s, a))
  {
  }

  lemma {:induction false} RowStep(plan: Plan, s: State, a: Action, j: nat)
    requires IsForest(plan) && Structure(plan, s) && Enabled(plan, s, a) && j < |plan|
    requires Sized(plan, Next(plan, s, a))
    ensures RowOk(plan, Next(plan, s, a), j)
  {
    assert RowOk(plan, s, j);
    if Solo(a) {
      assert ProcOk(plan, s, s.procs[a.i]);
      RowStepSolo(plan, s, a, j);
    } else {
      if a.Resolve? || a.ResolveMore? {
        assert RowOk(plan, s, a.j);
      }
      RowStepStart(plan, s, a, j);
    }
  }

  lemma {:induction false} RowStepSolo(plan: Plan, s: State, a: Action, j: nat)
    requires Sized(plan, s) && Enabled(plan, s, a) && j < |plan| && Solo(a)
    requires RowOk(plan, s, j) && ProcOk(plan, s, s.procs[a.i])
    requires Sized(plan, Next(plan, s, a))
    ensures RowOk(plan, Next(plan, s, a), j)
  {
  }

  lemma {:induction false} RowStepStart(plan: Plan, s: State, a: Action, j: nat)
    requires Sized(plan, s) && Enabled(plan, s, a) && j < |plan| && !Solo(a)
    requires RowOk(plan, s, j) && (a.Resolve? || a.ResolveMore? ==> RowOk(plan, s, a.j))
    requires Sized(plan, Next(plan, s, a))
    ensures RowOk(plan, Next(plan, s, a), j)
  {
    if a.AddRoot? || a.ReleaseOne? {
      RowStepAdd(plan, s, a, j);
    } else {
      RowStepResolve(plan, s, a, j);
    }
  }

  lemma {:induction false} RowStepResolve(plan: Plan, s: State, a: Action, j: nat)
    requires Sized(plan, s) && Enabled(plan, s, a) && j < |plan| && (a.Resolve? || a.ResolveMore? || a.Readd?)
    requires RowOk(plan, s, j) && (!a.Readd? ==> RowOk(plan, s, a.j))
    requires Sized(plan, Next(plan, s, a))
    ensures RowOk(plan, Next(plan, s, a), j)
  {
    if a.Resolve? {
      RowDecided(plan, s, a.j, a.d, j);
    } else if a.ResolveMore? {
      RowDecided(plan, s, a.j, s.procs[a.i].choice, j);
    } else {
      RowStepReadd(plan, s, a.i, j);
    }
  }

  lemma {:induction false} RowDecided(plan: Plan, s: State, x: nat, d: Decision, j: nat)
    requires Sized(plan, s) && x < |plan| && j < |plan| && s.status[x] == AwaitingConflict
    requires RowOk(plan, s, x) && RowOk(plan, s, j)
    ensures |AfterResolving(s, x, d).0.status| == |plan| && RowOk(plan, AfterResolving(s, x, d).0, j)
  {
  }

  lemma {:induction false} RowStepReadd(plan: Plan, s: State, i: nat, j: nat)
    requires Sized(plan, s) && Enabled(plan, s, Readd(i)) && j < |plan| && RowOk(plan, s, j)
    ensures Sized(plan, Next(plan, s, Readd(i))) && RowOk(plan, Next(plan, s, Readd(i)), j)
  {
  }

  lemma {:induction false} RowStepAdd(plan: Plan, s: State, a: Action, j: nat)
    requires Sized(plan, s) && Enabled(plan, s, a) && j < |plan| && (a.AddRoot? || a.ReleaseOne?)
    requires RowOk(plan, s, j)
    ensures Sized(plan, Next(plan, s, a)) && RowOk(plan, Next(plan, s, a), j)
  {
  }

  lemma {:induction false} UniqueReplace(procs: seq<Process>, i: nat, p: Process)
    requires OneProcessPerJob(procs) && i < |procs|
    requires JobOf(p) == None || JobOf(p) == JobOf(procs[i])
    ensures OneProcessPerJob(procs[i := p])
  {
  }

  lemma {:induction false} UniqueAppend(procs: seq<Process>, p: Process)
    requires OneProcessPerJob(procs)
    requires JobOf(p).Some? ==> forall k :: 0 <= k < |procs| ==> JobOf(procs[k]) != JobOf(p)
    ensures OneProcessPerJob(procs + [p])
  {
  }

  /** A job that no process may be attached to: BullMQ has never seen it, or it is paused. */
  lemma {:induction false} NobodyHas(plan: Plan, s: State, j: nat)
    requires IsForest(plan) && Structure(plan, s) && j < |plan|
    requires j !in s.keys || s.status[j] == AwaitingConflict
    ensures forall k :: 0 <= k < |s.procs| ==> JobOf(s.procs[k]) != Some(j)
  {
    forall k | 0 <= k < |s.procs|
      ensures JobOf(s.procs[k]) != Some(j)
    {
      assert ProcOk(plan, s, s.procs[k]);
    }
  }

  lemma {:induction false} UniqueAdd(plan: Plan, s: State, i: nat, p: Process, j: nat)
    requires IsForest(plan) && Structure(plan, s) && i < |s.procs| && j < |plan|
    requires JobOf(p) == JobOf(s.procs[i])
    ensures OneProcessPerJob(Add(Become(s, i, p), j).procs)
  {
    UniqueReplace(s.procs, i, p);
    if j !in s.keys {
      NobodyHas(plan, s, j);
      UniqueAppend(s.procs[i := p], Waiting(j, 0, None));
    }
  }

  lemma {:induction false} UniqueStep(plan: Plan, s: State, a: Action)
    requires IsForest(plan) && Structure(plan, s) && Enabled(plan, s, a)
    ensures OneProcessPerJob(Next(plan, s, a).procs)
  {
    if Solo(a) {
      SoloStep(plan, s, a);
      UniqueReplace(s.procs, a.i, Next(plan, s, a).procs[a.i]);
    } else {
      match a {
        case AddRoot(i) => UniqueAddRoot(plan, s, i);
        case ReleaseOne(i) => UniqueRelease(plan, s, i);
        case Resolve(j, d) => UniqueResolve(plan, s, j, d);
        case ResolveMore(i, j) => UniqueResolveMore(plan, s, i, j);
        case Readd(i) => UniqueReadd(s.procs, i);
      }
    }
  }

  lemma {:induction false} UniqueResolve(plan: Plan, s: State, j: nat, d: Decision)
    requires IsForest(plan) && Structure(plan, s) && Enabled(plan, s, Resolve(j, d))
    ensures OneProcessPerJob(Next(plan, s, Resolve(j, d)).procs)
  {
    NobodyHas(plan, s, j);
    UniqueAppend(s.procs, AfterResolving(s, j, d).1);
  }

  lemma {:induction false} UniqueResolveMore(plan: Plan, s: State, i: nat, j: nat)
    requires IsForest(plan) && Structure(plan, s) && Enabled(plan, s, ResolveMore(i, j))
    ensures OneProcessPerJob(Next(plan, s, ResolveMore(i, j)).procs)
  {
    NobodyHas(plan, s, j);
  }

  lemma {:induction false} UniqueReadd(procs: seq<Process>, i: nat)
    requires OneProcessPerJob(procs) && i < |procs| && procs[i].Readding?
    ensures OneProcessPerJob(procs[i := Resolving(procs[i].choice)] + [Waiting(procs[i].job, 0, Some(procs[i].choice))])
  {
    UniqueReplace(procs, i, Resolving(procs[i].choice));
    UniqueAppend(procs[i := Resolving(procs[i].choice)], Waiting(procs[i].job, 0, Some(procs[i].choice)));
  }

  lemma {:induction false} UniqueRelease(plan: Plan, s: State, i: nat)
    requires IsForest(plan) && Structure(plan, s) && Enabled(plan, s, ReleaseOne(i))
    ensures OneProcessPerJob(Next(plan, s, ReleaseOne(i)).procs)
  {
    assert ProcOk(plan, s, s.procs[i]);
    if s.procs[i].todo != [] {
      UniqueAdd(plan, s, i, Releasing(s.procs[i].job, s.procs[i].todo[1..]), s.procs[i].todo[0]);
    } else {
      UniqueReplace(s.procs, i, Reading);
    }
  }

  lemma {:induction false} UniqueAddRoot(plan: Plan, s: State, i: nat)
    requires IsForest(plan) && Structure(plan, s) && Enabled(plan, s, AddRoot(i))
    ensures OneProcessPerJob(Next(plan, s, AddRoot(i)).procs)
  {
    assert ProcOk(plan, s, s.procs[i]);
    UniqueAdd(plan, s, i, Launching(s.procs[i].todo[1..]), s.procs[i].todo[0]);
  }

  /** Actions that move one process and start none. */
  predicate Solo(a: Action) {
    !a.AddRoot? && !a.ReleaseOne? && !a.Resolve? && !a.ResolveMore? && !a.Readd?
  }

  lemma {:induction false} SoloStep(plan: Plan, s: State, a: Action)
    requires Enabled(plan, s, a) && Solo(a)
    ensures At(s, a.i)
    ensures var t := Next(plan, s, a);
            |t.procs| == |s.procs| && t.procs == s.procs[a.i := t.procs[a.i]]
    ensures JobOf(Next(plan, s, a).procs[a.i]) == None || JobOf(Next(plan, s, a).procs[a.i]) == JobOf(s.procs[a.i])
    ensures Next(plan, s, a).keys == s.keys && Next(plan, s, a).decided == s.decided
  {
  }

  /** Once every job is terminal, no action touches a status again. */
  lemma {:induction false} TerminalStays(plan: Plan, s: State, a: Action)
    requires IsForest(plan) && Structure(plan, s) && Enabled(plan, s, a)
    requires AllTerminal(s.status)
    ensures Next(plan, s, a).status == s.status
  {
    if a.CascadeLevel? {
      assert SkippedBy(plan, s.status, s.procs[a.i].frontier) == {};
    } else if OfDelivery(a) || a.Claim? {
      assert ProcOk(plan, s, s.procs[a.i]);
    }
  }

  ghost predicate RowKept(s: State, t: State, x: nat)
    requires |s.status| == |t.status| == |s.bytes| == |t.bytes| && x < |s.status|
  {
    && (t.status[x] == s.status[x] || (s.status[x] == Queued && t.status[x] == Skipped))
    && t.bytes[x] == s.bytes[x]
    && (x in t.decided <==> x in s.decided)
  }

  function TodoOf(p: Process): seq<nat> {
    if p.Releasing? || p.Launching? then p.todo else []
  }

  /** A process is undisturbed when the row of its job and its todo list are. */
  lemma {:induction false} ProcFrame(plan: Plan, s: State, t: State, p: Process)
    requires Sized(plan, s) && Sized(plan, t) && ProcOk(plan, s, p)
    requires AllTerminal(s.status) ==> t.status == s.status
    requires s.keys <= t.keys
    requires JobOf(p).Some? && JobOf(p).value < |plan| ==> RowKept(s, t, JobOf(p).value)
    requires forall k :: 0 <= k < |TodoOf(p)| ==> TodoOf(p)[k] !in t.keys
    ensures ProcOk(plan, t, p)
  {
    match p {
      case Releasing(j, todo) => assert TodoOf(p) == todo;
      case Launching(todo) => assert TodoOf(p) == todo;
      case _ =>
    }
  }

  lemma {:induction false} OthersKeep(plan: Plan, s: State, t: State, i: int)
    requires IsForest(plan) && Structure(plan, s) && Sized(plan, t)
    requires AllTerminal(s.status) ==> t.status == s.status
    requires s.keys <= t.keys
    requires forall x: nat :: x < |plan| ==>
      || RowKept(s, t, x)
      || (forall k :: 0 <= k < |s.procs| && k != i ==> JobOf(s.procs[k]) != Some(x))
    requires forall k, x :: 0 <= k < |s.procs| && k != i && x in TodoOf(s.procs[k]) ==> x !in t.keys
    ensures forall k :: 0 <= k < |s.procs| && k != i ==> ProcOk(plan, t, s.procs[k])
  {
    forall k | 0 <= k < |s.procs| && k != i
      ensures ProcOk(plan, t, s.procs[k])
    {
      var p := s.procs[k];
      assert ProcOk(plan, s, p);
      assert forall l :: 0 <= l < |TodoOf(p)| ==> TodoOf(p)[l] in TodoOf(p);
      if JobOf(p).Some? && JobOf(p).value < |plan| {
        assert RowKept(s, t, JobOf(p).value);
      }
      ProcFrame(plan, s, t, p);
    }
  }

  // What one action does to the rows, the keys and the acting process.

  /** Only the job of the acting process, the resolved job, and skipped jobs change. */
  lemma {:induction false} RowsKeptByAction(plan: Plan, s: State, a: Action, x: nat)
    requires IsForest(plan) && Structure(plan, s) && Enabled(plan, s, a) && x < |plan|
    requires Sized(plan, Next(plan, s, a))
    ensures var t := Next(plan, s, a);
      || RowKept(s, t, x)
      || ((a.Resolve? || a.ResolveMore?) && a.j == x)
      || (!a.Resolve? && !a.ResolveMore? && JobOf(s.procs[a.i]) == Some(x))
  {
    if Solo(a) {
      RowsKeptSolo(plan, s, a, x);
    } else {
      RowsKeptStart(plan, s, a, x);
    }
  }

  lemma {:induction false} RowsKeptSolo(plan: Plan, s: State, a: Action, x: nat)
    requires Sized(plan, s) && Enabled(plan, s, a) && x < |plan| && Solo(a)
    requires Sized(plan, Next(plan, s, a))
    ensures RowKept(s, Next(plan, s, a), x) || JobOf(s.procs[a.i]) == Some(x)
  {
  }

  lemma {:induction false} RowsKeptStart(plan: Plan, s: State, a: Action, x: nat)
    requires Sized(plan, s) && Enabled(plan, s, a) && x < |plan| && !Solo(a)
    requires Sized(plan, Next(plan, s, a))
    ensures RowKept(s, Next(plan, s, a), x) || ((a.Resolve? || a.ResolveMore?) && a.j == x)
  {
  }

  function Actor(s: State, a: Action): int {
    if a.Resolve? then |s.procs| else a.i
  }

  lemma {:induction false} KeysOfAction(plan: Plan, s: State, a: Action)
    requires IsForest(plan) && Structure(plan, s) && Enabled(plan, s, a)
    ensures s.keys <= Next(plan, s, a).keys
    ensures forall x :: x in Next(plan, s, a).keys && x !in s.keys ==>
      !a.Resolve? && TodoOf(s.procs[a.i]) != [] && x == TodoOf(s.procs[a.i])[0]
  {
    if Solo(a) {
      SoloStep(plan, s, a);
    }
  }

  /** Two todo lists never name the same job. */
  lemma {:induction false} TodoFacts(plan: Plan, s: State, p: Process, x: nat)
    requires Sized(plan, s) && ProcOk(plan, s, p) && x in TodoOf(p)
    ensures x < |plan| && x !in s.keys
    ensures plan[x].parent == if p.Releasing? then Some(p.job) else None
  {
  }

  lemma {:induction false} TodosExclusive(plan: Plan, s: State, i: nat, k: nat, x: nat)
    requires IsForest(plan) && Structure(plan, s)
    requires i < |s.procs| && k < |s.procs| && i != k
    requires x in TodoOf(s.procs[i])
    ensures x !in TodoOf(s.procs[k])
  {
    if x in TodoOf(s.procs[k]) {
      TodoFacts(plan, s, s.procs[i], x);
      TodoFacts(plan, s, s.procs[k], x);
    }
  }

  lemma {:induction false} OthersStep(plan: Plan, s: State, a: Action)
    requires IsForest(plan) && Structure(plan, s) && Enabled(plan, s, a)
    requires Sized(plan, Next(plan, s, a))
    ensures forall k :: 0 <= k < |s.procs| && k != Actor(s, a) ==> ProcOk(plan, Next(plan, s, a), s.procs[k])
  {
    var t := Next(plan, s, a);
    if AllTerminal(s.status) {
      TerminalStays(plan, s, a);
    }
    KeysOfAction(plan, s, a);
    forall x: nat | x < |plan|
      ensures RowKept(s, t, x) || (forall k :: 0 <= k < |s.procs| && k != Actor(s, a) ==> JobOf(s.procs[k]) != Some(x))
    {
      RowsKeptByAction(plan, s, a, x);
      if !RowKept(s, t, x) && (a.Resolve? || a.ResolveMore?) {
        NobodyHas(plan, s, x);
      }
    }
    forall k, x | 0 <= k < |s.procs| && k != Actor(s, a) && x in TodoOf(s.procs[k])
      ensures x !in t.keys
    {
      assert ProcOk(plan, s, s.procs[k]);
      if x in t.keys && x !in s.keys {
        TodosExclusive(plan, s, a.i, k, x);
      }
    }
    OthersKeep(plan, s, t, Actor(s, a));
  }

  lemma {:induction false} ActorRelease(plan: Plan, s: State, i: nat)
    requires IsForest(plan) && Structure(plan, s) && Enabled(plan, s, ReleaseOne(i))
    ensures var t := Next(plan, s, ReleaseOne(i)); Sized(plan, t) && ProcOk(plan, t, t.procs[i])
  {
    assert ProcOk(plan, s, s.procs[i]);
    var todo := s.procs[i].todo;
    if todo != [] {
      assert todo[0] in TodoOf(s.procs[i]);
    }
  }

  lemma {:induction false} ActorAddRoot(plan: Plan, s: State, i: nat)
    requires IsForest(plan) && Structure(plan, s) && Enabled(plan, s, AddRoot(i))
    ensures var t := Next(plan, s, AddRoot(i)); Sized(plan, t) && ProcOk(plan, t, t.procs[i])
  {
    assert ProcOk(plan, s, s.procs[i]);
  }

  lemma {:induction false} ActorSelect(plan: Plan, s: State, i: nat)
    requires IsForest(plan) && Structure(plan, s) && Enabled(plan, s, SelectChildren(i))
    ensures var t := Next(plan, s, SelectChildren(i)); Sized(plan, t) && ProcOk(plan, t, t.procs[i])
  {
    assert ProcOk(plan, s, s.procs[i]);
    var j := s.procs[i].job;
    var todo := QueuedChildren(plan, s.status, j, |plan|);
    forall k | 0 <= k < |todo|
      ensures ParentOf(plan, j, todo[k]) && todo[k] !in s.keys
    {
      if todo[k] in s.keys {
        assert false;
      }
    }
  }

  lemma {:induction false} ActorRead(plan: Plan, s: State, i: nat)
    requires Sized(plan, s) && Enabled(plan, s, ReadCounts(i))
    requires forall j: nat :: j < |plan| ==> RowOk(plan, s, j)
    ensures var t := Next(plan, s, ReadCounts(i)); Sized(plan, t) && ProcOk(plan, t, t.procs[i])
  {
    if !HasPending(s.status) {
      forall j | 0 <= j < |s.status|
        ensures !Pending(s.status[j])
      {
        assert s.status[j] in s.status;
      }
    }
  }

  lemma {:induction false} ActorClaim(plan: Plan, s: State, i: nat)
    requires IsForest(plan) && Structure(plan, s) && Enabled(plan, s, Claim(i))
    ensures var t := Next(plan, s, Claim(i)); Sized(plan, t) && ProcOk(plan, t, t.procs[i])
  {
    assert ProcOk(plan, s, s.procs[i]);
  }

  lemma {:induction false} ActorResolveMore(plan: Plan, s: State, i: nat, j: nat)
    requires IsForest(plan) && Structure(plan, s) && Enabled(plan, s, ResolveMore(i, j))
    ensures var t := Next(plan, s, ResolveMore(i, j)); Sized(plan, t) && ProcOk(plan, t, t.procs[i])
  {
    assert RowOk(plan, s, j);
  }

  /** Actions of the code that runs a delivery. */
  predicate OfDelivery(a: Action) {
    a.Succeed? || a.Throw? || a.Pause? || a.MarkFailed? || a.Credit?
  }

  lemma {:induction false} ActorDelivery(plan: Plan, s: State, a: Action)
    requires IsForest(plan) && Structure(plan, s) && Enabled(plan, s, a)
    requires OfDelivery(a)
    ensures Sized(plan, Next(plan, s, a))
    ensures ProcOk(plan, Next(plan, s, a), Next(plan, s, a).procs[a.i])
  {
    assert ProcOk(plan, s, s.procs[a.i]);
    if a.Succeed? || a.MarkFailed? {
      ActorEnds(plan, s, a);
    }
  }

  lemma {:induction false} ActorEnds(plan: Plan, s: State, a: Action)
    requires Sized(plan, s) && Enabled(plan, s, a) && (a.Succeed? || a.MarkFailed?)
    requires ProcOk(plan, s, s.procs[a.i])
    ensures Sized(plan, Next(plan, s, a))
    ensures ProcOk(plan, Next(plan, s, a), Next(plan, s, a).procs[a.i])
  {
  }

  /** The other actions that move a process on. */
  predicate OfBookkeeping(a: Action) {
    a.WriteRunning? || a.ReleaseThrow? || a.WriteVerdict? || a.Publish? || a.EndResolve?
  }

  lemma {:induction false} ActorRest(plan: Plan, s: State, a: Action)
    requires Sized(plan, s) && Enabled(plan, s, a) && OfBookkeeping(a)
    requires ProcOk(plan, s, s.procs[a.i])
    ensures Sized(plan, Next(plan, s, a))
    ensures ProcOk(plan, Next(plan, s, a), Next(plan, s, a).procs[a.i])
  {
  }

  lemma {:induction false} ActorCascadeReadd(plan: Plan, s: State, a: Action)
    requires Sized(plan, s) && Enabled(plan, s, a) && (a.CascadeLevel? || a.Readd?)
    requires ProcOk(plan, s, s.procs[a.i])
    ensures Sized(plan, Next(plan, s, a))
    ensures ProcOk(plan, Next(plan, s, a), Next(plan, s, a).procs[a.i])
  {
  }

  lemma {:induction false} ActorStep(plan: Plan, s: State, a: Action)
    requires IsForest(plan) && Structure(plan, s) && Enabled(plan, s, a)
    requires Sized(plan, Next(plan, s, a)) && !a.Resolve?
    ensures ProcOk(plan, Next(plan, s, a), Next(plan, s, a).procs[a.i])
  {
    assert ProcOk(plan, s, s.procs[a.i]);
    if a.AddRoot? {
      ActorAddRoot(plan, s, a.i);
    } else if a.ReleaseOne? {
      ActorRelease(plan, s, a.i);
    } else if a.SelectChildren? {
      ActorSelect(plan, s, a.i);
    } else if a.ReadCounts? {
      ActorRead(plan, s, a.i);
    } else if a.Claim? {
      ActorClaim(plan, s, a.i);
    } else if a.ResolveMore? {
      ActorResolveMore(plan, s, a.i, a.j);
    } else if OfDelivery(a) {
      ActorDelivery(plan, s, a);
    } else if a.CascadeLevel? || a.Readd? {
      ActorCascadeReadd(plan, s, a);
    } else {
      ActorRest(plan, s, a);
    }
  }

  // ---------------------------------------------------------------------
  // A job is delivered only after its folder.
  // ---------------------------------------------------------------------

  lemma {:induction false} SucceededStays(plan: Plan, s: State, a: Action, x: nat)
    requires IsForest(plan) && Structure(plan, s) && Enabled(plan, s, a) && x < |plan|
    requires Sized(plan, Next(plan, s, a))
    requires s.status[x] == Succeeded
    ensures RowKept(s, Next(plan, s, a), x) && Next(plan, s, a).status[x] == Succeeded
  {
    RowsKeptByAction(plan, s, a, x);
    if !RowKept(s, Next(plan, s, a), x) {
      if a.Resolve? || a.ResolveMore? {
        assert false;
      } else {
        assert ProcOk(plan, s, s.procs[a.i]);
        SucceededIsQuiet(plan, s, a, x);
      }
    }
  }

  /** The process attached to a succeeded job writes no job row. */
  lemma {:induction false} SucceededIsQuiet(plan: Plan, s: State, a: Action, x: nat)
    requires Sized(plan, s) && Enabled(plan, s, a) && x < |plan| && !a.Resolve? && !a.ResolveMore?
    requires Sized(plan, Next(plan, s, a))
    requires s.status[x] == Succeeded && JobOf(s.procs[a.i]) == Some(x) && ProcOk(plan, s, s.procs[a.i])
    ensures RowKept(s, Next(plan, s, a), x)
  {
    var p := s.procs[a.i];
    assert p.Crediting? || p.Selecting? || p.Releasing?;
    assert a.Credit? || a.SelectChildren? || a.ReleaseOne? || a.ReleaseThrow?;
  }

  /** Attachments are inherited: an attached process was attached before, or is a fresh delivery. */
  lemma {:induction false} AttachmentsOf(plan: Plan, s: State, a: Action, k: nat, p: nat)
    requires IsForest(plan) && Structure(plan, s) && Enabled(plan, s, a)
    requires k < |Next(plan, s, a).procs| && JobOf(Next(plan, s, a).procs[k]) == Some(p)
    requires p < |plan| && s.status[p] == Succeeded
    ensures k < |s.procs| && JobOf(s.procs[k]) == Some(p)
    ensures s.procs[k].Releasing? ==> Next(plan, s, a).procs[k].Releasing?
  {
    if Solo(a) {
      SoloStep(plan, s, a);
      if s.procs[a.i].Releasing? {
        ReleasingOnward(plan, s, a);
      }
    } else {
      AttachmentsOfStart(plan, s, a, k, p);
    }
  }

  lemma {:induction false} ReleasingOnward(plan: Plan, s: State, a: Action)
    requires Enabled(plan, s, a) && Solo(a) && s.procs[a.i].Releasing?
    ensures JobOf(Next(plan, s, a).procs[a.i]) == None
  {
  }

  lemma {:induction false} AttachmentsOfStart(plan: Plan, s: State, a: Action, k: nat, p: nat)
    requires IsForest(plan) && Structure(plan, s) && Enabled(plan, s, a) && !Solo(a)
    requires k < |Next(plan, s, a).procs| && JobOf(Next(plan, s, a).procs[k]) == Some(p)
    requires p < |plan| && s.status[p] == Succeeded
    ensures k < |s.procs| && JobOf(s.procs[k]) == Some(p)
    ensures s.procs[k].Releasing? ==> Next(plan, s, a).procs[k].Releasing?
  {
    assert RowOk(plan, s, p);
    if a.AddRoot? || a.ReleaseOne? {
      assert ProcOk(plan, s, s.procs[a.i]);
      if TodoOf(s.procs[a.i]) != [] {
        TodoFacts(plan, s, s.procs[a.i], TodoOf(s.procs[a.i])[0]);
        assert RowOk(plan, s, TodoOf(s.procs[a.i])[0]);
      }
      AttachmentsOfAdd(plan, s, a, k, p);
    } else {
      AttachmentsOfResolve(plan, s, a, k, p);
    }
  }

  lemma {:induction false} AttachmentsOfAdd(plan: Plan, s: State, a: Action, k: nat, p: nat)
    requires Enabled(plan, s, a) && (a.AddRoot? || a.ReleaseOne?)
    requires k < |Next(plan, s, a).procs| && JobOf(Next(plan, s, a).procs[k]) == Some(p)
    requires TodoOf(s.procs[a.i]) != [] ==> TodoOf(s.procs[a.i])[0] != p
    ensures k < |s.procs| && JobOf(s.procs[k]) == Some(p)
    ensures s.procs[k].Releasing? ==> Next(plan, s, a).procs[k].Releasing?
  {
  }

  lemma {:induction false} AttachmentsOfResolve(plan: Plan, s: State, a: Action, k: nat, p: nat)
    requires IsForest(plan) && Structure(plan, s) && Enabled(plan, s, a)
    requires a.Resolve? || a.ResolveMore? || a.Readd?
    requires k < |Next(plan, s, a).procs| && JobOf(Next(plan, s, a).procs[k]) == Some(p)
    requires p < |plan| && s.status[p] == Succeeded
    ensures k < |s.procs| && JobOf(s.procs[k]) == Some(p)
    ensures s.procs[k].Releasing? ==> Next(plan, s, a).procs[k].Releasing?
  {
    if !a.Resolve? {
      assert ProcOk(plan, s, s.procs[a.i]);
    }
  }

  lemma {:induction false} FolderFirstStep(plan: Plan, s: State, a: Action)
    requires IsForest(plan) && Structure(plan, s) && Enabled(plan, s, a)
    requires Sized(plan, Next(plan, s, a))
    ensures FolderFirst(plan, Next(plan, s, a))
  {
    var t := Next(plan, s, a);
    KeysOfAction(plan, s, a);
    forall p: nat, j: nat | ParentOf(plan, p, j) && j in t.keys
      ensures Released(t, p)
    {
      ReleasedAfter(plan, s, a, p, j);
    }
  }

  lemma {:induction false} ReleasedAfter(plan: Plan, s: State, a: Action, p: nat, j: nat)
    requires IsForest(plan) && Structure(plan, s) && Enabled(plan, s, a)
    requires Sized(plan, Next(plan, s, a))
    requires ParentOf(plan, p, j) && j in Next(plan, s, a).keys
    ensures Released(Next(plan, s, a), p)
  {
    var t := Next(plan, s, a);
    KeysOfAction(plan, s, a);
    if j in s.keys {
      assert Released(s, p);
    } else {
      TodoFacts(plan, s, s.procs[a.i], j);
      assert s.procs[a.i].Releasing? && s.procs[a.i].job == p;
      assert ProcOk(plan, s, s.procs[a.i]);
      assert Released(s, p);
    }
    SucceededStays(plan, s, a, p);
    forall k | 0 <= k < |t.procs| && JobOf(t.procs[k]) == Some(p)
      ensures t.procs[k].Releasing?
    {
      AttachmentsOf(plan, s, a, k, p);
    }
  }

  lemma {:induction false} StructureStep(plan: Plan, s: State, a: Action)
    requires IsForest(plan) && Structure(plan, s) && Enabled(plan, s, a)
    ensures Structure(plan, Next(plan, s, a))
  {
    var t := Next(plan, s, a);
    SizedStep(plan, s, a);
    UniqueStep(plan, s, a);
    FolderFirstStep(plan, s, a);
    forall j: nat | j < |plan|
      ensures RowOk(plan, t, j)
    {
      RowStep(plan, s, a, j);
    }
    forall k | 0 <= k < |t.procs|
      ensures ProcOk(plan, t, t.procs[k])
    {
      ProcStep(plan, s, a, k);
    }
  }

  /** The process an action appends. */
  lemma {:induction false} ProcsOfAction(plan: Plan, s: State, a: Action, k: nat)
    requires Enabled(plan, s, a) && k < |Next(plan, s, a).procs| && k != Actor(s, a)
    ensures var t := Next(plan, s, a);
      (k < |s.procs| && t.procs[k] == s.procs[k]) || (k == |s.procs| && !Solo(a))
  {
    if Solo(a) {
      SoloStep(plan, s, a);
    } else {
      ProcsOfStart(plan, s, a, k);
    }
  }

  lemma {:induction false} ProcsOfStart(plan: Plan, s: State, a: Action, k: nat)
    requires Enabled(plan, s, a) && k < |Next(plan, s, a).procs| && k != Actor(s, a) && !Solo(a)
    ensures (k < |s.procs| && Next(plan, s, a).procs[k] == s.procs[k]) || k == |s.procs|
  {
  }

  lemma {:induction false} ProcStep(plan: Plan, s: State, a: Action, k: nat)
    requires IsForest(plan) && Structure(plan, s) && Enabled(plan, s, a)
    requires Sized(plan, Next(plan, s, a)) && k < |Next(plan, s, a).procs|
    ensures ProcOk(plan, Next(plan, s, a), Next(plan, s, a).procs[k])
  {
    var t := Next(plan, s, a);
    if k == Actor(s, a) {
      if a.Resolve? {
        assert RowOk(plan, s, a.j);
      } else {
        ActorStep(plan, s, a);
      }
    } else {
      ProcsOfAction(plan, s, a, k);
      if k < |s.procs| {
        OthersStep(plan, s, a);
      } else {
        FreshStep(plan, s, a);
      }
    }
  }

  lemma {:induction false} FreshStep(plan: Plan, s: State, a: Action)
    requires IsForest(plan) && Structure(plan, s) && Enabled(plan, s, a) && !a.Resolve? && !Solo(a)
    requires Sized(plan, Next(plan, s, a)) && |s.procs| < |Next(plan, s, a).procs|
    ensures ProcOk(plan, Next(plan, s, a), Next(plan, s, a).procs[|s.procs|])
  {
    assert ProcOk(plan, s, s.procs[a.i]);
    if a.AddRoot? || a.ReleaseOne? {
      FreshAdd(plan, s, a);
    }
  }

  lemma {:induction false} FreshAdd(plan: Plan, s: State, a: Action)
    requires IsForest(plan) && Structure(plan, s) && Enabled(plan, s, a) && (a.AddRoot? || a.ReleaseOne?)
    requires Sized(plan, Next(plan, s, a)) && |s.procs| < |Next(plan, s, a).procs|
    ensures ProcOk(plan, Next(plan, s, a), Next(plan, s, a).procs[|s.procs|])
  {
    assert ProcOk(plan, s, s.procs[a.i]);
    TodoFacts(plan, s, s.procs[a.i], TodoOf(s.procs[a.i])[0]);
    assert RowOk(plan, s, TodoOf(s.procs[a.i])[0]);
  }
}
