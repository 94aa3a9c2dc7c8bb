/**
  One operation as a state machine over the awaits of its participants.

  The jobs table, the operation row, BullMQ and the nodes table are shared; a
  process is one BullMQ delivery running through `runWrapped` or the `failed`
  listener, the `executePlan` request, or one `resolveConflict` request. Every
  action is the code between two awaits of one process, so an interleaving of
  the source is a sequence of actions.
  */
module Engine {
  import opened Options
  import opened Paths

  datatype Kind = CreateFolder | Upload | Copy | Transfer | Move | Delete

  /** One row of the jobs table as `enqueuePlan` leaves it: the columns that never change. */
  datatype JobSpec = JobSpec(kind: Kind, path: string, parent: Option<nat>)

  type Plan = seq<JobSpec>

  predicate IsFolder(plan: Plan, j: nat) {
    j < |plan| && plan[j].kind == CreateFolder
  }

  predicate ParentOf(plan: Plan, p: nat, j: nat) {
    j < |plan| && plan[j].parent == Some(p)
  }

  /** What `enqueuePlan` guarantees of the parent links (proved in module Enqueue). */
  ghost predicate IsForest(plan: Plan) {
    forall p: nat, j: nat :: ParentOf(plan, p, j) ==>
      && IsFolder(plan, p)
      && plan[p].path == ParentPath(plan[j].path)
      && |plan[p].path| < |plan[j].path|
  }

  datatype Status = Queued | Running | AwaitingConflict | Succeeded | Failed | Skipped | Cancelled

  datatype Verdict = AllSucceeded | SomeFailed | WasCancelled

  datatype OpStatus = Ready | InProgress | Final(verdict: Verdict)

  datatype Decision = Overwrite | Rename | Skip

  /** Where a process stands: what it does when it is scheduled next. */
  datatype Process =
    | Waiting(job: nat, attempt: nat, decision: Option<Decision>)   // delivery in BullMQ
    | Handling(job: nat, attempt: nat, decision: Option<Decision>)  // row claimed, handler runs
    | Exhausted(job: nat)                  // last attempt threw; the failed listener is next
    | Crediting(job: nat, bytes: nat)      // row succeeded; incrementTransferStats is next
    | Selecting(job: nat)                  // the SELECT of enqueueChildren is next
    | Releasing(job: nat, todo: seq<nat>)  // loop of enqueueChildren
    | Cascading(frontier: set<nat>)        // loop of cascadeSkipDescendants
    | Reading                              // maybeFinalizeOperation: count the statuses
    | Deciding(verdict: Verdict)           // maybeFinalizeOperation: conditional update
    | Publishing(verdict: Verdict)         // the update returned a row
    | Launching(todo: seq<nat>)            // executePlan: add the roots, then write `running`
    | Resolving(choice: Decision)       // resolveConflict, between two job writes
    | Readding(job: nat, choice: Decision)  // requeueJob, before q.add
    | Done

  datatype Row = Row(path: string, isFolder: bool)

  datatype Counter = BytesUploaded | FilesUploaded | BytesTransferred | FilesTransferred

  datatype Stats = Stats(bytesUploaded: nat, filesUploaded: nat, bytesTransferred: nat, filesTransferred: nat)
  {
    function Get(c: Counter): nat {
      match c
      case BytesUploaded => bytesUploaded
      case FilesUploaded => filesUploaded
      case BytesTransferred => bytesTransferred
      case FilesTransferred => filesTransferred
    }
  }

  /** `late`, `wins` are history: whether the `running` write of executePlan overwrote
      a final status, and how many conditional updates returned a row. */
  datatype State = State(
    status: seq<Status>,
    bytes: seq<nat>,
    keys: set<nat>,          // custom job ids BullMQ knows
    decided: set<nat>,       // jobs whose conflict has been decided
    procs: seq<Process>,
    op: OpStatus,
    launched: bool,
    late: bool,
    wins: nat,
    published: seq<Verdict>,
    sourceDeletes: nat,
    rows: map<nat, Row>,     // live rows of the nodes table at the destination provider, by remote id
    stats: Stats)

  const MAX_ATTEMPTS: nat := 5

  datatype Upsert = NoUpsert | Upsert(remoteId: nat, row: Row)

  datatype Action =
    | AddRoot(i: nat)
    | WriteRunning(i: nat)
    | Claim(i: nat)
    | Succeed(i: nat, bytes: nat, upsert: Upsert)
    | Throw(i: nat)
    | Pause(i: nat)
    | MarkFailed(i: nat)
    | Credit(i: nat)
    | SelectChildren(i: nat)
    | ReleaseOne(i: nat)
    | ReleaseThrow(i: nat)
    | CascadeLevel(i: nat)
    | ReadCounts(i: nat)
    | WriteVerdict(i: nat)
    | Publish(i: nat)
    | Resolve(j: nat, d: Decision)
    | ResolveMore(i: nat, j: nat)
    | Readd(i: nat)
    | EndResolve(i: nat)

  // ---------------------------------------------------------------------
  // The statements of the source, as functions of the tables they touch.
  // ---------------------------------------------------------------------

  /** The WHERE clause of the claiming UPDATE. */
  predicate Claimable(st: Status) {
    st in {Queued, Running, Failed, AwaitingConflict}
  }

  predicate Pending(st: Status) {
    st in {Queued, Running, AwaitingConflict}
  }

  /** Only these handlers reach resolveConflictDecision. */
  predicate CanPause(kind: Kind) {
    kind in {Upload, Copy, Transfer, Move}
  }

  ghost predicate AllTerminal(status: seq<Status>) {
    forall j :: 0 <= j < |status| ==> !Pending(status[j])
  }

  function VerdictOf(status: seq<Status>): Verdict {
    if Failed in status then SomeFailed
    else if Cancelled in status then WasCancelled
    else AllSucceeded
  }

  predicate HasPending(status: seq<Status>) {
    Queued in status || Running in status || AwaitingConflict in status
  }

  /** One level of cascadeSkipDescendants: the jobs the UPDATE returns. */
  function SkippedBy(plan: Plan, status: seq<Status>, frontier: set<nat>): (r: set<nat>)
    requires |status| == |plan|
    ensures forall j: nat :: j in r <==>
      j < |plan| && status[j] == Queued && plan[j].parent.Some? && plan[j].parent.value in frontier
  {
    set j: nat | j < |plan| && status[j] == Queued && plan[j].parent.Some? && plan[j].parent.value in frontier
  }

  function MarkSkipped(status: seq<Status>, which: set<nat>): (r: seq<Status>)
    ensures |r| == |status|
    ensures forall j :: 0 <= j < |status| ==> r[j] == if j in which then Skipped else status[j]
  {
    seq(|status|, j requires 0 <= j < |status| => if j in which then Skipped else status[j])
  }

  /** The rows enqueueChildren selects, in row order. */
  function QueuedChildren(plan: Plan, status: seq<Status>, p: nat, n: nat): (r: seq<nat>)
    requires n <= |plan| == |status|
    ensures forall k :: 0 <= k < |r| ==> r[k] < n && ParentOf(plan, p, r[k]) && status[r[k]] == Queued
    ensures forall j: nat :: j < n && ParentOf(plan, p, j) && status[j] == Queued ==> j in r
    ensures forall k, l :: 0 <= k < l < |r| ==> r[k] < r[l]
  {
    if n == 0 then []
    else
      var init := QueuedChildren(plan, status, p, n - 1);
      if plan[n - 1].parent == Some(p) && status[n - 1] == Queued then init + [n - 1] else init
  }

  /** The jobs enqueuePlan adds to BullMQ at once, in row order. */
  function Roots(plan: Plan, n: nat): (r: seq<nat>)
    requires n <= |plan|
    ensures forall k :: 0 <= k < |r| ==> r[k] < n && plan[r[k]].parent == None
    ensures forall k, l :: 0 <= k < l < |r| ==> r[k] < r[l]
    ensures forall j: nat :: j < n && plan[j].parent == None ==> j in r
  {
    if n == 0 then []
    else if plan[n - 1].parent == None then Roots(plan, n - 1) + [n - 1]
    else Roots(plan, n - 1)
  }

  /** incrementTransferStats: what one succeeded job adds to a counter. */
  function Earned(kind: Kind, bytes: nat, c: Counter): nat {
    if kind == CreateFolder || kind == Delete || bytes == 0 then 0
    else match c
      case BytesUploaded => if kind == Upload then bytes else 0
      case FilesUploaded => if kind == Upload then 1 else 0
      case BytesTransferred => if kind == Upload then 0 else bytes
      case FilesTransferred => if kind == Upload then 0 else 1
  }

  function AddStats(st: Stats, kind: Kind, bytes: nat): Stats {
    Stats(
      st.bytesUploaded + Earned(kind, bytes, BytesUploaded),
      st.filesUploaded + Earned(kind, bytes, FilesUploaded),
      st.bytesTransferred + Earned(kind, bytes, BytesTransferred),
      st.filesTransferred + Earned(kind, bytes, FilesTransferred))
  }

  // ---------------------------------------------------------------------
  // Actions.
  // ---------------------------------------------------------------------

  function Init(plan: Plan, rows: map<nat, Row>, stats: Stats): State {
    State(
      seq(|plan|, _ => Queued),
      seq(|plan|, _ => 0),
      {}, {},
      [Launching(Roots(plan, |plan|))],
      Ready, false, false, 0, [], 0, rows, stats)
  }

  predicate At(s: State, i: nat) {
    i < |s.procs|
  }

  /** The provider reports a remote id that holds one of the plan's folders only as that folder. */
  ghost predicate KeepsFolders(plan: Plan, s: State, u: Upsert) {
    u.Upsert? && u.remoteId in s.rows && s.rows[u.remoteId].isFolder ==>
      forall f: nat :: IsFolder(plan, f) && f < |s.status| && s.status[f] == Succeeded
                       && plan[f].path == s.rows[u.remoteId].path ==>
        u.row.isFolder && u.row.path == plan[f].path
  }

  /** handleCreateFolder returns only after an upsert at the entry's path;
      the other handlers upsert at most a file. */
  predicate HandlerUpsert(spec: JobSpec, u: Upsert) {
    if spec.kind == CreateFolder then u.Upsert? && u.row == Row(spec.path, true)
    else u.Upsert? ==> !u.row.isFolder
  }

  ghost predicate Enabled(plan: Plan, s: State, a: Action) {
    |s.status| == |s.bytes| == |plan| &&
    match a
    case AddRoot(i) => At(s, i) && s.procs[i].Launching? && s.procs[i].todo != []
    case WriteRunning(i) => At(s, i) && s.procs[i].Launching? && s.procs[i].todo == []
    case Claim(i) => At(s, i) && s.procs[i].Waiting? && s.procs[i].job < |plan|
    case Succeed(i, bytes, u) =>
      && At(s, i) && s.procs[i].Handling? && s.procs[i].job < |plan|
      && HandlerUpsert(plan[s.procs[i].job], u) && KeepsFolders(plan, s, u)
    case Throw(i) => At(s, i) && s.procs[i].Handling?
    case Pause(i) =>
      && At(s, i) && s.procs[i].Handling? && s.procs[i].job < |plan|
      && CanPause(plan[s.procs[i].job].kind) && s.procs[i].decision == None
    case MarkFailed(i) => At(s, i) && s.procs[i].Exhausted? && s.procs[i].job < |plan|
    case Credit(i) => At(s, i) && s.procs[i].Crediting? && s.procs[i].job < |plan|
    case SelectChildren(i) => At(s, i) && s.procs[i].Selecting?
    case ReleaseOne(i) => At(s, i) && s.procs[i].Releasing?
    case ReleaseThrow(i) => At(s, i) && (s.procs[i].Selecting? || s.procs[i].Releasing?)
    case CascadeLevel(i) => At(s, i) && s.procs[i].Cascading?
    case ReadCounts(i) => At(s, i) && s.procs[i].Reading?
    case WriteVerdict(i) => At(s, i) && s.procs[i].Deciding?
    case Publish(i) => At(s, i) && s.procs[i].Publishing?
    case Resolve(j, d) => j < |plan| && s.status[j] == AwaitingConflict
    case ResolveMore(i, j) =>
      At(s, i) && s.procs[i].Resolving? && j < |plan| && s.status[j] == AwaitingConflict
    case Readd(i) => At(s, i) && s.procs[i].Readding?
    case EndResolve(i) => At(s, i) && s.procs[i].Resolving?
  }

  function Become(s: State, i: nat, p: Process): State
    requires At(s, i)
  {
    s.(procs := s.procs[i := p])
  }

  /** q.add with a custom job id: a known id is dropped by BullMQ. */
  function Add(s: State, j: nat): State {
    if j in s.keys then s
    else s.(keys := s.keys + {j}, procs := s.procs + [Waiting(j, 0, None)])
  }

  function SetStatus(s: State, j: nat, st: Status): State
    requires j < |s.status|
  {
    s.(status := s.status[j := st])
  }

  /** One write of resolveConflict to a paused job, and where the request stands after it. */
  function AfterResolving(s: State, j: nat, d: Decision): (State, Process)
    requires j < |s.status|
  {
    var t := s.(decided := s.decided + {j});
    if d == Skip then (SetStatus(t, j, Skipped), Resolving(d))
    else (SetStatus(t, j, Queued), Readding(j, d))
  }

  function Next(plan: Plan, s: State, a: Action): State
    requires Enabled(plan, s, a)
  {
    match a
    case AddRoot(i) =>
      var todo := s.procs[i].todo;
      Add(Become(s, i, Launching(todo[1..])), todo[0])
    case WriteRunning(i) =>
      Become(s, i, Done).(op := InProgress, launched := true, late := s.op.Final?)
    case Claim(i) =>
      var p := s.procs[i];
      if Claimable(s.status[p.job])
      then SetStatus(Become(s, i, Handling(p.job, p.attempt, p.decision)), p.job, Running)
      else Become(s, i, Done)
    case Succeed(i, bytes, u) =>
      var j := s.procs[i].job;
      SetStatus(Become(s, i, Crediting(j, bytes)), j, Succeeded).(
        bytes := s.bytes[j := bytes],
        rows := if u.Upsert? then s.rows[u.remoteId := u.row] else s.rows)
    case Throw(i) =>
      var p := s.procs[i];
      if p.attempt + 1 < MAX_ATTEMPTS
      then Become(s, i, Waiting(p.job, p.attempt + 1, p.decision))
      else Become(s, i, Exhausted(p.job))
    case Pause(i) =>
      SetStatus(Become(s, i, Done), s.procs[i].job, AwaitingConflict)
    case MarkFailed(i) =>
      var j := s.procs[i].job;
      SetStatus(Become(s, i, if plan[j].kind == CreateFolder then Cascading({j}) else Reading), j, Failed)
    case Credit(i) =>
      var p := s.procs[i];
      Become(s, i, if plan[p.job].kind == CreateFolder then Selecting(p.job) else Reading).(
        stats := AddStats(s.stats, plan[p.job].kind, p.bytes))
    case SelectChildren(i) =>
      var j := s.procs[i].job;
      Become(s, i, Releasing(j, QueuedChildren(plan, s.status, j, |plan|)))
    case ReleaseOne(i) =>
      var p := s.procs[i];
      if p.todo == [] then Become(s, i, Reading)
      else Add(Become(s, i, Releasing(p.job, p.todo[1..])), p.todo[0])
    case ReleaseThrow(i) => Become(s, i, Cascading({s.procs[i].job}))
    case CascadeLevel(i) =>
      var hit := SkippedBy(plan, s.status, s.procs[i].frontier);
      Become(s, i, if hit == {} then Reading else Cascading(hit)).(status := MarkSkipped(s.status, hit))
    case ReadCounts(i) =>
      Become(s, i, if HasPending(s.status) then Done else Deciding(VerdictOf(s.status)))
    case WriteVerdict(i) =>
      var v := s.procs[i].verdict;
      if s.op.Final? then Become(s, i, Done)
      else Become(s, i, Publishing(v)).(op := Final(v), wins := s.wins + 1)
    case Publish(i) =>
      var v := s.procs[i].verdict;
      Become(s, i, Done).(
        published := s.published + [v],
        sourceDeletes := s.sourceDeletes + if v == AllSucceeded then 1 else 0)
    case Resolve(j, d) =>
      var (t, p) := AfterResolving(s, j, d);
      t.(procs := s.procs + [p])
    case ResolveMore(i, j) =>
      var (t, p) := AfterResolving(s, j, s.procs[i].choice);
      t.(procs := s.procs[i := p])
    case Readd(i) =>
      var p := s.procs[i];
      s.(procs := s.procs[i := Resolving(p.choice)] + [Waiting(p.job, 0, Some(p.choice))])
    case EndResolve(i) => Become(s, i, Reading)
  }

  // ---------------------------------------------------------------------
  // Runs.
  // ---------------------------------------------------------------------

  ghost predicate IsRun(plan: Plan, s: State, acts: seq<Action>)
    decreases |acts|
  {
    acts == [] || (Enabled(plan, s, acts[0]) && IsRun(plan, Next(plan, s, acts[0]), acts[1..]))
  }

  ghost function After(plan: Plan, s: State, acts: seq<Action>): State
    requires IsRun(plan, s, acts)
    decreases |acts|
  {
    if acts == [] then s else After(plan, Next(plan, s, acts[0]), acts[1..])
  }

  /** Nobody has anything left to do: every request and delivery is over and no
      conflict waits for the user. */
  ghost predicate Quiescent(s: State) {
    && (forall i :: 0 <= i < |s.procs| ==> s.procs[i].Done?)
    && (forall j :: 0 <= j < |s.status| ==> s.status[j] != AwaitingConflict)
  }
}
