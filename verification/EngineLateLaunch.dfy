/** What the unguarded `running` write of executePlan can do to an operation. */
module EngineLateLaunch {
  import opened Engine
  import opened Options
  import opened EngineInvariant
  import opened EngineTheorems

  lemma {:induction false} OneMore(plan: Plan, s: State, a: Action, rest: seq<Action>)
    requires Enabled(plan, s, a) && IsRun(plan, Next(plan, s, a), rest)
    ensures IsRun(plan, s, [a] + rest)
    ensures After(plan, s, [a] + rest) == After(plan, Next(plan, s, a), rest)
  {
    assert ([a] + rest)[1..] == rest;
  }

  /** One process past the count wins and publishes, and then the run goes on. */
  lemma {:induction false} WinAndPublish(plan: Plan, s: State, i: nat) returns (t: State)
    requires |s.status| == |s.bytes| == |plan| && i < |s.procs| && s.procs[i].Deciding? && !s.op.Final?
    ensures Enabled(plan, s, WriteVerdict(i)) && Enabled(plan, Next(plan, s, WriteVerdict(i)), Publish(i))
    ensures t == Next(plan, Next(plan, s, WriteVerdict(i)), Publish(i))
    ensures t.published == s.published + [s.procs[i].verdict]
    ensures t.sourceDeletes == s.sourceDeletes + if s.procs[i].verdict == AllSucceeded then 1 else 0
    ensures t.procs == s.procs[i := Done] && t.status == s.status && t.bytes == s.bytes
  {
    t := Next(plan, Next(plan, s, WriteVerdict(i)), Publish(i));
    assert s.procs[i := Publishing(s.procs[i].verdict)][i := Done] == s.procs[i := Done];
  }

  lemma {:induction false} WinFirst(plan: Plan, s: State, i: nat, t: State, rest: seq<Action>)
    requires Enabled(plan, s, WriteVerdict(i)) && Enabled(plan, Next(plan, s, WriteVerdict(i)), Publish(i))
    requires t == Next(plan, Next(plan, s, WriteVerdict(i)), Publish(i)) && IsRun(plan, t, rest)
    ensures IsRun(plan, s, [WriteVerdict(i)] + ([Publish(i)] + rest))
    ensures After(plan, s, [WriteVerdict(i)] + ([Publish(i)] + rest)) == After(plan, t, rest)
  {
    OneMore(plan, Next(plan, s, WriteVerdict(i)), Publish(i), rest);
    OneMore(plan, s, WriteVerdict(i), [Publish(i)] + rest);
  }

  /** Whenever two racers are past the count and executePlan still has its write to do, the
      write can fall between their updates: both win, the verdict is published twice, and if
      it is a success the sources are sent to deletion twice. */
  lemma {:induction false} BothRacersCanWin(plan: Plan, rows: map<nat, Row>, opening: Stats, acts: seq<Action>,
                                            s: State, i: nat, k: nat)
      returns (more: seq<Action>, t: State)
    requires IsForest(plan) && plan != [] && Reaches(plan, rows, opening, acts, s)
    requires i < |s.procs| && k < |s.procs| && i != k && s.procs[i].Deciding? && s.procs[k].Deciding?
    requires s.procs[0] == Launching([]) && s.wins == 0
    ensures IsRun(plan, s, more) && t == After(plan, s, more)
    ensures t.published == [VerdictOf(s.status), VerdictOf(s.status)]
    ensures VerdictOf(s.status) == AllSucceeded ==> t.sourceDeletes == 2
    ensures t.procs == s.procs[i := Done][0 := Done][k := Done] && t.status == s.status
  {
    ReachedIsGood(plan, rows, opening, acts, s);
    assert ProcOk(plan, s, s.procs[i]) && ProcOk(plan, s, s.procs[k]);
    assert s.published == [];
    more, t := BothWin(plan, s, i, k);
  }

  lemma {:induction false} BothWin(plan: Plan, s: State, i: nat, k: nat) returns (more: seq<Action>, t: State)
    requires |s.status| == |s.bytes| == |plan| && !s.op.Final?
    requires 0 < i < |s.procs| && 0 < k < |s.procs| && i != k
    requires s.procs[i].Deciding? && s.procs[k].Deciding? && s.procs[i].verdict == s.procs[k].verdict
    requires s.procs[0] == Launching([]) && s.published == [] && s.sourceDeletes == 0
    ensures IsRun(plan, s, more) && t == After(plan, s, more)
    ensures t.published == [s.procs[i].verdict, s.procs[i].verdict]
    ensures s.procs[i].verdict == AllSucceeded ==> t.sourceDeletes == 2
    ensures t.procs == s.procs[i := Done][0 := Done][k := Done] && t.status == s.status
  {
    var s2 := WinAndPublish(plan, s, i);
    var s3 := Next(plan, s2, WriteRunning(0));
    t := WinAndPublish(plan, s3, k);
    WinFirst(plan, s3, k, t, []);
    more := [WriteVerdict(k)] + ([Publish(k)] + []);
    OneMore(plan, s2, WriteRunning(0), more);
    more := [WriteRunning(0)] + more;
    WinFirst(plan, s, i, s2, more);
    more := [WriteVerdict(i)] + ([Publish(i)] + more);
  }

  // ---------------------------------------------------------------------
  // Runs given state by state.
  // ---------------------------------------------------------------------

  const NO_STATS: Stats := Stats(0, 0, 0, 0)

  /** t is the state after a, compared table by table. */
  ghost predicate Leads(plan: Plan, s: State, a: Action, t: State) {
    && Enabled(plan, s, a)
    && var n := Next(plan, s, a);
       && n.status == t.status && n.bytes == t.bytes && n.keys == t.keys && n.decided == t.decided
       && n.procs == t.procs && n.op == t.op && n.launched == t.launched && n.late == t.late
       && n.wins == t.wins && n.published == t.published && n.sourceDeletes == t.sourceDeletes
       && n.rows == t.rows && n.stats == t.stats
  }

  /** From the kth state along the given ones to the nth, and then on. */
  lemma {:induction false} Follow(plan: Plan, n: nat, k: nat, state: nat -> State, act: nat -> Action,
                                  more: seq<Action>, t: State)
      returns (acts: seq<Action>)
    requires k <= n && forall m: nat :: m < n ==> Leads(plan, state(m), act(m), state(m + 1))
    requires IsRun(plan, state(n), more) && After(plan, state(n), more) == t
    ensures IsRun(plan, state(k), acts) && After(plan, state(k), acts) == t
    decreases n - k
  {
    if k == n {
      acts := more;
    } else {
      var rest := Follow(plan, n, k + 1, state, act, more, t);
      assert Leads(plan, state(k), act(k), state(k + 1));
      OneMore(plan, state(k), act(k), rest);
      acts := [act(k)] + rest;
    }
  }

  lemma {:induction false} CreditLeads(plan: Plan, s: State, i: nat, j: nat, t: State)
    requires |s.status| == |s.bytes| == |plan| && i < |s.procs| && s.procs[i] == Crediting(j, 0)
    requires j < |plan| && plan[j].kind != CreateFolder
    requires t == s.(procs := s.procs[i := Reading])
    ensures Leads(plan, s, Credit(i), t)
  {
  }

  /** The tables while zero-byte jobs run that upsert nothing. */
  function Snapshot(status: seq<Status>, keys: set<nat>, procs: seq<Process>, op: OpStatus, wins: nat,
                    published: seq<Verdict>): State {
    State(status, seq(|status|, _ => 0), keys, {}, procs, op, op == InProgress, op == InProgress && wins > 0, wins,
          published, |published|, map[], NO_STATS)
  }

  // ---------------------------------------------------------------------
  // One job: running for ever.
  // ---------------------------------------------------------------------

  const ONE_FILE: Plan := [JobSpec(Upload, "/a", None)]

  /** The worker is done before executePlan writes `running`. */
  function FastAct(k: nat): Action {
    match k
    case 0 => AddRoot(0)
    case 1 => Claim(1)
    case 2 => Succeed(1, 0, NoUpsert)
    case 3 => Credit(1)
    case 4 => ReadCounts(1)
    case 5 => WriteVerdict(1)
    case 6 => Publish(1)
    case _ => WriteRunning(0)
  }

  /** The same run, state by state. */
  function FastState(k: nat): State {
    if k == 0 then Snapshot([Queued], {}, [Launching([0])], Ready, 0, [])
    else if k == 1 then Snapshot([Queued], {0}, [Launching([]), Waiting(0, 0, None)], Ready, 0, [])
    else if k == 2 then Snapshot([Running], {0}, [Launching([]), Handling(0, 0, None)], Ready, 0, [])
    else if k == 3 then Snapshot([Succeeded], {0}, [Launching([]), Crediting(0, 0)], Ready, 0, [])
    else if k == 4 then Snapshot([Succeeded], {0}, [Launching([]), Reading], Ready, 0, [])
    else if k == 5 then Snapshot([Succeeded], {0}, [Launching([]), Deciding(AllSucceeded)], Ready, 0, [])
    else if k == 6 then
      Snapshot([Succeeded], {0}, [Launching([]), Publishing(AllSucceeded)], Final(AllSucceeded), 1, [])
    else if k == 7 then Snapshot([Succeeded], {0}, [Launching([]), Done], Final(AllSucceeded), 1, [AllSucceeded])
    else Snapshot([Succeeded], {0}, [Done, Done], InProgress, 1, [AllSucceeded])
  }

  lemma {:induction false} FastStart()
    ensures Init(ONE_FILE, map[], NO_STATS) == FastState(0)
  {
    assert Roots(ONE_FILE, 1) == [0] by {
      assert Roots(ONE_FILE, 0) == [];
    }
    var s := Init(ONE_FILE, map[], NO_STATS);
    assert s.status == [Queued] && s.bytes == [0] && s.procs == [Launching([0])];
    assert s.bytes == FastState(0).bytes;
  }

  lemma {:induction false} FastLaunch()
    ensures Leads(ONE_FILE, FastState(0), AddRoot(0), FastState(1))
  {
    assert [0][1..] == [];
  }

  lemma {:induction false} FastClaim()
    ensures Leads(ONE_FILE, FastState(1), Claim(1), FastState(2))
  {
  }

  lemma {:induction false} FastSucceed()
    ensures Leads(ONE_FILE, FastState(2), Succeed(1, 0, NoUpsert), FastState(3))
  {
  }

  lemma {:induction false} FastCredit()
    ensures Leads(ONE_FILE, FastState(3), Credit(1), FastState(4))
  {
    assert FastState(3).procs[1 := Reading] == FastState(4).procs;
    CreditLeads(ONE_FILE, FastState(3), 1, 0, FastState(4));
  }

  lemma {:induction false} FastCount()
    ensures Leads(ONE_FILE, FastState(4), ReadCounts(1), FastState(5))
  {
  }

  lemma {:induction false} FastWin()
    ensures Leads(ONE_FILE, FastState(5), WriteVerdict(1), FastState(6))
    ensures Leads(ONE_FILE, FastState(6), Publish(1), FastState(7))
  {
  }

  lemma {:induction false} FastEnd()
    ensures Leads(ONE_FILE, FastState(7), WriteRunning(0), FastState(8))
    ensures Quiescent(FastState(8)) && FastState(8).op == InProgress && FastState(8).published == [AllSucceeded]
  {
  }

  lemma {:induction false} FastStep(plan: Plan, k: nat)
    requires plan == ONE_FILE && k < 8
    ensures Leads(plan, FastState(k), FastAct(k), FastState(k + 1))
  {
    if k == 0 { FastLaunch(); }
    if k == 1 { FastClaim(); }
    if k == 2 { FastSucceed(); }
    if k == 3 { FastCredit(); }
    if k == 4 { FastCount(); }
    if k == 5 || k == 6 { FastWin(); }
    if k == 7 { FastEnd(); }
  }

  lemma {:induction false} FastRun(plan: Plan) returns (acts: seq<Action>)
    requires plan == ONE_FILE
    ensures IsRun(plan, FastState(0), acts) && After(plan, FastState(0), acts) == FastState(8)
  {
    forall m: nat | m < 8
      ensures Leads(plan, FastState(m), FastAct(m), FastState(m + 1))
    {
      FastStep(plan, m);
    }
    acts := Follow(plan, 8, 0, FastState, FastAct, [], FastState(8));
  }

  /** The worker may finish the only job, finalise and publish before executePlan gets to its
      `running` write; the operation is then `running` for ever, with nothing left to run. */
  lemma {:induction false} RunningForEver() returns (plan: Plan, acts: seq<Action>, s: State)
    ensures IsForest(plan) && |plan| == 1 && Reaches(plan, map[], NO_STATS, acts, s)
    ensures Quiescent(s) && s.op == InProgress && s.published == [AllSucceeded]
  {
    plan, s := ONE_FILE, FastState(8);
    FastStart();
    acts := FastRun(plan);
    FastEnd();
  }

  // ---------------------------------------------------------------------
  // Two jobs: sources deleted twice.
  // ---------------------------------------------------------------------

  const TWO_FILES: Plan := [JobSpec(Transfer, "/a", None), JobSpec(Transfer, "/b", None)]

  /** Both workers count before either updates. */
  function RaceAct(k: nat): Action {
    match k
    case 0 => AddRoot(0)
    case 1 => AddRoot(0)
    case 2 => Claim(1)
    case 3 => Claim(2)
    case 4 => Succeed(1, 0, NoUpsert)
    case 5 => Succeed(2, 0, NoUpsert)
    case 6 => Credit(1)
    case 7 => Credit(2)
    case 8 => ReadCounts(1)
    case _ => ReadCounts(2)
  }

  /** Between executePlan's adds and its write: the statuses of the jobs, the two deliveries. */
  function Racing(first: Status, second: Status, p: Process, q: Process): State {
    Snapshot([first, second], {0, 1}, [Launching([]), p, q], Ready, 0, [])
  }

  function RaceState(k: nat): State {
    if k == 0 then Snapshot([Queued, Queued], {}, [Launching([0, 1])], Ready, 0, [])
    else if k == 1 then Snapshot([Queued, Queued], {0}, [Launching([1]), Waiting(0, 0, None)], Ready, 0, [])
    else if k == 2 then Racing(Queued, Queued, Waiting(0, 0, None), Waiting(1, 0, None))
    else if k == 3 then Racing(Running, Queued, Handling(0, 0, None), Waiting(1, 0, None))
    else if k == 4 then Racing(Running, Running, Handling(0, 0, None), Handling(1, 0, None))
    else if k == 5 then Racing(Succeeded, Running, Crediting(0, 0), Handling(1, 0, None))
    else if k == 6 then Racing(Succeeded, Succeeded, Crediting(0, 0), Crediting(1, 0))
    else if k == 7 then Racing(Succeeded, Succeeded, Reading, Crediting(1, 0))
    else if k == 8 then Racing(Succeeded, Succeeded, Reading, Reading)
    else if k == 9 then Racing(Succeeded, Succeeded, Deciding(AllSucceeded), Reading)
    else Racing(Succeeded, Succeeded, Deciding(AllSucceeded), Deciding(AllSucceeded))
  }

  lemma {:induction false} RaceStart()
    ensures Init(TWO_FILES, map[], NO_STATS) == RaceState(0)
  {
    assert Roots(TWO_FILES, 0) == [];
    assert Roots(TWO_FILES, 1) == [0];
    assert Roots(TWO_FILES, 2) == [0, 1];
    var s := Init(TWO_FILES, map[], NO_STATS);
    assert s.status == [Queued, Queued] && s.bytes == [0, 0] && s.procs == [Launching([0, 1])];
    assert s.bytes == RaceState(0).bytes;
  }

  lemma {:induction false} RaceLaunch()
    ensures Leads(TWO_FILES, RaceState(0), AddRoot(0), RaceState(1))
  {
    assert [0, 1][1..] == [1];
  }

  lemma {:induction false} RaceLaunchMore()
    ensures Leads(TWO_FILES, RaceState(1), AddRoot(0), RaceState(2))
  {
    assert [1][1..] == [];
  }

  lemma {:induction false} RaceClaim(k: nat)
    requires k == 2 || k == 3
    ensures Leads(TWO_FILES, RaceState(k), RaceAct(k), RaceState(k + 1))
  {
  }

  lemma {:induction false} RaceSucceed(k: nat)
    requires k == 4 || k == 5
    ensures Leads(TWO_FILES, RaceState(k), RaceAct(k), RaceState(k + 1))
  {
  }

  lemma {:induction false} RaceCredit(k: nat)
    requires k == 6 || k == 7
    ensures Leads(TWO_FILES, RaceState(k), RaceAct(k), RaceState(k + 1))
  {
    if k == 6 {
      assert RaceState(6).procs[1 := Reading] == RaceState(7).procs;
      CreditLeads(TWO_FILES, RaceState(6), 1, 0, RaceState(7));
    } else {
      assert RaceState(7).procs[2 := Reading] == RaceState(8).procs;
      CreditLeads(TWO_FILES, RaceState(7), 2, 1, RaceState(8));
    }
  }

  lemma {:induction false} RaceCount(k: nat)
    requires k == 8 || k == 9
    ensures Leads(TWO_FILES, RaceState(k), RaceAct(k), RaceState(k + 1))
  {
  }

  lemma {:induction false} RaceStep(plan: Plan, k: nat)
    requires plan == TWO_FILES && k < 10
    ensures Leads(plan, RaceState(k), RaceAct(k), RaceState(k + 1))
  {
    if k == 0 { RaceLaunch(); }
    if k == 1 { RaceLaunchMore(); }
    if k == 2 || k == 3 { RaceClaim(k); }
    if k == 4 || k == 5 { RaceSucceed(k); }
    if k == 6 || k == 7 { RaceCredit(k); }
    if k == 8 || k == 9 { RaceCount(k); }
  }

  lemma {:induction false} RaceRun(plan: Plan, more: seq<Action>, t: State) returns (acts: seq<Action>)
    requires plan == TWO_FILES && IsRun(plan, RaceState(10), more) && After(plan, RaceState(10), more) == t
    ensures IsRun(plan, RaceState(0), acts) && After(plan, RaceState(0), acts) == t
  {
    forall m: nat | m < 10
      ensures Leads(plan, RaceState(m), RaceAct(m), RaceState(m + 1))
    {
      RaceStep(plan, m);
    }
    acts := Follow(plan, 10, 0, RaceState, RaceAct, more, t);
  }

  lemma {:induction false} RaceEnd(t: State)
    requires t.procs == RaceState(10).procs[1 := Done][0 := Done][2 := Done] && t.status == RaceState(10).status
    ensures Quiescent(t)
  {
    assert t.procs == [Done, Done, Done];
  }

  lemma {:induction false} RaceMeets(s: State)
    requires s == RaceState(10)
    ensures s.procs == [Launching([]), Deciding(AllSucceeded), Deciding(AllSucceeded)]
    ensures s.status == [Succeeded, Succeeded] && s.wins == 0
    ensures VerdictOf(s.status) == AllSucceeded
  {
  }

  /** A transfer of two files, from executePlan on: both workers count, one wins and publishes,
      executePlan writes `running`, the other wins again. Everything is over, the success has
      been published twice and the sources sent to deletion twice. */
  lemma {:induction false} SourcesDeletedTwice() returns (plan: Plan, acts: seq<Action>, t: State)
    ensures IsForest(plan) && |plan| == 2 && Reaches(plan, map[], NO_STATS, acts, t)
    ensures Quiescent(t) && t.published == [AllSucceeded, AllSucceeded] && t.sourceDeletes == 2
  {
    plan := TWO_FILES;
    RaceStart();
    var s := RaceState(10);
    RaceMeets(s);
    acts := RaceRun(plan, [], s);
    var more: seq<Action>;
    more, t := BothRacersCanWin(plan, map[], NO_STATS, acts, s, 1, 2);
    acts := RaceRun(plan, more, t);
    RaceEnd(t);
  }
}
