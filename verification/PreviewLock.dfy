/** withLock of preview-cache-writer.ts: bodies chained on one promise, as a state machine over
    their awaits. A body reads the index, computes, and writes the index back. */
module PreviewLock {
  import opened Options

  type Body<!S> = S -> S

  datatype Phase<S> = Waiting | Reading | Holding(local: S) | Settled(ok: bool)

  /** The promise indexLock is fulfilled when the call it was derived from has settled, either way. */
  datatype State<!S> = State(
    disk: S,
    bodies: seq<Body<S>>,
    behind: seq<Option<nat>>,   // the call whose lock promise call i was chained on
    phases: seq<Phase<S>>,
    indexLock: Option<nat>)

  datatype Action<!S> = Invoke(body: Body<S>) | Start(i: nat) | Read(i: nat) | Finish(i: nat, ok: bool)

  function Init<S>(disk: S): State<S> {
    State(disk, [], [], [], None)
  }

  ghost predicate Enabled<S>(s: State<S>, a: Action<S>) {
    |s.bodies| == |s.behind| == |s.phases| &&
    match a
    case Invoke(_) => true
    case Start(i) => i < |s.phases| && s.phases[i].Waiting? && Fulfilled(s, s.behind[i])
    case Read(i) => i < |s.phases| && s.phases[i].Reading?
    case Finish(i, _) => i < |s.phases| && s.phases[i].Holding?
  }

  predicate Fulfilled<S>(s: State<S>, lock: Option<nat>) {
    lock.Some? ==> lock.value < |s.phases| && s.phases[lock.value].Settled?
  }

  function Next<S>(s: State<S>, a: Action<S>): State<S>
    requires Enabled(s, a)
  {
    match a
    case Invoke(body) =>
      s.(bodies := s.bodies + [body], behind := s.behind + [s.indexLock], phases := s.phases + [Waiting],
         indexLock := Some(|s.bodies|))
    case Start(i) => s.(phases := s.phases[i := Reading])
    case Read(i) => s.(phases := s.phases[i := Holding(s.disk)])
    case Finish(i, ok) =>
      s.(phases := s.phases[i := Settled(ok)], disk := if ok then s.bodies[i](s.phases[i].local) else s.disk)
  }

  /** The bodies run one after the other, in call order; one that fails changes nothing. */
  function Replay<S>(disk: S, bodies: seq<Body<S>>, phases: seq<Phase<S>>, n: nat): S
    requires n <= |bodies| && n <= |phases|
  {
    if n == 0 then disk
    else
      var before := Replay(disk, bodies, phases, n - 1);
      if phases[n - 1] == Settled(true) then bodies[n - 1](before) else before
  }

  /** The first d calls have settled, call d may be at work, the later ones have not started. */
  ghost predicate Serial<S>(start: S, s: State<S>, d: nat) {
    && |s.bodies| == |s.behind| == |s.phases| && d <= |s.phases|
    && s.indexLock == (if s.phases == [] then None else Some(|s.phases| - 1))
    && (forall i :: 0 <= i < |s.behind| ==> s.behind[i] == if i == 0 then None else Some(i - 1))
    && (forall i :: 0 <= i < d ==> s.phases[i].Settled?)
    && (forall i :: d < i < |s.phases| ==> s.phases[i].Waiting?)
    && (d < |s.phases| ==> !s.phases[d].Settled? && (s.phases[d].Holding? ==> s.phases[d].local == s.disk))
    && s.disk == Replay(start, s.bodies, s.phases, d)
  }

  lemma {:induction false} ReplaySame<S>(start: S, s: State<S>, t: State<S>, n: nat)
    requires n <= |s.bodies| && n <= |s.phases| && n <= |t.bodies| && n <= |t.phases|
    requires forall i :: 0 <= i < n ==> s.bodies[i] == t.bodies[i] && s.phases[i] == t.phases[i]
    ensures Replay(start, s.bodies, s.phases, n) == Replay(start, t.bodies, t.phases, n)
  {
    if n > 0 {
      ReplaySame(start, s, t, n - 1);
    }
  }

  lemma {:induction false} SerialStep<S>(start: S, s: State<S>, d: nat, a: Action<S>) returns (e: nat)
    requires Serial(start, s, d) && Enabled(s, a)
    ensures Serial(start, Next(s, a), e)
  {
    var t := Next(s, a);
    e := d;
    if a.Finish? {
      e := d + 1;
      assert a.i == d;
    }
    ReplaySame(start, s, t, d);
  }

  ghost predicate IsRun<S>(s: State<S>, acts: seq<Action<S>>)
    decreases |acts|
  {
    acts == [] || (Enabled(s, acts[0]) && IsRun(Next(s, acts[0]), acts[1..]))
  }

  ghost function After<S>(s: State<S>, acts: seq<Action<S>>): State<S>
    requires IsRun(s, acts)
    decreases |acts|
  {
    if acts == [] then s else After(Next(s, acts[0]), acts[1..])
  }

  lemma {:induction false} SerialAlong<S>(start: S, s: State<S>, d: nat, acts: seq<Action<S>>) returns (e: nat)
    requires Serial(start, s, d) && IsRun(s, acts)
    ensures Serial(start, After(s, acts), e)
    decreases |acts|
  {
    if acts == [] {
      e := d;
    } else {
      var f := SerialStep(start, s, d, acts[0]);
      e := SerialAlong(start, Next(s, acts[0]), f, acts[1..]);
    }
  }

  /** In every reachable state of every interleaving the index on disk is what running the
      settled bodies one by one in call order gives, the failed ones skipped; at most one body is
      at work, on the index as it is on disk; and a failed body does not block the next:
      unless all calls have settled, the first unsettled one can move. */
  lemma {:induction false} LockSerialises<S>(start: S, acts: seq<Action<S>>, s: State<S>) returns (d: nat)
    requires IsRun(Init(start), acts) && s == After(Init(start), acts)
    ensures d <= |s.phases| == |s.bodies|
    ensures s.disk == Replay(start, s.bodies, s.phases, d)
    ensures forall i :: 0 <= i < |s.phases| ==> (s.phases[i].Settled? <==> i < d)
    ensures forall i :: 0 <= i < |s.phases| && (s.phases[i].Reading? || s.phases[i].Holding?) ==> i == d
    ensures d < |s.phases| && s.phases[d].Holding? ==> s.phases[d].local == s.disk
    ensures d < |s.phases| ==> Enabled(s, Start(d)) || Enabled(s, Read(d)) || Enabled(s, Finish(d, true))
  {
    d := SerialAlong(start, Init(start), 0, acts);
  }

  /** Once every call has settled, the index is the replay of them all: no update is lost. */
  lemma {:induction false} AllSettled<S>(start: S, acts: seq<Action<S>>, s: State<S>)
    requires IsRun(Init(start), acts) && s == After(Init(start), acts)
    requires forall i :: 0 <= i < |s.phases| ==> s.phases[i].Settled?
    ensures |s.phases| == |s.bodies|
    ensures s.disk == Replay(start, s.bodies, s.phases, |s.bodies|)
  {
    var d := LockSerialises(start, acts, s);
  }
}
