/**
  The single-flight refresh of token-store.ts. The methods of the class are the code between
  two awaits; the datatype below is the same state as a machine, for whole runs.
  The exchange itself is the refresh grant of section 6 of RFC 6749.
  */
module TokenStore {
  import opened Options

  const EXPIRY_SKEW_MS := 60_000

  datatype Tokens = Tokens(accessToken: string, refreshToken: Option<string>, expiresAt: Option<int>)

  /** One doRefresh: at which await it stands, then how its promise settles (None: rejected). */
  datatype Refresh =
    | LookingUp                            // await this.app()
    | Exchanging                           // await refreshToken(...)
    | Persisting                           // await this.persist(...)
    | Returning(result: Option<string>)    // settled; the finally callback is next
    | Settled(result: Option<string>)

  /** What a caller is given at once: a token, an error, or the promise of refresh r. */
  datatype Caller = Got(token: string) | Threw | Joined(r: nat)

  /** `obtained` is history: the access token each exchange brought. */
  datatype State = State(
    tokens: Tokens,
    inflight: Option<nat>,
    refreshes: seq<Refresh>,
    callers: seq<Caller>,
    persists: bool,
    obtained: seq<Option<string>>)

  datatype Grant = Grant(accessToken: string, expiresAt: Option<int>)

  datatype Action =
    | Get(now: nat)
    | Force(now: nat)
    | LookupDone(r: nat, ok: bool)
    | ExchangeDone(r: nat, reply: Option<Grant>)
    | PersistDone(r: nat, ok: bool)
    | Finally(r: nat)

  function Init(tokens: Tokens, persists: bool): State {
    State(tokens, None, [], [], persists, [])
  }

  predicate HasRefreshToken(t: Tokens) {
    t.refreshToken.Some? && t.refreshToken.value != ""
  }

  predicate IsExpired(t: Tokens, now: int) {
    t.expiresAt.Some? && now > t.expiresAt.value - EXPIRY_SKEW_MS
  }

  ghost predicate Enabled(s: State, a: Action) {
    |s.obtained| == |s.refreshes| &&
    match a
    case Get(_) => true
    case Force(_) => true
    case LookupDone(r, _) => r < |s.refreshes| && s.refreshes[r].LookingUp?
    case ExchangeDone(r, _) => r < |s.refreshes| && s.refreshes[r].Exchanging?
    case PersistDone(r, _) => r < |s.refreshes| && s.refreshes[r].Persisting?
    case Finally(r) => r < |s.refreshes| && s.refreshes[r].Returning?
  }

  function AfterGet(s: State, now: nat): State {
    if !IsExpired(s.tokens, now) then s.(callers := s.callers + [Got(s.tokens.accessToken)])
    else if !HasRefreshToken(s.tokens) then s.(callers := s.callers + [Threw])
    else if s.inflight.Some? then s.(callers := s.callers + [Joined(s.inflight.value)])
    else s.(inflight := Some(|s.refreshes|), refreshes := s.refreshes + [LookingUp], obtained := s.obtained + [None],
            callers := s.callers + [Joined(|s.refreshes|)])
  }

  function Next(s: State, a: Action): State
    requires Enabled(s, a)
  {
    match a
    case Get(now) => AfterGet(s, now)
    case Force(now) =>
      if !HasRefreshToken(s.tokens) then s.(callers := s.callers + [Threw])
      else AfterGet(s.(tokens := s.tokens.(expiresAt := Some(0))), now)
    case LookupDone(r, ok) => s.(refreshes := s.refreshes[r := if ok then Exchanging else Returning(None)])
    case ExchangeDone(r, reply) =>
      if reply.None? then s.(refreshes := s.refreshes[r := Returning(None)])
      else
        var g := reply.value;
        s.(tokens := s.tokens.(accessToken := g.accessToken, expiresAt := g.expiresAt),
           refreshes := s.refreshes[r := if s.persists then Persisting else Returning(Some(g.accessToken))],
           obtained := s.obtained[r := Some(g.accessToken)])
    case PersistDone(r, ok) =>
      s.(refreshes := s.refreshes[r := Returning(if ok then Some(s.tokens.accessToken) else None)])
    case Finally(r) => s.(refreshes := s.refreshes[r := Settled(s.refreshes[r].result)], inflight := None)
  }

  // ---------------------------------------------------------------------
  // The class.
  // ---------------------------------------------------------------------

  class Store {
    var tokens: Tokens
    var inflight: Option<nat>
    var refreshes: seq<Refresh>
    var callers: seq<Caller>
    const persists: bool
    ghost var obtained: seq<Option<string>>

    ghost function View(): State
      reads this
    {
      State(tokens, inflight, refreshes, callers, persists, obtained)
    }

    constructor (initial: Tokens, persists: bool)
      ensures View() == Init(initial, persists)
    {
      tokens, inflight, refreshes, callers, this.persists, obtained := initial, None, [], [], persists, [];
    }

    /** A token without deadline, or with 60 s to go, is handed out as it is; without a refresh token
        any other is refused; the caller of any other joins the refresh in flight or starts one. */
    method GetAccessToken(now: nat)
      modifies this
      ensures View() == AfterGet(old(View()), now)
      ensures tokens == old(tokens) && |callers| == |old(callers)| + 1 && callers[..|old(callers)|] == old(callers)
      ensures callers[|old(callers)|] == Got(tokens.accessToken) <==>
        tokens.expiresAt.None? || now <= tokens.expiresAt.value - 60_000
      ensures callers[|old(callers)|] == Threw <==>
        && tokens.expiresAt.Some? && now > tokens.expiresAt.value - 60_000
        && (tokens.refreshToken == None || tokens.refreshToken == Some(""))
      ensures callers[|old(callers)|].Joined? ==>
        inflight == Some(callers[|old(callers)|].r) && (old(inflight).Some? ==> inflight == old(inflight))
      ensures if callers[|old(callers)|].Joined? && old(inflight).None?
        then inflight == Some(|old(refreshes)|) && refreshes == old(refreshes) + [LookingUp]
        else inflight == old(inflight) && refreshes == old(refreshes)
    {
      if !IsExpired(tokens, now) {
        callers := callers + [Got(tokens.accessToken)];
        return;
      }
      if !HasRefreshToken(tokens) {
        callers := callers + [Threw];
        return;
      }
      if inflight.None? {
        inflight, refreshes, obtained := Some(|refreshes|), refreshes + [LookingUp], obtained + [None];
      }
      callers := callers + [Joined(inflight.value)];
    }

    method ForceRefresh(now: nat)
      requires Enabled(View(), Force(now))
      modifies this
      ensures View() == Next(old(View()), Force(now))
      ensures |callers| == |old(callers)| + 1
      ensures callers[|old(callers)|] == Threw <==> tokens.refreshToken == None || tokens.refreshToken == Some("")
      ensures tokens == if callers[|old(callers)|] == Threw then old(tokens)
                        else Tokens(old(tokens).accessToken, old(tokens).refreshToken, Some(0))
      ensures callers[|old(callers)|] != Threw ==> callers[|old(callers)|].Joined?
    {
      if !HasRefreshToken(tokens) {
        callers := callers + [Threw];
        return;
      }
      tokens := tokens.(expiresAt := Some(0));
      GetAccessToken(now);
    }

    /** doRefresh after `await this.app()`. */
    method AfterLookup(r: nat, ok: bool)
      requires Enabled(View(), LookupDone(r, ok))
      modifies this`refreshes
      ensures View() == Next(old(View()), LookupDone(r, ok))
    {
      refreshes := refreshes[r := if ok then Exchanging else Returning(None)];
    }

    /** doRefresh after the exchange. */
    method AfterExchange(r: nat, reply: Option<Grant>)
      requires Enabled(View(), ExchangeDone(r, reply))
      modifies this
      ensures View() == Next(old(View()), ExchangeDone(r, reply))
    {
      if reply.None? {
        refreshes := refreshes[r := Returning(None)];
        return;
      }
      tokens := Tokens(reply.value.accessToken, tokens.refreshToken, reply.value.expiresAt);
      obtained := obtained[r := Some(tokens.accessToken)];
      refreshes := refreshes[r := if persists then Persisting else Returning(Some(tokens.accessToken))];
    }

    /** doRefresh after `await this.persist(...)`. */
    method AfterPersist(r: nat, ok: bool)
      requires Enabled(View(), PersistDone(r, ok))
      modifies this`refreshes
      ensures View() == Next(old(View()), PersistDone(r, ok))
    {
      refreshes := refreshes[r := Returning(if ok then Some(tokens.accessToken) else None)];
    }

    /** The finally callback. */
    method OnFinally(r: nat)
      requires Enabled(View(), Finally(r))
      modifies this`refreshes, this`inflight
      ensures View() == Next(old(View()), Finally(r))
    {
      refreshes := refreshes[r := Settled(refreshes[r].result)];
      inflight := None;
    }
  }

  // ---------------------------------------------------------------------
  // Runs.
  // ---------------------------------------------------------------------

  ghost predicate IsRun(s: State, acts: seq<Action>)
    decreases |acts|
  {
    acts == [] || (Enabled(s, acts[0]) && IsRun(Next(s, acts[0]), acts[1..]))
  }

  ghost function After(s: State, acts: seq<Action>): State
    requires IsRun(s, acts)
    decreases |acts|
  {
    if acts == [] then s else After(Next(s, acts[0]), acts[1..])
  }

  ghost predicate Reached(initial: Tokens, persists: bool, acts: seq<Action>, s: State) {
    IsRun(Init(initial, persists), acts) && s == After(Init(initial, persists), acts)
  }

  /** Refresh k is consistent: while it persists the store has its token, and a token it resolves
      with is the one its own exchange brought. */
  ghost predicate RefreshOk(s: State, k: nat)
    requires k < |s.refreshes| == |s.obtained|
  {
    match s.refreshes[k]
    case LookingUp => s.obtained[k] == None
    case Exchanging => s.obtained[k] == None
    case Persisting => s.obtained[k] == Some(s.tokens.accessToken)
    case Returning(result) => result.Some? ==> s.obtained[k] == result
    case Settled(result) => result.Some? ==> s.obtained[k] == result
  }

  /** One refresh at most is unsettled: the one in flight, the last. */
  ghost predicate OneUnsettled(initial: Tokens, s: State) {
    && |s.obtained| == |s.refreshes|
    && s.tokens.refreshToken == initial.refreshToken
    && (s.inflight.Some? ==> s.inflight.value + 1 == |s.refreshes| && HasRefreshToken(s.tokens))
    && (forall k :: 0 <= k < |s.refreshes| ==> (s.refreshes[k].Settled? <==> s.inflight != Some(k)))
  }

  ghost predicate CallersOk(s: State) {
    && (forall c :: 0 <= c < |s.callers| && s.callers[c].Joined? ==> s.callers[c].r < |s.refreshes|)
    && |s.refreshes| <= |s.callers|
  }

  ghost predicate SingleFlight(initial: Tokens, s: State) {
    && OneUnsettled(initial, s)
    && (forall k :: 0 <= k < |s.refreshes| ==> RefreshOk(s, k))
    && CallersOk(s)
  }

  lemma {:induction false} OneUnsettledStep(initial: Tokens, s: State, a: Action)
    requires OneUnsettled(initial, s) && Enabled(s, a)
    ensures OneUnsettled(initial, Next(s, a))
  {
  }

  lemma {:induction false} CallersOkStep(initial: Tokens, s: State, a: Action)
    requires OneUnsettled(initial, s) && CallersOk(s) && Enabled(s, a)
    ensures CallersOk(Next(s, a))
  {
  }

  lemma {:induction false} RefreshOkStep(initial: Tokens, s: State, a: Action, k: nat)
    requires SingleFlight(initial, s) && Enabled(s, a) && k < |Next(s, a).refreshes|
    requires OneUnsettled(initial, Next(s, a))
    ensures RefreshOk(Next(s, a), k)
  {
    if k < |s.refreshes| {
      assert RefreshOk(s, k);
    }
  }

  lemma {:induction false} SingleFlightStep(initial: Tokens, s: State, a: Action)
    requires SingleFlight(initial, s) && Enabled(s, a)
    ensures SingleFlight(initial, Next(s, a))
  {
    OneUnsettledStep(initial, s, a);
    CallersOkStep(initial, s, a);
    forall k: nat | k < |Next(s, a).refreshes|
      ensures RefreshOk(Next(s, a), k)
    {
      RefreshOkStep(initial, s, a, k);
    }
  }

  lemma {:induction false} SingleFlightAlong(initial: Tokens, s: State, acts: seq<Action>)
    requires SingleFlight(initial, s) && IsRun(s, acts)
    ensures SingleFlight(initial, After(s, acts))
    decreases |acts|
  {
    if acts != [] {
      SingleFlightStep(initial, s, acts[0]);
      SingleFlightAlong(initial, Next(s, acts[0]), acts[1..]);
    }
  }

  /** What a caller ends up with, once its promise has settled. */
  function OutcomeOf(s: State, c: nat): Option<Option<string>>
    requires c < |s.callers|
  {
    match s.callers[c]
    case Got(token) => Some(Some(token))
    case Threw => Some(None)
    case Joined(r) => if r < |s.refreshes| && s.refreshes[r].Settled? then Some(s.refreshes[r].result) else None
  }

  /** For every interleaving: one exchange at most is outstanding, the refresh token is never
      lost, a caller that waits waits for a refresh that can move on, and the token a waiting
      caller is given is the one that its refresh obtained. */
  lemma {:induction false} RefreshesAreSingleFlight(initial: Tokens, persists: bool, acts: seq<Action>, s: State)
    requires Reached(initial, persists, acts, s)
    ensures s.tokens.refreshToken == initial.refreshToken
    ensures |s.obtained| == |s.refreshes| <= |s.callers|
    ensures forall k, l ::
              (0 <= k < |s.refreshes| && 0 <= l < |s.refreshes|
               && s.refreshes[k].Exchanging? && s.refreshes[l].Exchanging?) ==> k == l
    ensures forall c :: 0 <= c < |s.callers| && s.callers[c].Joined? ==>
      var r := s.callers[c].r;
      && r < |s.refreshes|
      && (OutcomeOf(s, c) == None ==> s.inflight == Some(r) && (exists a :: Enabled(s, a) && Moves(a, r)))
      && (OutcomeOf(s, c).Some? && OutcomeOf(s, c).value.Some? ==> s.obtained[r] == OutcomeOf(s, c).value)
  {
    SingleFlightAlong(initial, Init(initial, persists), acts);
    forall c: nat | c < |s.callers| && s.callers[c].Joined?
      ensures var r := s.callers[c].r;
        && r < |s.refreshes|
        && (OutcomeOf(s, c) == None ==> s.inflight == Some(r) && (exists a :: Enabled(s, a) && Moves(a, r)))
        && (OutcomeOf(s, c).Some? && OutcomeOf(s, c).value.Some? ==> s.obtained[r] == OutcomeOf(s, c).value)
    {
      var r := s.callers[c].r;
      assert RefreshOk(s, r);
      if OutcomeOf(s, c) == None {
        CanMove(s, r);
      }
    }
  }

  predicate Moves(a: Action, r: nat) {
    !a.Get? && !a.Force? && a.r == r
  }

  lemma {:induction false} CanMove(s: State, r: nat)
    requires |s.obtained| == |s.refreshes| && r < |s.refreshes| && !s.refreshes[r].Settled?
    ensures exists a :: Enabled(s, a) && Moves(a, r)
  {
    var a := match s.refreshes[r]
      case LookingUp => LookupDone(r, true)
      case Exchanging => ExchangeDone(r, None)
      case Persisting => PersistDone(r, true)
      case _ => Finally(r);
    assert Enabled(s, a) && Moves(a, r);
  }

  // ---------------------------------------------------------------------
  // What a caller that waits is given, over any later run.
  // ---------------------------------------------------------------------

  /** The exchange of refresh r has not answered yet. */
  predicate ExchangeAhead(s: State, r: nat) {
    r < |s.refreshes| && (s.refreshes[r].LookingUp? || s.refreshes[r].Exchanging?)
  }

  /** The refresh in flight has its token (or its failure) already. */
  predicate ExchangeBehind(s: State) {
    && s.inflight.Some? && s.inflight.value < |s.refreshes|
    && (s.refreshes[s.inflight.value].Persisting? || s.refreshes[s.inflight.value].Returning?)
  }

  /** The action that brings refresh r the token tok. */
  predicate Brings(a: Action, r: nat, tok: string) {
    a.ExchangeDone? && a.r == r && a.reply.Some? && a.reply.value.accessToken == tok
  }

  ghost predicate IsBrought(acts: seq<Action>, r: nat, tok: string) {
    exists i :: 0 <= i < |acts| && Brings(acts[i], r, tok)
  }

  lemma {:induction false} BroughtLater(acts: seq<Action>, r: nat, tok: string)
    requires acts != [] && IsBrought(acts[1..], r, tok)
    ensures IsBrought(acts, r, tok)
  {
    var i :| 0 <= i < |acts[1..]| && Brings(acts[1..][i], r, tok);
    assert Brings(acts[i + 1], r, tok);
  }

  lemma {:induction false} CallStays(initial: Tokens, s: State, a: Action, c: nat, r: nat)
    requires SingleFlight(initial, s) && Enabled(s, a)
    requires c < |s.callers| && s.callers[c] == Joined(r)
    ensures c < |Next(s, a).callers| && Next(s, a).callers[c] == Joined(r)
    ensures r < |s.obtained| <= |Next(s, a).obtained|
    ensures !ExchangeAhead(s, r) ==> Next(s, a).obtained[r] == s.obtained[r] && !ExchangeAhead(Next(s, a), r)
    ensures ExchangeAhead(s, r) && Next(s, a).obtained[r].Some? ==> Brings(a, r, Next(s, a).obtained[r].value)
    ensures ExchangeAhead(Next(s, a), r) ==> Next(s, a).obtained[r] == None
  {
    assert RefreshOk(s, r);
  }

  /** A caller that waits for refresh r keeps waiting for it; what r obtained stays, and what it
      obtains later an exchange of the run brings; a token the caller is given is r's. */
  lemma {:induction false} CallAlong(initial: Tokens, s: State, more: seq<Action>, u: State, c: nat, r: nat)
    requires SingleFlight(initial, s) && IsRun(s, more) && u == After(s, more)
    requires c < |s.callers| && s.callers[c] == Joined(r)
    ensures c < |u.callers| && u.callers[c] == Joined(r)
    ensures r < |s.obtained| <= |u.obtained| == |u.refreshes|
    ensures !ExchangeAhead(s, r) ==> u.obtained[r] == s.obtained[r]
    ensures ExchangeAhead(s, r) && u.obtained[r].Some? ==> IsBrought(more, r, u.obtained[r].value)
    ensures OutcomeOf(u, c).Some? && OutcomeOf(u, c).value.Some? ==> u.obtained[r] == OutcomeOf(u, c).value
    decreases |more|
  {
    if more == [] {
      assert RefreshOk(s, r);
    } else {
      var t := Next(s, more[0]);
      SingleFlightStep(initial, s, more[0]);
      CallStays(initial, s, more[0], c, r);
      CallAlong(initial, t, more[1..], u, c, r);
      if ExchangeAhead(s, r) && u.obtained[r].Some? && ExchangeAhead(t, r) {
        BroughtLater(more, r, u.obtained[r].value);
      }
    }
  }

  /** The token, with this deadline, is the one the store was opened with or one an exchange brought. */
  ghost predicate Issued(initial: Tokens, acts: seq<Action>, tok: string, deadline: Option<int>) {
    || (tok == initial.accessToken && deadline == initial.expiresAt)
    || exists i :: 0 <= i < |acts| && acts[i].ExchangeDone? && acts[i].reply == Some(Grant(tok, deadline))
  }

  /** What the store holds came with the deadline it holds, or has been forced. */
  ghost predicate HoldsIssued(initial: Tokens, acts: seq<Action>, s: State) {
    s.tokens.expiresAt == Some(0) || Issued(initial, acts, s.tokens.accessToken, s.tokens.expiresAt)
  }

  lemma {:induction false} IssuedStep(initial: Tokens, acts: seq<Action>, s: State, a: Action)
    requires Enabled(s, a) && HoldsIssued(initial, acts, s)
    ensures HoldsIssued(initial, acts + [a], Next(s, a))
  {
    assert forall i :: 0 <= i < |acts| ==> (acts + [a])[i] == acts[i];
    assert (acts + [a])[|acts|] == a;
    if a.ExchangeDone? && a.reply.Some? {
      assert a.reply == Some(Grant(a.reply.value.accessToken, a.reply.value.expiresAt));
    }
  }

  lemma {:induction false} IssuedAlong(initial: Tokens, before: seq<Action>, s: State, acts: seq<Action>)
    requires IsRun(s, acts) && HoldsIssued(initial, before, s)
    ensures HoldsIssued(initial, before + acts, After(s, acts))
    decreases |acts|
  {
    if acts == [] {
      assert before + acts == before;
    } else {
      IssuedStep(initial, before, s, acts[0]);
      IssuedAlong(initial, before + [acts[0]], Next(s, acts[0]), acts[1..]);
      assert before + [acts[0]] + acts[1..] == before + acts;
    }
  }

  /** In every reached state: a token that is handed out at once was issued with no deadline, or with
      one at least 60 s away, and a token handed out is never one whose renewal was forced. */
  lemma {:induction false} HandedOutTokenIsFresh(initial: Tokens, persists: bool, acts: seq<Action>, s: State, now: nat)
    requires Reached(initial, persists, acts, s) && Enabled(s, Get(now))
    ensures
      var t := Next(s, Get(now));
      && |t.callers| == |s.callers| + 1
      && (t.callers[|s.callers|].Got? ==>
            && t.callers[|s.callers|] == Got(s.tokens.accessToken)
            && Issued(initial, acts, s.tokens.accessToken, s.tokens.expiresAt)
            && (s.tokens.expiresAt.Some? ==> now + 60_000 <= s.tokens.expiresAt.value))
  {
    IssuedAlong(initial, [], Init(initial, persists), acts);
    assert [] + acts == acts;
  }

  /** The refresh an expired (or forced) caller waits for. */
  function RefreshJoined(s: State): nat {
    if s.inflight.Some? then s.inflight.value else |s.refreshes|
  }

  /** In every reached state a caller that finds the token expired, or forces, waits for the
      refresh in flight and starts none, or starts the only one; whatever happens next, it
      is given what that refresh obtained, like every other caller that waits for it. */
  lemma {:induction false} ExpiredCallersJoin(initial: Tokens, persists: bool, acts: seq<Action>, s: State,
                                              a: Action, t: State, more: seq<Action>, u: State)
    requires Reached(initial, persists, acts, s) && HasRefreshToken(s.tokens)
    requires a.Force? || (a.Get? && IsExpired(s.tokens, a.now))
    requires Enabled(s, a) && t == Next(s, a) && IsRun(t, more) && u == After(t, more)
    ensures t.refreshes == if s.inflight.Some? then s.refreshes else s.refreshes + [LookingUp]
    ensures
      var c, r := |s.callers|, RefreshJoined(s);
      && c < |u.callers| && u.callers[c] == Joined(r)
      && r < |u.obtained|
      && (OutcomeOf(u, c).Some? && OutcomeOf(u, c).value.Some? ==> u.obtained[r] == OutcomeOf(u, c).value)
      && (forall d :: 0 <= d < |u.callers| && u.callers[d] == Joined(r) ==> OutcomeOf(u, d) == OutcomeOf(u, c))
  {
    SingleFlightAlong(initial, Init(initial, persists), acts);
    SingleFlightStep(initial, s, a);
    CallAlong(initial, t, more, u, |s.callers|, RefreshJoined(s));
  }

  /** What forceRefresh is for is a token newer than the one the caller holds. In every reached
      state the refresh its caller waits for has its exchange ahead exactly when the one in
      flight, if any, is neither persisting nor about to run its finally callback. Then, in
      every later run, the token the caller is given is one that an exchange of that
      run brought; otherwise it is one that had been obtained before the call. */
  lemma {:induction false} ForcedTokenIsNew(initial: Tokens, persists: bool, acts: seq<Action>, s: State,
                                            now: nat, t: State, more: seq<Action>, u: State)
    requires Reached(initial, persists, acts, s) && HasRefreshToken(s.tokens)
    requires Enabled(s, Force(now)) && t == Next(s, Force(now)) && IsRun(t, more) && u == After(t, more)
    ensures
      var c, r := |s.callers|, RefreshJoined(s);
      && c < |u.callers| && u.callers[c] == Joined(r)
      && (ExchangeAhead(t, r) <==> !ExchangeBehind(s))
      && (OutcomeOf(u, c).Some? && OutcomeOf(u, c).value.Some? ==>
            var tok := OutcomeOf(u, c).value.value;
            if ExchangeBehind(s) then r < |s.obtained| && s.obtained[r] == Some(tok)
            else IsBrought(more, r, tok))
  {
    SingleFlightAlong(initial, Init(initial, persists), acts);
    SingleFlightStep(initial, s, Force(now));
    JoinsAhead(initial, s, now);
    CallAlong(initial, t, more, u, |s.callers|, RefreshJoined(s));
  }

  lemma {:induction false} JoinsAhead(initial: Tokens, s: State, now: nat)
    requires SingleFlight(initial, s) && HasRefreshToken(s.tokens)
    ensures
      var t, r := Next(s, Force(now)), RefreshJoined(s);
      && t.callers == s.callers + [Joined(r)]
      && r < |t.obtained| == |t.refreshes|
      && (ExchangeAhead(t, r) <==> !ExchangeBehind(s))
      && (ExchangeBehind(s) ==> r < |s.obtained| && t.obtained == s.obtained)
  {
    if s.inflight.Some? {
      assert RefreshOk(s, s.inflight.value);
    }
  }

  /** Such a caller exists at both stages: it is given the token it may be complaining about, the
      store keeps the demand, and the next caller starts a refresh of its own. */
  lemma {:induction false} ForcedTokenIsOld(initial: Tokens, s: State, now: nat, later: nat)
    requires SingleFlight(initial, s) && ExchangeBehind(s)
    requires s.refreshes[s.inflight.value].Returning? ==> s.refreshes[s.inflight.value].result.Some?
    ensures
      var r := s.inflight.value;
      var more := if s.refreshes[r].Persisting? then [PersistDone(r, true), Finally(r)] else [Finally(r)];
      && Enabled(s, Force(now))
      && IsRun(Next(s, Force(now)), more)
      && var u := After(Next(s, Force(now)), more);
      && |s.callers| < |u.callers|
      && s.obtained[r].Some? && OutcomeOf(u, |s.callers|) == Some(s.obtained[r])
      && (s.refreshes[r].Persisting? ==> s.obtained[r] == Some(s.tokens.accessToken))
      && u.tokens.accessToken == s.tokens.accessToken
      && Enabled(u, Get(later))
      && Next(u, Get(later)).callers == u.callers + [Joined(|s.refreshes|)]
      && Next(u, Get(later)).inflight == Some(|s.refreshes|)
  {
    var r := s.inflight.value;
    assert RefreshOk(s, r);
    var s1 := Next(s, Force(now));
    if s.refreshes[r].Persisting? {
      assert Enabled(s1, PersistDone(r, true));
      var s2 := Next(s1, PersistDone(r, true));
      assert Enabled(s2, Finally(r));
      assert [PersistDone(r, true), Finally(r)][1..] == [Finally(r)];
      RunOne(s2, Finally(r));
    } else {
      RunOne(s1, Finally(r));
    }
  }

  /** Both stages are reached, by the first refresh of a store whose token has expired. */
  lemma {:induction false} ExchangeBehindIsReached(initial: Tokens, persists: bool, now: nat, g: Grant)
    requires HasRefreshToken(initial) && IsExpired(initial, now)
    ensures
      var acts := [Get(now), LookupDone(0, true), ExchangeDone(0, Some(g))];
      && IsRun(Init(initial, persists), acts)
      && var s := After(Init(initial, persists), acts);
      && s.inflight == Some(0) && ExchangeBehind(s)
      && s.refreshes == [if persists then Persisting else Returning(Some(g.accessToken))]
  {
    var s0 := Init(initial, persists);
    var s1 := Next(s0, Get(now));
    var s2 := Next(s1, LookupDone(0, true));
    var acts := [Get(now), LookupDone(0, true), ExchangeDone(0, Some(g))];
    assert acts[1..] == [LookupDone(0, true), ExchangeDone(0, Some(g))];
    assert acts[1..][1..] == [ExchangeDone(0, Some(g))];
    RunOne(s2, ExchangeDone(0, Some(g)));
  }

  lemma {:induction false} RunOne(s: State, a: Action)
    requires Enabled(s, a)
    ensures IsRun(s, [a]) && After(s, [a]) == Next(s, a)
  {
    assert [a][1..] == [];
  }
}
