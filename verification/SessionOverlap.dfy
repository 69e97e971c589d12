/**
 What overlapping session checks do to the stored time and to expiry: how far
 the stored time can fall behind, and exactly when a session can still be
 accepted.
 */
module SessionOverlap {
  import opened Clock
  import opened Sessions
  import opened SessionRaces

  // ---- how far the stored time falls behind ------------------------------------------------

  /** A call that is accepted writes at most d after it read the clock, and the write succeeds. */
  predicate Prompt(d: int, s: State, e: Event) {
    e.Finish? && At(s, e.c).Cleared? ==> !e.touchFails && s.clock - At(s, e.c).at <= d
  }

  predicate PromptRun(ttl: int, idle: int, d: int, n: nat, es: seq<Event>) {
    && Execute(ttl, idle, n, es).Reached?
    && (es != [] ==>
          && PromptRun(ttl, idle, d, n, es[..|es| - 1])
          && Prompt(d, Execute(ttl, idle, n, es[..|es| - 1]).state, es[|es| - 1]))
  }

  /** A copy some call has loaded. */
  predicate Holds(p: Phase, token: string) { (p.Loaded? || p.Checked? || p.Cleared?) && p.token == token }

  /** For one token: no use is later than the clock, none far above the stored time, no loaded copy above it by more than d. */
  ghost predicate LagsFor(d: int, s: State, token: string) {
    && (token in s.uses ==> forall u :: u in s.uses[token] ==> u <= s.clock)
    && (token in s.store && token in s.uses ==>
          && (forall u :: u in s.uses[token] ==> u <= s.store[token].lastSeen + MINUTE + d)
          && (forall c :: 0 <= c < |s.calls| && Holds(s.calls[c], token) ==> s.calls[c].ss.lastSeen <= s.store[token].lastSeen + d))
  }

  lemma AcceptLags(ttl: int, idle: int, d: nat, s: State, c: nat, token: string)
    requires Inv(ttl, idle, s) && LagsFor(d, s, token) && At(s, c).Cleared? && At(s, c).token in s.uses
    requires s.clock - At(s, c).at <= d
    ensures LagsFor(d, Accept(s, c, false), token)
  {
    var p, t := s.calls[c], Accept(s, c, false);
    assert PhaseOk(ttl, idle, s, p);
    forall i | 0 <= i < |t.calls| && Holds(t.calls[i], token) ensures Holds(s.calls[i], token) && t.calls[i] == s.calls[i] {
    }
    if token == p.token && token in s.store {
      assert Holds(s.calls[c], token);
      forall i | 0 <= i < |s.calls| && Holds(s.calls[i], token) ensures s.calls[i].ss.lastSeen <= s.clock {
        assert PhaseOk(ttl, idle, s, s.calls[i]);
      }
    }
  }

  lemma PutLags(d: nat, s: State, c: nat, p: Phase, token: string)
    requires LagsFor(d, s, token) && c < |s.calls|
    requires Holds(p, token) && token in s.store && token in s.uses ==> p.ss.lastSeen <= s.store[token].lastSeen + d
    ensures LagsFor(d, Put(s, c, p), token)
  {
  }

  lemma CallLags(ttl: int, idle: int, d: nat, s: State, e: Event, token: string)
    requires LagsFor(d, s, token) && Enabled(s, e) && (e.Load? || e.Check? || e.Lookup? || e.Purge?)
    ensures LagsFor(d, Step(ttl, idle, s, e), token)
  {
    var p := At(s, e.c);
    match e
    case Load(c, other) => PutLags(d, s, c, Loaded(other, s.store[other]), token);
    case Check(c) =>
      assert Holds(s.calls[c], token) ==> p.token == token;
      PutLags(d, s, c, if Stale(idle, p.ss, s.clock) then Purging(p.token) else Checked(p.token, p.ss, s.clock), token);
    case Lookup(c, enabled) =>
      assert Holds(s.calls[c], token) ==> p.token == token;
      PutLags(d, s, c, if enabled then Cleared(p.token, p.ss, p.at) else Purging(p.token), token);
    case Purge(c, _) => PutLags(d, s, c, Idle, token);
  }

  lemma StepLags(ttl: int, idle: int, d: nat, s: State, e: Event, token: string)
    requires Inv(ttl, idle, s) && LagsFor(d, s, token) && Enabled(s, e) && Prompt(d, s, e)
    requires e.Finish? ==> At(s, e.c).token in s.uses
    ensures LagsFor(d, Step(ttl, idle, s, e), token)
  {
    match e
    case Finish(c, _) => AcceptLags(ttl, idle, d, s, c, token);
    case Create(other, _, _) =>
      forall c | 0 <= c < |s.calls| && other == token ensures !Holds(s.calls[c], token) {
        assert PhaseOk(ttl, idle, s, s.calls[c]);
      }
    case Tick(_) =>
    case Remove(_) =>
    case _ => CallLags(ttl, idle, d, s, e, token);
  }

  lemma {:induction false} RunLags(ttl: int, idle: int, d: nat, n: nat, es: seq<Event>, token: string)
    requires PromptRun(ttl, idle, d, n, es)
    ensures LagsFor(d, Execute(ttl, idle, n, es).state, token)
    decreases |es|
  {
    if es != [] {
      var init := es[..|es| - 1];
      RunLags(ttl, idle, d, n, init, token);
      RunKeepsInv(ttl, idle, n, init);
      StepLags(ttl, idle, d, Execute(ttl, idle, n, init).state, es[|es| - 1], token);
    }
  }

  /**
   In every interleaving whose touches succeed and come at most d after the clock
   was read, no accepted use is more than a minute and d above the stored time.
   So a stored session used within the idle timeout less that much, and not past
   its expiry, is not turned down.
   */
  lemma StoredTimeTrails(ttl: int, idle: int, d: nat, n: nat, es: seq<Event>, token: string, u: Time)
    requires PromptRun(ttl, idle, d, n, es)
    requires token in Execute(ttl, idle, n, es).state.store && token in Execute(ttl, idle, n, es).state.uses
    requires u in Execute(ttl, idle, n, es).state.uses[token]
    ensures var s := Execute(ttl, idle, n, es).state;
      && u - s.store[token].lastSeen <= MINUTE + d
      && (s.clock <= u + idle - MINUTE - d && s.clock <= s.store[token].expires ==> !Stale(idle, s.store[token], s.clock))
  {
    RunLags(ttl, idle, d, n, es, token);
  }

  // ---- when a session can still be accepted ----------------------------------------------------

  predicate Possible(s: State, e: Event) { Enabled(s, e) && (e.Finish? ==> At(s, e.c).token in s.uses) }

  /** These events are possible in turn, and one of them accepts the token. */
  predicate Accepts(ttl: int, idle: int, s: State, more: seq<Event>, token: string)
    decreases |more|
  {
    && more != [] && Possible(s, more[0])
    && ((more[0].Finish? && At(s, more[0].c).token == token) || Accepts(ttl, idle, Step(ttl, idle, s, more[0]), more[1..], token))
  }

  /** A continuation of a run that accepts the token. */
  predicate LeadsToUse(ttl: int, idle: int, s: State, more: seq<Event>, token: string) { Accepts(ttl, idle, s, more, token) }

  /** A call in this phase will be turned down for the token. */
  predicate Hopeless(idle: int, p: Phase, token: string, now: Time) {
    && !(p.Checked? && p.token == token) && !(p.Cleared? && p.token == token)
    && (p.Loaded? && p.token == token ==> Stale(idle, p.ss, now))
  }

  /** The stored session and every loaded copy are stale, and no call has passed its check. */
  predicate Over(idle: int, s: State, token: string) {
    && (token in s.store ==> Stale(idle, s.store[token], s.clock))
    && forall c :: 0 <= c < |s.calls| ==> Hopeless(idle, s.calls[c], token, s.clock)
  }

  lemma StepStaysOver(ttl: int, idle: int, s: State, e: Event, token: string)
    requires Inv(ttl, idle, s) && Over(idle, s, token) && token in s.born && Possible(s, e)
    ensures !(e.Finish? && At(s, e.c).token == token)
    ensures Over(idle, Step(ttl, idle, s, e), token) && token in Step(ttl, idle, s, e).born
  {
    var t := Step(ttl, idle, s, e);
    if e.Load? || e.Check? || e.Lookup? || e.Purge? || e.Finish? {
      assert Hopeless(idle, At(s, e.c), token, s.clock);
    }
    forall c | 0 <= c < |t.calls| ensures Hopeless(idle, t.calls[c], token, t.clock) {
      assert Hopeless(idle, s.calls[c], token, s.clock);
    }
  }

  lemma {:induction false} OverIsNeverAccepted(ttl: int, idle: int, s: State, more: seq<Event>, token: string)
    requires Inv(ttl, idle, s) && Over(idle, s, token) && token in s.born
    ensures !Accepts(ttl, idle, s, more, token)
    decreases |more|
  {
    if more != [] && Possible(s, more[0]) {
      StepStaysOver(ttl, idle, s, more[0], token);
      StepInv(ttl, idle, s, more[0]);
      OverIsNeverAccepted(ttl, idle, Step(ttl, idle, s, more[0]), more[1..], token);
    }
  }

  lemma AcceptsAfter(ttl: int, idle: int, s: State, e: Event, more: seq<Event>, token: string)
    requires Possible(s, e) && Accepts(ttl, idle, Step(ttl, idle, s, e), more, token)
    ensures Accepts(ttl, idle, s, [e] + more, token)
  {
    assert ([e] + more)[1..] == more;
  }

  /** A call that passed its check can go on to be accepted. */
  lemma PassedCanAccept(ttl: int, idle: int, s: State, c: nat, token: string) returns (more: seq<Event>)
    requires Inv(ttl, idle, s) && (At(s, c).Checked? || At(s, c).Cleared?) && At(s, c).token == token
    ensures Accepts(ttl, idle, s, more, token)
  {
    assert PhaseOk(ttl, idle, s, s.calls[c]);
    more := [Finish(c, true)];
    if At(s, c).Checked? {
      AcceptsAfter(ttl, idle, s, Lookup(c, true), more, token);
      more := [Lookup(c, true)] + more;
    }
  }

  lemma LoadedCanAccept(ttl: int, idle: int, s: State, c: nat, token: string) returns (more: seq<Event>)
    requires Inv(ttl, idle, s) && At(s, c).Loaded? && At(s, c).token == token && !Stale(idle, At(s, c).ss, s.clock)
    ensures Accepts(ttl, idle, s, more, token)
  {
    StepInv(ttl, idle, s, Check(c));
    more := PassedCanAccept(ttl, idle, Step(ttl, idle, s, Check(c)), c, token);
    AcceptsAfter(ttl, idle, s, Check(c), more, token);
    more := [Check(c)] + more;
  }

  /** What is left of a call: the next event that brings it closer to its end without writing. */
  function NextOf(p: Phase, c: nat): Event
    requires !p.Idle?
  {
    match p
    case Loaded(_, _) => Check(c)
    case Checked(_, _, _) => Lookup(c, true)
    case Cleared(_, _, _) => Finish(c, true)
    case Purging(_) => Purge(c, true)
  }

  function Left(p: Phase): nat {
    match p case Idle => 0 case Purging(_) => 1 case Cleared(_, _, _) => 1 case Checked(_, _, _) => 2 case Loaded(_, _) => 3
  }

  lemma OneCloser(ttl: int, idle: int, s: State, c: nat)
    requires Inv(ttl, idle, s) && c < |s.calls| && !s.calls[c].Idle?
    ensures var e := NextOf(s.calls[c], c);
      && Possible(s, e)
      && var t := Step(ttl, idle, s, e);
      && t.store == s.store && t.clock == s.clock && |t.calls| == |s.calls| && Left(t.calls[c]) < Left(s.calls[c])
  {
    assert PhaseOk(ttl, idle, s, s.calls[c]);
  }

  /** While a stored session is fresh, some call can load it and be accepted. */
  lemma {:induction false} StoredCanAccept(ttl: int, idle: int, s: State, token: string) returns (more: seq<Event>)
    requires Inv(ttl, idle, s) && |s.calls| > 0 && token in s.store && !Stale(idle, s.store[token], s.clock)
    ensures Accepts(ttl, idle, s, more, token)
    decreases Left(s.calls[0])
  {
    var e := if s.calls[0].Idle? then Load(0, token) else NextOf(s.calls[0], 0);
    StepInv(ttl, idle, s, e);
    if s.calls[0].Idle? {
      more := LoadedCanAccept(ttl, idle, Step(ttl, idle, s, e), 0, token);
    } else {
      OneCloser(ttl, idle, s, 0);
      more := StoredCanAccept(ttl, idle, Step(ttl, idle, s, e), token);
    }
    AcceptsAfter(ttl, idle, s, e, more, token);
    more := [e] + more;
  }

  lemma NotOverCanAccept(ttl: int, idle: int, s: State, token: string) returns (more: seq<Event>)
    requires Inv(ttl, idle, s) && |s.calls| > 0 && !Over(idle, s, token)
    ensures Accepts(ttl, idle, s, more, token)
  {
    if token in s.store && !Stale(idle, s.store[token], s.clock) {
      more := StoredCanAccept(ttl, idle, s, token);
    } else {
      var c :| 0 <= c < |s.calls| && !Hopeless(idle, s.calls[c], token, s.clock);
      if s.calls[c].Loaded? {
        more := LoadedCanAccept(ttl, idle, s, c, token);
      } else {
        more := PassedCanAccept(ttl, idle, s, c, token);
      }
    }
  }

  lemma OverOrAccepted(ttl: int, idle: int, s: State, token: string)
    requires Inv(ttl, idle, s) && |s.calls| > 0 && token in s.born
    ensures Over(idle, s, token) <==> !(exists more :: LeadsToUse(ttl, idle, s, more, token))
  {
    if Over(idle, s, token) {
      forall more ensures !LeadsToUse(ttl, idle, s, more, token) {
        OverIsNeverAccepted(ttl, idle, s, more, token);
      }
    } else {
      var more := NotOverCanAccept(ttl, idle, s, token);
      assert LeadsToUse(ttl, idle, s, more, token);
    }
  }

  lemma {:induction false} CallsStay(ttl: int, idle: int, n: nat, es: seq<Event>)
    requires Execute(ttl, idle, n, es).Reached?
    ensures |Execute(ttl, idle, n, es).state.calls| == n
    decreases |es|
  {
    if es != [] {
      CallsStay(ttl, idle, n, es[..|es| - 1]);
    }
  }

  /**
   After any run a session is never accepted again, however the run goes on, if
   and only if it is over: the stored session and every loaded copy are stale and
   no call has passed its check.
   */
  lemma NeverAgainIffOver(ttl: int, idle: int, n: nat, es: seq<Event>, token: string)
    requires n > 0 && Execute(ttl, idle, n, es).Reached? && token in Execute(ttl, idle, n, es).state.born
    ensures var s := Execute(ttl, idle, n, es).state;
      Over(idle, s, token) <==> !(exists more :: LeadsToUse(ttl, idle, s, more, token))
  {
    RunKeepsInv(ttl, idle, n, es);
    CallsStay(ttl, idle, n, es);
    OverOrAccepted(ttl, idle, Execute(ttl, idle, n, es).state, token);
  }

  // ---- runs that reach the bounds ----------------------------------------------------------------

  /** A run with two calls goes on with one more event. */
  lemma More(ttl: int, idle: int, d: int, es: seq<Event>, s: State, e: Event) returns (fs: seq<Event>, t: State)
    requires Execute(ttl, idle, 2, es) == Reached(s) && Possible(s, e)
    ensures Execute(ttl, idle, 2, fs) == Reached(t) && t == Step(ttl, idle, s, e) && fs == es + [e]
    ensures PromptRun(ttl, idle, d, 2, es) && Prompt(d, s, e) ==> PromptRun(ttl, idle, d, 2, fs)
  {
    fs, t := es + [e], Step(ttl, idle, s, e);
    assert fs[..|es|] == es;
  }

  /** A call that finds a fresh session loads it, passes its checks and is about to write. */
  lemma Clears(ttl: int, idle: int, d: int, es: seq<Event>, s: State, c: nat, token: string) returns (fs: seq<Event>, t: State)
    requires Execute(ttl, idle, 2, es) == Reached(s) && PromptRun(ttl, idle, d, 2, es)
    requires c < |s.calls| && s.calls[c].Idle? && token in s.store && !Stale(idle, s.store[token], s.clock)
    ensures Execute(ttl, idle, 2, fs) == Reached(t) && PromptRun(ttl, idle, d, 2, fs)
    ensures fs == es + [Load(c, token)] + [Check(c)] + [Lookup(c, true)]
    ensures t == Put(s, c, Cleared(token, s.store[token], s.clock))
  {
    fs, t := More(ttl, idle, d, es, s, Load(c, token));
    fs, t := More(ttl, idle, d, fs, t, Check(c));
    fs, t := More(ttl, idle, d, fs, t, Lookup(c, true));
    assert t.calls == s.calls[c := Cleared(token, s.store[token], s.clock)];
  }

  /** A session created at time zero. */
  function Fresh(ttl: int, token: string, user: string): Session { Session(user, ZERO, ZERO, ZERO + ttl) }

  lemma Created(ttl: int, idle: int, d: int, token: string, user: string) returns (es: seq<Event>, s: State)
    ensures Execute(ttl, idle, 2, es) == Reached(s) && PromptRun(ttl, idle, d, 2, es)
    ensures s == State(ZERO, map[token := Fresh(ttl, token, user)], [Idle, Idle], map[token := ZERO], map[token := {ZERO}], {})
  {
    es, s := [], Init(2);
    es, s := More(ttl, idle, d, es, s, Create(token, user, ZERO));
    assert s.calls == [Idle, Idle];
  }

  /** Call 0 read the clock at the given time, passed every check, and did not write yet. */
  lemma AboutToWrite(ttl: int, idle: int, d: int, token: string, user: string, after: int) returns (es: seq<Event>, s: State)
    requires 0 <= after <= idle && after <= ttl
    ensures Execute(ttl, idle, 2, es) == Reached(s) && PromptRun(ttl, idle, d, 2, es)
    ensures var ss := Fresh(ttl, token, user);
      s == State(ZERO + after, map[token := ss], [Cleared(token, ss, ZERO + after), Idle], map[token := ZERO],
                 map[token := {ZERO}], {})
  {
    es, s := Created(ttl, idle, d, token, user);
    es, s := More(ttl, idle, d, es, s, Tick(ZERO + after));
    es, s := Clears(ttl, idle, d, es, s, 0, token);
    assert s.calls == [Cleared(token, Fresh(ttl, token, user), ZERO + after), Idle];
  }

  /** Call 1 read the clock d later than call 0 and has already written. */
  lemma FasterCallWrites(ttl: int, idle: int, d: nat, token: string, user: string) returns (es: seq<Event>, s: State)
    requires 2 * MINUTE + d <= idle && 2 * MINUTE + d <= ttl
    ensures Execute(ttl, idle, 2, es) == Reached(s) && PromptRun(ttl, idle, d, 2, es)
    ensures var ss, early, late := Fresh(ttl, token, user), ZERO + 2 * MINUTE, ZERO + 2 * MINUTE + d;
      s == State(late, map[token := ss.(lastSeen := late)], [Cleared(token, ss, early), Idle], map[token := ZERO],
                 map[token := {ZERO, late}], {})
  {
    es, s := AboutToWrite(ttl, idle, d, token, user, 2 * MINUTE);
    es, s := More(ttl, idle, d, es, s, Tick(ZERO + 2 * MINUTE + d));
    es, s := Clears(ttl, idle, d, es, s, 1, token);
    es, s := More(ttl, idle, d, es, s, Finish(1, false));
    assert s.calls == [Cleared(token, Fresh(ttl, token, user), ZERO + 2 * MINUTE), Idle];
    assert s.uses[token] == {ZERO, ZERO + 2 * MINUTE + d};
  }

  /** Call 1 loads what it wrote, and then the slow write of call 0 puts the older time back. */
  lemma LoadedBeforeLateWrite(ttl: int, idle: int, d: nat, token: string, user: string) returns (es: seq<Event>, s: State)
    requires 2 * MINUTE + d <= idle && 2 * MINUTE + d <= ttl
    ensures Execute(ttl, idle, 2, es) == Reached(s) && PromptRun(ttl, idle, d, 2, es)
    ensures var ss, early, late := Fresh(ttl, token, user), ZERO + 2 * MINUTE, ZERO + 2 * MINUTE + d;
      && s.clock == late && s.store == map[token := ss.(lastSeen := early)]
      && s.calls == [Idle, Loaded(token, ss.(lastSeen := late))] && token in s.uses
  {
    es, s := FasterCallWrites(ttl, idle, d, token, user);
    es, s := More(ttl, idle, d, es, s, Load(1, token));
    es, s := More(ttl, idle, d, es, s, Finish(0, false));
  }

  /** The bound of StoredTimeTrails is reached, for every delay. */
  lemma LateTouchMovesBack(ttl: int, idle: int, d: nat, token: string, user: string) returns (es: seq<Event>, s: State)
    requires 2 * MINUTE + d <= idle && 3 * MINUTE + d <= ttl
    ensures Execute(ttl, idle, 2, es) == Reached(s) && PromptRun(ttl, idle, d, 2, es)
    ensures token in s.uses && token in s.store && s.clock in s.uses[token] && s.clock - s.store[token].lastSeen == MINUTE + d
  {
    es, s := LoadedBeforeLateWrite(ttl, idle, d, token, user);
    es, s := More(ttl, idle, d, es, s, Tick(ZERO + 3 * MINUTE + d));
    es, s := More(ttl, idle, d, es, s, Check(1));
    es, s := More(ttl, idle, d, es, s, Lookup(1, true));
    es, s := More(ttl, idle, d, es, s, Finish(1, false));
  }

  /** After this run, every accepted use is at most a minute above the stored time. */
  ghost predicate WithinAMinute(ttl: int, idle: int, n: nat, es: seq<Event>) {
    Execute(ttl, idle, n, es).Reached? ==>
      var s := Execute(ttl, idle, n, es).state;
      forall token, u :: token in s.store && token in s.uses && u in s.uses[token] ==> u - s.store[token].lastSeen <= MINUTE
  }

  lemma NoDelayKeepsTheMinute(ttl: int, idle: int, n: nat, es: seq<Event>)
    requires PromptRun(ttl, idle, 0, n, es)
    ensures WithinAMinute(ttl, idle, n, es)
  {
    var s := Execute(ttl, idle, n, es).state;
    forall token, u | token in s.store && token in s.uses && u in s.uses[token] ensures u - s.store[token].lastSeen <= MINUTE {
      StoredTimeTrails(ttl, idle, 0, n, es, token, u);
    }
  }

  /** With overlapping calls the promised minute holds in every run if and only if no write is delayed. */
  lemma MinuteIffNoDelay(ttl: int, idle: int, d: nat)
    requires 2 * MINUTE + d <= idle && 3 * MINUTE + d <= ttl
    ensures (forall es :: PromptRun(ttl, idle, d, 2, es) ==> WithinAMinute(ttl, idle, 2, es)) <==> d == 0
  {
    if d == 0 {
      forall es | PromptRun(ttl, idle, d, 2, es) ensures WithinAMinute(ttl, idle, 2, es) {
        NoDelayKeepsTheMinute(ttl, idle, 2, es);
      }
    } else {
      var es, s := LateTouchMovesBack(ttl, idle, d, "token", "user");
      assert !WithinAMinute(ttl, idle, 2, es);
    }
  }

  /** Call 1 has loaded a session that is stale by now; call 0 read the clock before that and did not write yet. */
  function Late(ttl: int, idle: int, token: string, user: string): State {
    var ss := Fresh(ttl, token, user);
    State(ZERO + idle + 1, map[token := ss], [Cleared(token, ss, ZERO + idle), Loaded(token, ss)], map[token := ZERO],
          map[token := {ZERO}], {})
  }

  /** Call 1 is turned down, its delete fails, and call 0 writes. */
  function Revived(ttl: int, idle: int, token: string, user: string): State {
    State(ZERO + idle + 1, map[token := Fresh(ttl, token, user).(lastSeen := ZERO + idle)], [Idle, Idle], map[token := ZERO],
          map[token := {ZERO, ZERO + idle}], {})
  }

  lemma Revives(ttl: int, idle: int, token: string, user: string, es: seq<Event>) returns (fs: seq<Event>)
    requires MINUTE < idle < ttl && Execute(ttl, idle, 2, es) == Reached(Late(ttl, idle, token, user))
    ensures fs == es + [Check(1)] + [Purge(1, true)] + [Finish(0, false)]
    ensures Execute(ttl, idle, 2, fs) == Reached(Revived(ttl, idle, token, user))
  {
    var t := Late(ttl, idle, token, user);
    fs, t := More(ttl, idle, idle, es, t, Check(1));
    fs, t := More(ttl, idle, idle, fs, t, Purge(1, true));
    fs, t := More(ttl, idle, idle, fs, t, Finish(0, false));
    assert t.calls == [Idle, Idle] && t.uses[token] == {ZERO, ZERO + idle};
    assert t == Revived(ttl, idle, token, user);
  }

  lemma AcceptedAgain(ttl: int, idle: int, token: string, user: string, es: seq<Event>) returns (fs: seq<Event>, t: State)
    requires MINUTE < idle < ttl && Execute(ttl, idle, 2, es) == Reached(Revived(ttl, idle, token, user))
    ensures fs == es + [Load(1, token)] + [Check(1)] + [Lookup(1, true)] + [Finish(1, false)]
    ensures Execute(ttl, idle, 2, fs) == Reached(t) && token in t.uses && ZERO + idle + 1 in t.uses[token]
  {
    t := Revived(ttl, idle, token, user);
    fs, t := More(ttl, idle, idle, es, t, Load(1, token));
    fs, t := More(ttl, idle, idle, fs, t, Check(1));
    fs, t := More(ttl, idle, idle, fs, t, Lookup(1, true));
    fs, t := More(ttl, idle, idle, fs, t, Finish(1, false));
  }

  /**
   A session that call 1 finds stale, and whose delete fails, is accepted by a
   later load at the same instant, because call 0 had read the clock before the
   expiry and wrote after it.
   */
  lemma ExpiredThenAccepted(ttl: int, idle: int, token: string, user: string)
    returns (es: seq<Event>, s: State, more: seq<Event>, t: State)
    requires MINUTE < idle < ttl
    ensures Execute(ttl, idle, 2, es) == Reached(s) && token in s.store
    ensures At(s, 1) == Loaded(token, s.store[token]) && Stale(idle, s.store[token], s.clock)
    ensures more == [Check(1), Purge(1, true), Finish(0, false), Load(1, token), Check(1), Lookup(1, true), Finish(1, false)]
    ensures Execute(ttl, idle, 2, es + more) == Reached(t)
    ensures token in s.uses && s.clock !in s.uses[token] && token in t.uses && s.clock in t.uses[token]
  {
    es, s := AboutToWrite(ttl, idle, idle, token, user, idle);
    es, s := More(ttl, idle, idle, es, s, Tick(ZERO + idle + 1));
    es, s := More(ttl, idle, idle, es, s, Load(1, token));
    assert s.calls == Late(ttl, idle, token, user).calls;
    assert s == Late(ttl, idle, token, user);
    var fs := Revives(ttl, idle, token, user, es);
    fs, t := AcceptedAgain(ttl, idle, token, user, fs);
    more := [Check(1), Purge(1, true), Finish(0, false), Load(1, token), Check(1), Lookup(1, true), Finish(1, false)];
    assert fs == es + more;
  }
}
