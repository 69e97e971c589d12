/**
 Session checks that overlap. Each call loads the session, reads the clock,
 looks the user up and writes in separate steps, and any number of calls,
 logins and removals may come in between.
 */
module SessionRaces {
  import opened Clock
  import opened Sessions

  datatype Phase =
    | Idle
    | Loaded(token: string, ss: Session)
    | Checked(token: string, ss: Session, at: Time)  // not stale at the time read
    | Cleared(token: string, ss: Session, at: Time)  // and the user is enabled
    | Purging(token: string)                         // turned down, the delete is still to come

  /** uses holds, for each token, when it was created and every time at which it was accepted. */
  datatype State = State(
    clock: Time,
    store: Store,
    calls: seq<Phase>,
    born: map<string, Time>,
    uses: map<string, set<Time>>,
    gone: set<string>)

  datatype Event =
    | Tick(to: Time)
    | Create(token: string, user: string, at: Time)
    | Load(c: nat, token: string)
    | Check(c: nat)
    | Lookup(c: nat, enabled: bool)
    | Purge(c: nat, fails: bool)
    | Finish(c: nat, touchFails: bool)
    | Remove(token: string)

  function At(s: State, c: nat): Phase { if c < |s.calls| then s.calls[c] else Idle }

  predicate Enabled(s: State, e: Event) {
    match e
    case Tick(to) => s.clock <= to
    case Create(token, _, at) => token !in s.born && at <= s.clock
    case Load(c, token) => c < |s.calls| && s.calls[c].Idle? && token in s.store
    case Check(c) => At(s, c).Loaded?
    case Lookup(c, _) => At(s, c).Checked?
    case Purge(c, _) => At(s, c).Purging?
    case Finish(c, _) => At(s, c).Cleared?
    case Remove(_) => true
  }

  function Put(s: State, c: nat, p: Phase): State
    requires c < |s.calls|
  {
    s.(calls := s.calls[c := p])
  }

  function Deleted(s: State, token: string): State {
    s.(store := s.store - {token}, gone := if token in s.born then s.gone + {token} else s.gone)
  }

  /** The touch is a plain update: it writes nothing when the session is gone. */
  function Accept(s: State, c: nat, touchFails: bool): State
    requires At(s, c).Cleared? && At(s, c).token in s.uses
  {
    var p := s.calls[c];
    var t := Put(s, c, Idle).(uses := s.uses[p.token := s.uses[p.token] + {p.at}]);
    if p.at - p.ss.lastSeen > MINUTE && !touchFails && p.token in s.store then
      t.(store := s.store[p.token := s.store[p.token].(lastSeen := p.at)])
    else t
  }

  function Step(ttl: int, idle: int, s: State, e: Event): State
    requires Enabled(s, e) && (e.Finish? ==> At(s, e.c).token in s.uses)
  {
    match e
    case Tick(to) => s.(clock := to)
    case Create(token, user, at) =>
      s.(store := s.store[token := Session(user, at, at, at + ttl)], born := s.born[token := at], uses := s.uses[token := {at}])
    case Load(c, token) => Put(s, c, Loaded(token, s.store[token]))
    case Check(c) =>
      var p := s.calls[c];
      Put(s, c, if Stale(idle, p.ss, s.clock) then Purging(p.token) else Checked(p.token, p.ss, s.clock))
    case Lookup(c, enabled) =>
      var p := s.calls[c];
      Put(s, c, if enabled then Cleared(p.token, p.ss, p.at) else Purging(p.token))
    case Purge(c, fails) => if fails then Put(s, c, Idle) else Deleted(Put(s, c, Idle), s.calls[c].token)
    case Finish(c, touchFails) => Accept(s, c, touchFails)
    case Remove(token) => Deleted(s, token)
  }

  // ---- what every interleaving keeps -------------------------------------------------------

  /** A session as some call may have read it. */
  predicate SessionOk(ttl: int, s: State, token: string, ss: Session) {
    && token in s.born && token in s.uses
    && ss.expires == s.born[token] + ttl && ss.lastSeen in s.uses[token] && ss.lastSeen <= s.clock
  }

  predicate PhaseOk(ttl: int, idle: int, s: State, p: Phase) {
    match p
    case Loaded(token, ss) => SessionOk(ttl, s, token, ss)
    case Checked(token, ss, at) => SessionOk(ttl, s, token, ss) && ss.lastSeen <= at <= s.clock && !Stale(idle, ss, at)
    case Cleared(token, ss, at) => SessionOk(ttl, s, token, ss) && ss.lastSeen <= at <= s.clock && !Stale(idle, ss, at)
    case _ => true
  }

  /** An earlier use lies within the idle timeout. */
  ghost predicate Follows(idle: int, uses: set<Time>, a: Time) { exists u :: u in uses && u < a <= u + idle }

  /** Every use but the creation follows another within the idle timeout, and none is past the expiry. */
  ghost predicate Chained(ttl: int, idle: int, born: Time, uses: set<Time>) {
    forall a {:trigger Follows(idle, uses, a)} :: a in uses ==> a == born || (a <= born + ttl && Follows(idle, uses, a))
  }

  ghost predicate Inv(ttl: int, idle: int, s: State) {
    && (forall token :: token in s.store ==> SessionOk(ttl, s, token, s.store[token]) && token !in s.gone)
    && (forall token :: token in s.gone ==> token in s.born)
    && (forall token :: token in s.born && token !in s.gone ==> token in s.store)
    && (forall c :: 0 <= c < |s.calls| ==> PhaseOk(ttl, idle, s, s.calls[c]))
    && (forall token :: token in s.uses <==> token in s.born)
    && (forall token :: token in s.born && token in s.uses ==> Chained(ttl, idle, s.born[token], s.uses[token]))
  }

  lemma StillFollows(idle: int, uses: set<Time>, more: set<Time>, a: Time)
    requires Follows(idle, uses, a) && uses <= more
    ensures Follows(idle, more, a)
  {
  }

  /** An accepted use joins the chain of uses before it. */
  lemma UseIsChained(ttl: int, idle: int, born: Time, uses: set<Time>, at: Time, last: Time)
    requires Chained(ttl, idle, born, uses) && last in uses && last <= at <= last + idle && at <= born + ttl
    ensures Chained(ttl, idle, born, uses + {at})
  {
    var more := uses + {at};
    forall a | a in more ensures a == born || (a <= born + ttl && Follows(idle, more, a)) {
      if a in uses {
        if a != born {
          assert Follows(idle, uses, a);
          StillFollows(idle, uses, more, a);
        }
      } else {
        assert last in more;
      }
    }
  }

  /** Moving one call, with nothing else changed, keeps the invariant if the new phase is sound. */
  lemma PutInv(ttl: int, idle: int, s: State, c: nat, p: Phase)
    requires Inv(ttl, idle, s) && c < |s.calls| && PhaseOk(ttl, idle, s, p)
    ensures Inv(ttl, idle, Put(s, c, p))
  {
    var t := Put(s, c, p);
    forall i | 0 <= i < |t.calls| ensures PhaseOk(ttl, idle, t, t.calls[i]) {
      assert PhaseOk(ttl, idle, s, t.calls[i]);
    }
  }

  lemma DeletedInv(ttl: int, idle: int, s: State, token: string)
    requires Inv(ttl, idle, s)
    ensures Inv(ttl, idle, Deleted(s, token))
  {
    var t := Deleted(s, token);
    forall i | 0 <= i < |t.calls| ensures PhaseOk(ttl, idle, t, t.calls[i]) {
      assert PhaseOk(ttl, idle, s, s.calls[i]);
    }
  }

  lemma AcceptInv(ttl: int, idle: int, s: State, c: nat, touchFails: bool)
    requires Inv(ttl, idle, s) && At(s, c).Cleared? && At(s, c).token in s.uses
    ensures Inv(ttl, idle, Accept(s, c, touchFails))
  {
    var p, t := s.calls[c], Accept(s, c, touchFails);
    assert PhaseOk(ttl, idle, s, p);
    UseIsChained(ttl, idle, s.born[p.token], s.uses[p.token], p.at, p.ss.lastSeen);
    forall i | 0 <= i < |t.calls| ensures PhaseOk(ttl, idle, t, t.calls[i]) {
      assert PhaseOk(ttl, idle, s, s.calls[i]);
    }
  }

  lemma CreateInv(ttl: int, idle: int, s: State, e: Event)
    requires Inv(ttl, idle, s) && e.Create? && Enabled(s, e)
    ensures Inv(ttl, idle, Step(ttl, idle, s, e))
  {
    var t := Step(ttl, idle, s, e);
    forall i | 0 <= i < |t.calls| ensures PhaseOk(ttl, idle, t, t.calls[i]) {
      assert PhaseOk(ttl, idle, s, s.calls[i]);
    }
  }

  lemma TickInv(ttl: int, idle: int, s: State, to: Time)
    requires Inv(ttl, idle, s) && s.clock <= to
    ensures Inv(ttl, idle, s.(clock := to))
  {
    var t := s.(clock := to);
    forall i | 0 <= i < |t.calls| ensures PhaseOk(ttl, idle, t, t.calls[i]) {
      assert PhaseOk(ttl, idle, s, s.calls[i]);
    }
  }

  lemma CallInv(ttl: int, idle: int, s: State, e: Event)
    requires Inv(ttl, idle, s) && (e.Load? || e.Check? || e.Lookup?) && Enabled(s, e)
    ensures Inv(ttl, idle, Step(ttl, idle, s, e))
  {
    var p := At(s, e.c);
    assert PhaseOk(ttl, idle, s, p);
    match e
    case Load(c, token) => PutInv(ttl, idle, s, c, Loaded(token, s.store[token]));
    case Check(c) =>
      PutInv(ttl, idle, s, c, if Stale(idle, p.ss, s.clock) then Purging(p.token) else Checked(p.token, p.ss, s.clock));
    case Lookup(c, enabled) => PutInv(ttl, idle, s, c, if enabled then Cleared(p.token, p.ss, p.at) else Purging(p.token));
  }

  lemma ClearedIsTracked(ttl: int, idle: int, s: State, c: nat)
    requires Inv(ttl, idle, s) && At(s, c).Cleared?
    ensures At(s, c).token in s.uses
  {
    assert PhaseOk(ttl, idle, s, s.calls[c]);
  }

  lemma StepInv(ttl: int, idle: int, s: State, e: Event)
    requires Inv(ttl, idle, s) && Enabled(s, e)
    ensures e.Finish? ==> At(s, e.c).token in s.uses
    ensures Inv(ttl, idle, Step(ttl, idle, s, e))
  {
    match e
    case Tick(to) => TickInv(ttl, idle, s, to);
    case Create(_, _, _) => CreateInv(ttl, idle, s, e);
    case Purge(c, fails) =>
      PutInv(ttl, idle, s, c, Idle);
      DeletedInv(ttl, idle, Put(s, c, Idle), s.calls[c].token);
    case Finish(c, touchFails) =>
      ClearedIsTracked(ttl, idle, s, c);
      AcceptInv(ttl, idle, s, c, touchFails);
    case Remove(token) => DeletedInv(ttl, idle, s, token);
    case Load(_, _) => CallInv(ttl, idle, s, e);
    case Check(_) => CallInv(ttl, idle, s, e);
    case Lookup(_, _) => CallInv(ttl, idle, s, e);
  }

  function Init(n: nat): State { State(ZERO, map[], seq(n, _ => Idle), map[], map[], {}) }

  datatype Outcome = Impossible | Reached(state: State)

  /** The state after a run of events with n calls, if each event was possible in turn. */
  function Execute(ttl: int, idle: int, n: nat, es: seq<Event>): Outcome {
    if es == [] then Reached(Init(n))
    else
      var before, e := Execute(ttl, idle, n, es[..|es| - 1]), es[|es| - 1];
      if before.Reached? && Enabled(before.state, e) && (e.Finish? ==> At(before.state, e.c).token in before.state.uses)
      then Reached(Step(ttl, idle, before.state, e))
      else Impossible
  }

  lemma {:induction false} RunKeepsInv(ttl: int, idle: int, n: nat, es: seq<Event>)
    requires Execute(ttl, idle, n, es).Reached?
    ensures Inv(ttl, idle, Execute(ttl, idle, n, es).state)
    decreases |es|
  {
    if es != [] {
      var init := es[..|es| - 1];
      RunKeepsInv(ttl, idle, n, init);
      StepInv(ttl, idle, Execute(ttl, idle, n, init).state, es[|es| - 1]);
    }
  }

  /**
   In every interleaving, whatever touches and deletes fail: between the creation
   of a session and any accepted use of it there is no stretch longer than the
   idle timeout without an accepted use, and no use is past creation plus the
   time to live.
   */
  lemma NoUseAfterIdleOrExpiry(ttl: int, idle: int, n: nat, es: seq<Event>, token: string)
    requires Execute(ttl, idle, n, es).Reached? && token in Execute(ttl, idle, n, es).state.born
    ensures var s := Execute(ttl, idle, n, es).state;
      token in s.uses && Chained(ttl, idle, s.born[token], s.uses[token])
  {
    RunKeepsInv(ttl, idle, n, es);
  }

  lemma StaysGone(ttl: int, idle: int, s: State, e: Event)
    requires Enabled(s, e) && (e.Finish? ==> At(s, e.c).token in s.uses)
    ensures s.gone <= Step(ttl, idle, s, e).gone
  {
  }

  /** What is deleted at some point of a run stays deleted for the rest of it. */
  lemma {:induction false} GoneForGood(ttl: int, idle: int, n: nat, es: seq<Event>, more: seq<Event>)
    requires Execute(ttl, idle, n, es + more).Reached?
    ensures Execute(ttl, idle, n, es).Reached?
    ensures Execute(ttl, idle, n, es).state.gone <= Execute(ttl, idle, n, es + more).state.gone
    decreases |more|
  {
    if more == [] {
      assert es + more == es;
    } else {
      var init := more[..|more| - 1];
      assert (es + more)[..|es + more| - 1] == es + init;
      GoneForGood(ttl, idle, n, es, init);
      StaysGone(ttl, idle, Execute(ttl, idle, n, es + init).state, more[|more| - 1]);
    }
  }

  /**
   A session that was deleted is never loaded again, however the run goes on: a
   late touch does not bring it back, and its token is not reused.
   */
  lemma DeletedIsNeverLoaded(ttl: int, idle: int, n: nat, es: seq<Event>, more: seq<Event>, token: string, c: nat)
    requires Execute(ttl, idle, n, es + more).Reached? && Execute(ttl, idle, n, es).Reached?
    requires token in Execute(ttl, idle, n, es).state.gone
    ensures !Enabled(Execute(ttl, idle, n, es + more).state, Load(c, token))
    ensures forall user, at :: !Enabled(Execute(ttl, idle, n, es + more).state, Create(token, user, at))
  {
    GoneForGood(ttl, idle, n, es, more);
    RunKeepsInv(ttl, idle, n, es + more);
  }

  // ---- a call alone -----------------------------------------------------------------------

  /** The steps of one call that finds its session. */
  function Alone(ttl: int, idle: int, s: State, c: nat, token: string, enabled: bool, faults: Faults): State
    requires c < |s.calls| && s.calls[c].Idle? && token in s.store && token in s.uses
  {
    var checked := Step(ttl, idle, Step(ttl, idle, s, Load(c, token)), Check(c));
    var looked := if At(checked, c).Checked? then Step(ttl, idle, checked, Lookup(c, enabled)) else checked;
    if At(looked, c).Purging? then Step(ttl, idle, looked, Purge(c, faults.deleteFails))
    else Step(ttl, idle, looked, Finish(c, faults.touchFails))
  }

  /** With no other call in between, the steps do what the whole call does at once. */
  lemma AloneIsAtomic(ttl: int, idle: int, s: State, c: nat, token: string, enabled: bool, faults: Faults)
    requires c < |s.calls| && s.calls[c].Idle? && token in s.store && token in s.uses && token != "" && !faults.readFails
    ensures var t := Alone(ttl, idle, s, c, token, enabled, faults);
      && t.store == After(idle, s.store, token, s.clock, enabled, faults)
      && t.calls == s.calls && t.clock == s.clock
      && t.uses[token] == s.uses[token] + if Answer(idle, s.store, token, s.clock, enabled, false).Accepted? then {s.clock} else {}
  {
    var ss := s.store[token];
    var t := Alone(ttl, idle, s, c, token, enabled, faults);
    assert t.calls == s.calls;
    if Stale(idle, ss, s.clock) || !enabled {
      assert t.uses[token] == s.uses[token] + {};
    }
  }
}
