/**
 Login sessions with an absolute expiry and a sliding idle window that is
 written at most once a minute; calls one after another.
 */
module Sessions {
  import opened Clock

  /** Tokens stand for their hashes. */
  datatype Session = Session(user: string, created: Time, lastSeen: Time, expires: Time)

  type Store = map<string, Session>

  /** Which of the store's answers arrive; the service ignores a failed touch or delete. */
  datatype Faults = Faults(readFails: bool, touchFails: bool, deleteFails: bool)

  datatype Result = Accepted(user: string) | Unauthenticated | Expired | Failed

  predicate Stale(idle: int, ss: Session, now: Time) { now > ss.expires || now - ss.lastSeen > idle }

  function Touched(ss: Session, now: Time): Session { if now - ss.lastSeen > MINUTE then ss.(lastSeen := now) else ss }

  function Answer(idle: int, store: Store, token: string, now: Time, enabled: bool, readFails: bool): Result {
    if token == "" then Unauthenticated
    else if readFails then Failed
    else if token !in store then Unauthenticated
    else if Stale(idle, store[token], now) then Expired
    else if !enabled then Unauthenticated
    else Accepted(store[token].user)
  }

  function After(idle: int, store: Store, token: string, now: Time, enabled: bool, faults: Faults): Store {
    if token == "" || faults.readFails || token !in store then store
    else if Stale(idle, store[token], now) || !enabled then (if faults.deleteFails then store else store - {token})
    else if faults.touchFails then store
    else store[token := Touched(store[token], now)]
  }

  class Service {
    const ttl: int
    const idle: int
    var sessions: Store

    constructor (ttl: int, idle: int)
      ensures this.ttl == ttl && this.idle == idle && sessions == map[]
    {
      this.ttl, this.idle, sessions := ttl, idle, map[];
    }

    /** The session Login creates once the password is accepted; a token in use is refused by the store. */
    method CreateSession(token: string, user: string, now: Time) returns (ok: bool)
      modifies this
      ensures ok <==> token !in old(sessions)
      ensures sessions == if ok then old(sessions)[token := Session(user, now, now, now + ttl)] else old(sessions)
    {
      ok := token !in sessions;
      if ok {
        sessions := sessions[token := Session(user, now, now, now + ttl)];
      }
    }

    method AuthenticateSession(token: string, now: Time, enabled: bool, faults: Faults) returns (r: Result)
      modifies this
      ensures r == Answer(idle, old(sessions), token, now, enabled, faults.readFails)
      ensures sessions == After(idle, old(sessions), token, now, enabled, faults)
      ensures r.Expired? && !faults.deleteFails ==> token !in sessions
    {
      if token == "" {
        return Unauthenticated;
      }
      if faults.readFails {
        return Failed;
      }
      if token !in sessions {
        return Unauthenticated;
      }
      var ss := sessions[token];
      if now > ss.expires || now - ss.lastSeen > idle {
        Delete(token, faults.deleteFails);
        return Expired;
      }
      if !enabled {
        Delete(token, faults.deleteFails);
        return Unauthenticated;
      }
      if now - ss.lastSeen > MINUTE && !faults.touchFails {
        sessions := sessions[token := ss.(lastSeen := now)];
      }
      return Accepted(ss.user);
    }

    method Delete(token: string, fails: bool)
      modifies this
      ensures sessions == if fails then old(sessions) else old(sessions) - {token}
    {
      if !fails {
        sessions := sessions - {token};
      }
    }

    /** What a changed password revokes: every session of the user but the one it came from. */
    method DeleteUserSessions(user: string, except: string, fails: bool)
      modifies this
      ensures sessions == if fails then old(sessions) else Revoked(old(sessions), user, except)
    {
      if !fails {
        sessions := map token | token in sessions && !(sessions[token].user == user && token != except) :: sessions[token];
      }
    }
  }

  function Revoked(store: Store, user: string, except: string): Store {
    map token | token in store && !(store[token].user == user && token != except) :: store[token]
  }

  // ---- runs ---------------------------------------------------------------------------

  datatype Op =
    | Login(token: string, user: string)
    | Use(token: string, enabled: bool, faults: Faults)
    | Logout(token: string, fails: bool)
    | ChangePassword(user: string, except: string, fails: bool)
    | Pass

  datatype Call = Call(at: Time, op: Op)

  /** The store, and for each token whose it is, when it was created, when it was last accepted, and whether it ended. */
  datatype History = History(
    store: Store,
    clock: Time,
    owner: map<string, string>,
    born: map<string, Time>,
    used: map<string, Time>,
    ended: set<string>)

  function StoreAfter(ttl: int, idle: int, store: Store, c: Call): Store {
    match c.op
    case Login(token, user) => store[token := Session(user, c.at, c.at, c.at + ttl)]
    case Use(token, enabled, faults) => After(idle, store, token, c.at, enabled, faults)
    case Logout(token, fails) => if fails then store else store - {token}
    case ChangePassword(user, except, fails) => if fails then store else Revoked(store, user, except)
    case Pass => store
  }

  /**
   The tokens a call is to end, whatever the store does: one that is reported
   expired, is used by a disabled user or logs out, and with a changed password
   all of the user but the one it came from.
   */
  function EndedBy(h: History, c: Call, r: Result): set<string> {
    match c.op
    case Use(token, enabled, faults) =>
      if r.Expired? || (token in h.owner && !enabled && !faults.readFails && !faults.deleteFails) then {token} else {}
    case Logout(token, fails) => if token in h.owner && !fails then {token} else {}
    case ChangePassword(user, except, fails) =>
      if fails then {} else set token | token in h.owner && h.owner[token] == user && token != except
    case _ => {}
  }

  /** What a call answers; only a use answers anything. */
  function AnswerTo(idle: int, h: History, c: Call): Result {
    if c.op.Use? then Answer(idle, h.store, c.op.token, c.at, c.op.enabled, c.op.faults.readFails) else Unauthenticated
  }

  function Next(ttl: int, idle: int, h: History, c: Call): History {
    var r := AnswerTo(idle, h, c);
    var t := h.(clock := c.at, store := StoreAfter(ttl, idle, h.store, c), ended := h.ended + EndedBy(h, c, r));
    if c.op.Login? then
      t.(owner := h.owner[c.op.token := c.op.user], born := h.born[c.op.token := c.at], used := h.used[c.op.token := c.at])
    else if r.Accepted? then t.(used := h.used[c.op.token := c.at])
    else t
  }

  /** The clock does not go back, and a login draws a token never used before. */
  predicate Possible(h: History, c: Call) {
    h.clock <= c.at && (c.op.Login? ==> c.op.token !in h.born && c.op.token != "")
  }

  function Run(ttl: int, idle: int, cs: seq<Call>): History {
    if cs == [] then History(map[], ZERO, map[], map[], map[], {})
    else Next(ttl, idle, Run(ttl, idle, cs[..|cs| - 1]), cs[|cs| - 1])
  }

  predicate PossibleRun(ttl: int, idle: int, cs: seq<Call>) {
    cs != [] ==> PossibleRun(ttl, idle, cs[..|cs| - 1]) && Possible(Run(ttl, idle, cs[..|cs| - 1]), cs[|cs| - 1])
  }

  predicate TouchesSucceed(cs: seq<Call>) { forall i :: 0 <= i < |cs| && cs[i].op.Use? ==> !cs[i].op.faults.touchFails }

  /** What is known of a stored session. */
  predicate Tracked(ttl: int, h: History, token: string) {
    token in h.store ==>
      && token in h.born && token in h.used && token in h.owner
      && h.store[token].user == h.owner[token]
      && h.store[token].created == h.born[token] && h.store[token].expires == h.born[token] + ttl
      && h.store[token].lastSeen <= h.used[token] <= h.clock
  }

  /** The stored time lags the last accepted use by at most a minute. */
  predicate Close(h: History, token: string) {
    token in h.store && token in h.used ==> h.used[token] <= h.store[token].lastSeen + MINUTE
  }

  /** A session that ended is gone or stale for good, and one that did not end is stored. */
  predicate StaysEnded(idle: int, h: History, token: string) {
    && (token in h.born <==> token in h.owner) && (token in h.born ==> token != "")
    && (token in h.ended ==> token in h.born && (token in h.store ==> Stale(idle, h.store[token], h.clock)))
    && (token in h.born && token !in h.ended ==> token in h.store)
  }

  lemma StepTracks(ttl: int, idle: int, h: History, c: Call, token: string)
    requires Possible(h, c) && Tracked(ttl, h, token)
    ensures Tracked(ttl, Next(ttl, idle, h, c), token)
    ensures Close(h, token) && !(c.op.Use? && c.op.faults.touchFails) ==> Close(Next(ttl, idle, h, c), token)
    ensures StaysEnded(idle, h, token) ==> StaysEnded(idle, Next(ttl, idle, h, c), token)
  {
  }

  lemma {:induction false} RunTracks(ttl: int, idle: int, cs: seq<Call>, token: string)
    requires PossibleRun(ttl, idle, cs)
    ensures Tracked(ttl, Run(ttl, idle, cs), token) && StaysEnded(idle, Run(ttl, idle, cs), token)
    ensures TouchesSucceed(cs) ==> Close(Run(ttl, idle, cs), token)
    decreases |cs|
  {
    if cs != [] {
      RunTracks(ttl, idle, cs[..|cs| - 1], token);
      StepTracks(ttl, idle, Run(ttl, idle, cs[..|cs| - 1]), cs[|cs| - 1], token);
    }
  }

  /**
   In every run, whatever touches and deletes fail: a session is accepted only
   within the idle timeout of its last accepted use, never after creation plus
   the time to live, and never again once it was reported expired, logged out or
   revoked; and only for the user who logged in.
   */
  lemma AcceptedOnlyWhileAlive(ttl: int, idle: int, cs: seq<Call>, token: string, now: Time, enabled: bool, readFails: bool)
    requires PossibleRun(ttl, idle, cs) && Run(ttl, idle, cs).clock <= now
    requires Answer(idle, Run(ttl, idle, cs).store, token, now, enabled, readFails).Accepted?
    ensures var h := Run(ttl, idle, cs);
      && token in h.born && token in h.used && token in h.owner && enabled
      && Answer(idle, h.store, token, now, enabled, readFails).user == h.owner[token]
      && now <= h.used[token] + idle && now <= h.born[token] + ttl && token !in h.ended
  {
    RunTracks(ttl, idle, cs, token);
  }

  /**
   In every run whose touches succeed, the stored last-seen time is at most one
   minute below the last accepted use; so a session of an enabled user that did
   not end, used within the idle timeout less a minute and not past its expiry,
   is accepted.
   */
  lemma AcceptedWhileInUse(ttl: int, idle: int, cs: seq<Call>, token: string, now: Time)
    requires PossibleRun(ttl, idle, cs) && TouchesSucceed(cs) && Run(ttl, idle, cs).clock <= now
    requires token in Run(ttl, idle, cs).born && token !in Run(ttl, idle, cs).ended
    ensures var h := Run(ttl, idle, cs);
      && token in h.store && token in h.used && token in h.owner
      && 0 <= h.used[token] - h.store[token].lastSeen <= MINUTE
      && (now <= h.used[token] + idle - MINUTE && now <= h.born[token] + ttl
          ==> Answer(idle, h.store, token, now, true, false) == Accepted(h.owner[token]))
  {
    RunTracks(ttl, idle, cs, token);
  }

  /**
   In every run, a changed password ends every session of the user but the one it
   came from: none of them is stored afterwards, and every other session is stored
   exactly as it was.
   */
  lemma ChangedPasswordRevokesTheOthers(ttl: int, idle: int, cs: seq<Call>, at: Time, user: string, except: string, token: string)
    requires PossibleRun(ttl, idle, cs) && Run(ttl, idle, cs).clock <= at && token in Run(ttl, idle, cs).owner
    ensures var h, after := Run(ttl, idle, cs), Run(ttl, idle, cs + [Call(at, ChangePassword(user, except, false))]);
      && (h.owner[token] == user && token != except ==> token !in after.store && token in after.ended)
      && (h.owner[token] != user || token == except ==>
            (token in after.ended <==> token in h.ended) && SameSession(h.store, after.store, token))
  {
    var more := cs + [Call(at, ChangePassword(user, except, false))];
    assert more[..|more| - 1] == cs;
    RunTracks(ttl, idle, cs, token);
  }

  predicate SameSession(a: Store, b: Store, token: string) {
    (token in a <==> token in b) && (token in a ==> a[token] == b[token])
  }
}
