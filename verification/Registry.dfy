/**
 The set of forwarders in use: Start, Reconcile and Stop over a list that is
 swapped as a whole, and what every sequence of them keeps.
 */
module Registry {

  /** One forwarder; the identity tells a rebuilt one from the one it replaces. */
  datatype Forwarder = Forwarder(id: nat, name: string)

  datatype Target = Target(name: string, settings: string, origin: string, enabled: bool)

  /** The registry's fields, and what was built, started and stopped so far. */
  datatype State = State(
    current: seq<Forwarder>,
    desired: map<string, Target>,
    live: bool,
    next: nat,
    starts: multiset<Forwarder>,
    stops: multiset<Forwarder>)

  const EMPTY := State([], map[], false, 0, multiset{}, multiset{})

  /** The running forwarders by name; of two with one name the later counts. */
  function Running(current: seq<Forwarder>): (m: map<string, Forwarder>)
    ensures forall name :: name in m ==> m[name] in current && m[name].name == name
    ensures forall f :: f in current ==> f.name in m
  {
    if current == [] then map[]
    else
      var f := current[|current| - 1];
      Running(current[..|current| - 1])[f.name := f]
  }

  predicate Unchanged(s: State, t: Target) {
    t.name in s.desired && t.name in Running(s.current) && s.desired[t.name] == t
  }

  // ---- Reconcile as a function ------------------------------------------------------

  datatype Work = Work(next: seq<Forwarder>, keep: set<string>, desired: map<string, Target>, starts: multiset<Forwarder>, id: nat)

  /** One more target placed. */
  function Place(s: State, w: Work, t: Target, fails: bool): Work {
    var v := w.(desired := w.desired[t.name := t]);
    if !t.enabled then v
    else if Unchanged(s, t) then v.(next := v.next + [Running(s.current)[t.name]], keep := v.keep + {t.name})
    else if fails then v
    else
      var f := Forwarder(v.id, t.name);
      v.(next := v.next + [f], keep := v.keep + {t.name}, id := v.id + 1,
         starts := if s.live then v.starts + multiset{f} else v.starts)
  }

  /** The first n targets placed; `failing` holds the positions of targets that cannot be built. */
  function Placed(s: State, targets: seq<Target>, failing: set<nat>, n: nat): Work
    requires n <= |targets|
  {
    if n == 0 then Work([], {}, map[], s.starts, s.next)
    else Place(s, Placed(s, targets, failing, n - 1), targets[n - 1], n - 1 in failing)
  }

  function Unkept(current: seq<Forwarder>, keep: set<string>): set<Forwarder> {
    set name | name in Running(current) && name !in keep :: Running(current)[name]
  }

  function Reconciled(s: State, targets: seq<Target>, failing: set<nat>): State {
    var w := Placed(s, targets, failing, |targets|);
    State(w.next, w.desired, s.live, w.id, w.starts, s.stops + multiset(Unkept(s.current, w.keep)))
  }

  function Started(s: State): State { s.(live := true, starts := s.starts + multiset(s.current)) }

  function Stopped(s: State): State { s.(current := [], stops := s.stops + multiset(s.current)) }

  lemma OneMore(fs: seq<Forwarder>, i: nat)
    requires i < |fs|
    ensures multiset(fs[..i + 1]) == multiset(fs[..i]) + multiset{fs[i]}
  {
    assert fs[..i + 1] == fs[..i] + [fs[i]];
  }

  // ---- the registry -------------------------------------------------------------------

  /** The forwarders outside the registry: what was built, started and stopped. */
  class Forwarders {
    var next: nat
    var starts: multiset<Forwarder>
    var stops: multiset<Forwarder>

    constructor ()
      ensures next == 0 && starts == multiset{} && stops == multiset{}
    {
      next, starts, stops := 0, multiset{}, multiset{};
    }

    method Build(name: string) returns (f: Forwarder)
      modifies this
      ensures f == Forwarder(old(next), name) && next == old(next) + 1 && starts == old(starts) && stops == old(stops)
    {
      f := Forwarder(next, name);
      next := next + 1;
    }

    method Start(f: Forwarder)
      modifies this
      ensures next == old(next) && starts == old(starts) + multiset{f} && stops == old(stops)
    {
      starts := starts + multiset{f};
    }

    method Stop(f: Forwarder)
      modifies this
      ensures next == old(next) && starts == old(starts) && stops == old(stops) + multiset{f}
    {
      stops := stops + multiset{f};
    }
  }

  class Registry {
    const forwarders: Forwarders
    var current: seq<Forwarder>
    var desired: map<string, Target>
    var started: bool

    ghost function Snapshot(): State
      reads this, forwarders
    {
      State(current, desired, started, forwarders.next, forwarders.starts, forwarders.stops)
    }

    constructor ()
      ensures fresh(forwarders) && Snapshot() == EMPTY
    {
      forwarders := new Forwarders();
      current, desired, started := [], map[], false;
    }

    method Start()
      modifies this, forwarders
      ensures Snapshot() == Started(old(Snapshot()))
    {
      started := true;
      var fs := current;
      for i := 0 to |fs|
        invariant current == fs && desired == old(desired) && started
        invariant forwarders.next == old(forwarders.next) && forwarders.stops == old(forwarders.stops)
        invariant forwarders.starts == old(forwarders.starts) + multiset(fs[..i])
      {
        forwarders.Start(fs[i]);
        OneMore(fs, i);
      }
      assert fs[..|fs|] == fs;
    }

    method Reconcile(targets: seq<Target>, failing: set<nat>)
      modifies this, forwarders
      ensures Snapshot() == Reconciled(old(Snapshot()), targets, failing)
    {
      ghost var s := Snapshot();
      var running := ByName();
      var next, keep, wanted := [], {}, map[];
      for i := 0 to |targets|
        invariant current == s.current && desired == s.desired && started == s.live && forwarders.stops == s.stops
        invariant Work(next, keep, wanted, forwarders.starts, forwarders.next) == Placed(s, targets, failing, i)
      {
        next, keep, wanted := PlaceTarget(s, targets[i], i in failing, running, next, keep, wanted);
      }
      current, desired := next, wanted;
      StopUnkept(s.current, running, keep);
    }

    /** One turn of Reconcile's loop. */
    method PlaceTarget(ghost s: State, t: Target, fails: bool, running: map<string, Forwarder>, next0: seq<Forwarder>,
                       keep0: set<string>, wanted0: map<string, Target>)
      returns (next: seq<Forwarder>, keep: set<string>, wanted: map<string, Target>)
      requires running == Running(s.current) && desired == s.desired && started == s.live
      modifies forwarders
      ensures Work(next, keep, wanted, forwarders.starts, forwarders.next)
           == Place(s, Work(next0, keep0, wanted0, old(forwarders.starts), old(forwarders.next)), t, fails)
      ensures forwarders.stops == old(forwarders.stops)
    {
      next, keep, wanted := next0, keep0, wanted0[t.name := t];
      if !t.enabled {
        return;
      }
      if t.name in desired && t.name in running && desired[t.name] == t {
        next, keep := next + [running[t.name]], keep + {t.name};
        return;
      }
      if fails {
        return;
      }
      var f := forwarders.Build(t.name);
      if started {
        forwarders.Start(f);
      }
      next, keep := next + [f], keep + {t.name};
    }

    method ByName() returns (running: map<string, Forwarder>)
      ensures running == Running(current)
    {
      running := map[];
      for i := 0 to |current|
        invariant running == Running(current[..i])
      {
        assert current[..i + 1][..i] == current[..i];
        running := running[current[i].name := current[i]];
      }
      assert current[..|current|] == current;
    }

    /** Stops what is running and not kept, in any order. */
    method StopUnkept(ghost was: seq<Forwarder>, running: map<string, Forwarder>, keep: set<string>)
      requires running == Running(was)
      modifies forwarders
      ensures forwarders.next == old(forwarders.next) && forwarders.starts == old(forwarders.starts)
      ensures forwarders.stops == old(forwarders.stops) + multiset(Unkept(was, keep))
    {
      var todo := running.Keys - keep;
      ghost var done: set<Forwarder> := {};
      while todo != {}
        invariant todo <= running.Keys - keep
        invariant done == set name | name in running && name !in keep && name !in todo :: running[name]
        invariant forwarders.next == old(forwarders.next) && forwarders.starts == old(forwarders.starts)
        invariant forwarders.stops == old(forwarders.stops) + multiset(done)
        decreases todo
      {
        var name :| name in todo;
        forwarders.Stop(running[name]);
        assert running[name] !in done;
        done, todo := done + {running[name]}, todo - {name};
      }
      assert done == Unkept(was, keep);
    }

    method Stop()
      modifies this, forwarders
      ensures Snapshot() == Stopped(old(Snapshot()))
    {
      var fs := current;
      for i := 0 to |fs|
        invariant current == fs && desired == old(desired) && started == old(started)
        invariant forwarders.next == old(forwarders.next) && forwarders.starts == old(forwarders.starts)
        invariant forwarders.stops == old(forwarders.stops) + multiset(fs[..i])
      {
        forwarders.Stop(fs[i]);
        OneMore(fs, i);
      }
      assert fs[..|fs|] == fs;
      current := [];
    }
  }
}
