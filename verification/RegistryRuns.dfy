/** What every sequence of Start, Reconcile and Stop keeps, for targets with distinct names. */
module RegistryRuns {
  import opened Registry

  predicate DistinctTargets(targets: seq<Target>) {
    forall i, j :: 0 <= i < j < |targets| ==> targets[i].name != targets[j].name
  }

  predicate DistinctForwarders(fs: seq<Forwarder>) {
    forall i, j :: 0 <= i < j < |fs| ==> fs[i].name != fs[j].name && fs[i].id != fs[j].id
  }

  predicate HasName(fs: seq<Forwarder>, name: string) { exists f :: f in fs && f.name == name }

  /** Names and identities are distinct, and nothing current was stopped. */
  ghost predicate Sound(s: State) {
    && DistinctForwarders(s.current)
    && (forall f :: f in s.current ==> f.id < s.next && s.stops[f] == 0 && (if s.live then s.starts[f] >= 1 else s.starts[f] == 0))
    && (forall f: Forwarder :: f.id >= s.next ==> s.starts[f] == 0 && s.stops[f] == 0)
    && (forall f: Forwarder :: s.stops[f] <= 1)
  }

  /** With distinct names, the forwarder found by name is the one in the list. */
  lemma RunningFinds(fs: seq<Forwarder>, f: Forwarder)
    requires DistinctForwarders(fs) && f in fs
    ensures f.name in Running(fs) && Running(fs)[f.name] == f
  {
  }

  // ---- one Reconcile ------------------------------------------------------------------

  /** What placing targets keeps. */
  ghost predicate PlacedOk(s: State, w: Work) {
    && DistinctForwarders(w.next)
    && s.next <= w.id
    && (forall f :: f in w.next ==> f.name in w.keep)
    && (forall name :: name in w.keep ==> HasName(w.next, name))
    && (forall f :: f in w.next ==> f in s.current || s.next <= f.id < w.id)
    && (forall f: Forwarder :: f.id < s.next ==> w.starts[f] == s.starts[f])
    && (forall f: Forwarder :: f.id >= w.id ==> w.starts[f] == 0)
    && (forall f :: f in w.next && s.next <= f.id ==> w.starts[f] == if s.live then 1 else 0)
  }

  lemma NameKept(w: Work, f: Forwarder, v: Work)
    requires forall name :: name in w.keep ==> HasName(w.next, name)
    requires v.next == w.next + [f] && v.keep == w.keep + {f.name}
    ensures forall name :: name in v.keep ==> HasName(v.next, name)
  {
    forall name | name in v.keep ensures HasName(v.next, name) {
      if name == f.name {
        assert f in v.next;
      } else {
        var g :| g in w.next && g.name == name;
        assert g in v.next;
      }
    }
  }

  lemma KeepOne(s: State, w: Work, f: Forwarder, v: Work)
    requires Sound(s) && PlacedOk(s, w) && f in s.current && f.name !in w.keep
    requires v == w.(next := w.next + [f], keep := w.keep + {f.name}, desired := v.desired)
    ensures PlacedOk(s, v)
  {
    NameKept(w, f, v);
    forall g | g in w.next ensures g.id != f.id && g.name != f.name {
      if g in s.current {
        var i, j :| 0 <= i < |s.current| && 0 <= j < |s.current| && s.current[i] == f && s.current[j] == g;
      }
    }
  }

  lemma BuildOne(s: State, w: Work, f: Forwarder, v: Work)
    requires Sound(s) && PlacedOk(s, w) && f.id == w.id && f.name !in w.keep
    requires v == w.(next := w.next + [f], keep := w.keep + {f.name}, desired := v.desired, id := w.id + 1,
                     starts := if s.live then w.starts + multiset{f} else w.starts)
    ensures PlacedOk(s, v)
  {
    NameKept(w, f, v);
  }

  lemma PlaceOne(s: State, w: Work, t: Target, fails: bool)
    requires Sound(s) && PlacedOk(s, w) && t.name !in w.keep
    ensures PlacedOk(s, Place(s, w, t, fails)) && Place(s, w, t, fails).keep <= w.keep + {t.name}
  {
    var v := Place(s, w, t, fails);
    if t.enabled && Unchanged(s, t) {
      KeepOne(s, w, Running(s.current)[t.name], v);
    } else if t.enabled && !fails {
      BuildOne(s, w, Forwarder(w.id, t.name), v);
    }
  }

  lemma {:induction false} PlacingIsOk(s: State, targets: seq<Target>, failing: set<nat>, n: nat)
    requires Sound(s) && DistinctTargets(targets) && n <= |targets|
    ensures PlacedOk(s, Placed(s, targets, failing, n))
    ensures forall i :: n <= i < |targets| ==> targets[i].name !in Placed(s, targets, failing, n).keep
  {
    if n > 0 {
      PlacingIsOk(s, targets, failing, n - 1);
      PlaceOne(s, Placed(s, targets, failing, n - 1), targets[n - 1], n - 1 in failing);
    }
  }

  /** Reconcile stops exactly the forwarders whose name is no longer current. */
  lemma ReconcileStops(s: State, targets: seq<Target>, failing: set<nat>, f: Forwarder)
    requires Sound(s) && DistinctTargets(targets)
    ensures var r := Reconciled(s, targets, failing);
      r.stops[f] == s.stops[f] + if f in s.current && !HasName(r.current, f.name) then 1 else 0
  {
    var w := Placed(s, targets, failing, |targets|);
    PlacingIsOk(s, targets, failing, |targets|);
    assert f.name in w.keep <==> HasName(w.next, f.name);
    if f in s.current {
      RunningFinds(s.current, f);
    }
    assert f in Unkept(s.current, w.keep) <==> f in s.current && f.name !in w.keep;
  }

  predicate Selected(s: State, targets: seq<Target>, failing: set<nat>, i: nat)
    requires i < |targets|
  {
    targets[i].enabled && (Unchanged(s, targets[i]) || i !in failing)
  }

  /** The forwarder a selected target ends up with: the running one if it did not change, else a new one. */
  predicate Serves(s: State, t: Target, f: Forwarder) {
    && f.name == t.name
    && (if Unchanged(s, t) then f in s.current else s.next <= f.id)
  }

  predicate Picked(s: State, targets: seq<Target>, failing: set<nat>, i: nat, f: Forwarder)
    requires i < |targets|
  {
    Selected(s, targets, failing, i) && Serves(s, targets[i], f)
  }

  /** `from` maps each forwarder to its target: in order, and leaving out no target that is to run. */
  predicate Matches(s: State, targets: seq<Target>, failing: set<nat>, n: nat, next: seq<Forwarder>, from: seq<nat>)
    requires n <= |targets|
  {
    && |from| == |next|
    && (forall k :: 0 <= k < |from| ==> from[k] < n && Picked(s, targets, failing, from[k], next[k]))
    && (forall j, k :: 0 <= j < k < |from| ==> from[j] < from[k])
    && (forall i :: 0 <= i < n && Selected(s, targets, failing, i) ==> i in from)
  }

  lemma MatchOne(s: State, targets: seq<Target>, failing: set<nat>, n: nat, next: seq<Forwarder>, from: seq<nat>, f: Forwarder)
    requires n < |targets| && Matches(s, targets, failing, n, next, from) && Picked(s, targets, failing, n, f)
    ensures Matches(s, targets, failing, n + 1, next + [f], from + [n])
  {
    forall i | 0 <= i < n + 1 && Selected(s, targets, failing, i) ensures i in from + [n] {
      if i < n {
        assert i in from;
      }
    }
  }

  /**
   The current list is, in order, the enabled targets that were unchanged or
   could be built, and an unchanged target keeps the very same forwarder.
   */
  lemma {:induction false} ReconcileSelects(s: State, targets: seq<Target>, failing: set<nat>, n: nat) returns (from: seq<nat>)
    requires n <= |targets|
    ensures s.next <= Placed(s, targets, failing, n).id
    ensures Matches(s, targets, failing, n, Placed(s, targets, failing, n).next, from)
  {
    if n == 0 {
      from := [];
    } else {
      from := ReconcileSelects(s, targets, failing, n - 1);
      var w, v := Placed(s, targets, failing, n - 1), Placed(s, targets, failing, n);
      if Selected(s, targets, failing, n - 1) {
        MatchOne(s, targets, failing, n - 1, w.next, from, v.next[|w.next|]);
        from := from + [n - 1];
      }
    }
  }

  // ---- runs -------------------------------------------------------------------------------

  datatype Op = Start | Reconcile(targets: seq<Target>, failing: set<nat>) | Stop

  function Apply(s: State, op: Op): State {
    match op
    case Start => Started(s)
    case Reconcile(targets, failing) => Reconciled(s, targets, failing)
    case Stop => Stopped(s)
  }

  predicate Proper(op: Op) { op.Reconcile? ==> DistinctTargets(op.targets) }

  predicate AllProper(ops: seq<Op>) { forall i :: 0 <= i < |ops| ==> Proper(ops[i]) }

  function Run(ops: seq<Op>): State {
    if ops == [] then EMPTY else Apply(Run(ops[..|ops| - 1]), ops[|ops| - 1])
  }

  lemma OnceInList(fs: seq<Forwarder>, f: Forwarder)
    requires DistinctForwarders(fs)
    ensures multiset(fs)[f] == if f in fs then 1 else 0
  {
    if f in fs {
      var i :| 0 <= i < |fs| && fs[i] == f;
      assert fs == fs[..i] + [f] + fs[i + 1..];
      assert f !in fs[..i] && f !in fs[i + 1..];
    }
  }

  lemma ReconcileSound(s: State, targets: seq<Target>, failing: set<nat>)
    requires Sound(s) && DistinctTargets(targets)
    ensures Sound(Reconciled(s, targets, failing))
  {
    var r := Reconciled(s, targets, failing);
    PlacingIsOk(s, targets, failing, |targets|);
    forall f: Forwarder
      ensures r.stops[f] == s.stops[f] + if f in s.current && !HasName(r.current, f.name) then 1 else 0
    {
      ReconcileStops(s, targets, failing, f);
    }
  }

  lemma ApplySound(s: State, op: Op)
    requires Sound(s) && Proper(op)
    ensures Sound(Apply(s, op))
  {
    forall f: Forwarder ensures multiset(s.current)[f] == if f in s.current then 1 else 0 {
      OnceInList(s.current, f);
    }
    if op.Reconcile? {
      ReconcileSound(s, op.targets, op.failing);
    }
  }

  /**
   In every run: identities and names are distinct, no current forwarder is
   stopped, every current forwarder of a live registry was started, and none is
   stopped twice.
   */
  lemma {:induction false} RunIsSound(ops: seq<Op>)
    requires AllProper(ops)
    ensures Sound(Run(ops))
    decreases |ops|
  {
    if ops != [] {
      RunIsSound(ops[..|ops| - 1]);
      ApplySound(Run(ops[..|ops| - 1]), ops[|ops| - 1]);
    }
  }

  // ---- what is kept ------------------------------------------------------------------------

  lemma PlaceAdds(s: State, w: Work, t: Target, fails: bool)
    ensures w.next <= Place(s, w, t, fails).next && Place(s, w, t, fails).desired == w.desired[t.name := t]
  {
  }

  /** The forwarder of target i, once it is placed, stays in the list. */
  lemma {:induction false} PlacedStays(s: State, targets: seq<Target>, failing: set<nat>, i: nat, n: nat)
    requires i <= n <= |targets|
    ensures Placed(s, targets, failing, i).next <= Placed(s, targets, failing, n).next
    decreases n - i
  {
    if i < n {
      PlacedStays(s, targets, failing, i, n - 1);
      PlaceAdds(s, Placed(s, targets, failing, n - 1), targets[n - 1], n - 1 in failing);
    }
  }

  /** Target t asks for f's name, enabled and exactly as it was asked for before. */
  predicate AsksAgain(s: State, f: Forwarder, t: Target) {
    t.enabled && t.name == f.name && t.name in s.desired && s.desired[t.name] == t
  }

  lemma StaysWhenAsked(s: State, targets: seq<Target>, failing: set<nat>, f: Forwarder, i: nat)
    requires Sound(s) && f in s.current && i < |targets| && AsksAgain(s, f, targets[i])
    ensures f in Reconciled(s, targets, failing).current
  {
    RunningFinds(s.current, f);
    assert f in Placed(s, targets, failing, i + 1).next;
    PlacedStays(s, targets, failing, i + 1, |targets|);
  }

  lemma AskedWhenItStays(s: State, targets: seq<Target>, failing: set<nat>, f: Forwarder) returns (t: Target)
    requires Sound(s) && f in s.current && f in Reconciled(s, targets, failing).current
    ensures t in targets && AsksAgain(s, f, t)
  {
    var r := Reconciled(s, targets, failing);
    var k :| 0 <= k < |r.current| && r.current[k] == f;
    var from := ReconcileSelects(s, targets, failing, |targets|);
    assert Picked(s, targets, failing, from[k], f);
    t := targets[from[k]];
  }

  /**
   A running forwarder stays if and only if its target is asked for again exactly
   as it was, whether or not the registry is live and whatever can be built.
   */
  lemma StaysIffAskedForAgain(s: State, targets: seq<Target>, failing: set<nat>, f: Forwarder)
    requires Sound(s) && f in s.current
    ensures f in Reconciled(s, targets, failing).current <==> exists t :: t in targets && AsksAgain(s, f, t)
  {
    if t :| t in targets && AsksAgain(s, f, t) {
      var i :| 0 <= i < |targets| && targets[i] == t;
      StaysWhenAsked(s, targets, failing, f, i);
    }
    if f in Reconciled(s, targets, failing).current {
      var t := AskedWhenItStays(s, targets, failing, f);
    }
  }

  /** Everything asked for is remembered as it was asked for. */
  lemma {:induction false} PlacedDesires(s: State, targets: seq<Target>, failing: set<nat>, n: nat)
    requires DistinctTargets(targets) && n <= |targets|
    ensures forall i :: 0 <= i < n ==>
      targets[i].name in Placed(s, targets, failing, n).desired && Placed(s, targets, failing, n).desired[targets[i].name] == targets[i]
  {
    if n > 0 {
      PlacedDesires(s, targets, failing, n - 1);
      PlaceAdds(s, Placed(s, targets, failing, n - 1), targets[n - 1], n - 1 in failing);
    }
  }

  /** No target that went without a forwarder can be built now. */
  predicate NothingNew(current: seq<Forwarder>, targets: seq<Target>, failing: set<nat>) {
    forall i :: 0 <= i < |targets| && targets[i].enabled && !HasName(current, targets[i].name) ==> i in failing
  }

  lemma SelectedHasName(s: State, targets: seq<Target>, failing: set<nat>, n: nat)
    requires n < |targets| && Selected(s, targets, failing, n)
    ensures HasName(Reconciled(s, targets, failing).current, targets[n].name)
  {
    var r := Reconciled(s, targets, failing);
    var from := ReconcileSelects(s, targets, failing, |targets|);
    var k :| 0 <= k < |from| && from[k] == n;
    assert Picked(s, targets, failing, n, r.current[k]);
  }

  lemma NamedIsSelected(s: State, targets: seq<Target>, failing: set<nat>, n: nat)
    requires DistinctTargets(targets) && n < |targets| && HasName(Reconciled(s, targets, failing).current, targets[n].name)
    ensures Selected(s, targets, failing, n)
  {
    var r := Reconciled(s, targets, failing);
    var from := ReconcileSelects(s, targets, failing, |targets|);
    var f :| f in r.current && f.name == targets[n].name;
    var k :| 0 <= k < |r.current| && r.current[k] == f;
    assert Picked(s, targets, failing, from[k], f);
  }

  /** An enabled target has a forwarder exactly if it was selected. */
  lemma SelectedIsNamed(s: State, targets: seq<Target>, failing: set<nat>, n: nat)
    requires DistinctTargets(targets) && n < |targets|
    ensures HasName(Reconciled(s, targets, failing).current, targets[n].name) <==> Selected(s, targets, failing, n)
  {
    if Selected(s, targets, failing, n) {
      SelectedHasName(s, targets, failing, n);
    }
    if HasName(Reconciled(s, targets, failing).current, targets[n].name) {
      NamedIsSelected(s, targets, failing, n);
    }
  }

  /**
   A target has a forwarder after Reconcile if and only if it is enabled and can
   be built, or is enabled and runs as it was asked for before.
   */
  lemma ServedIffBuildable(s: State, targets: seq<Target>, failing: set<nat>, n: nat)
    requires Sound(s) && DistinctTargets(targets) && n < |targets|
    ensures HasName(Reconciled(s, targets, failing).current, targets[n].name) <==>
      targets[n].enabled && (n !in failing || exists f :: f in s.current && AsksAgain(s, f, targets[n]))
  {
    SelectedIsNamed(s, targets, failing, n);
    if Unchanged(s, targets[n]) && targets[n].enabled {
      assert AsksAgain(s, Running(s.current)[targets[n].name], targets[n]);
    }
  }

  /** What was placed for target n is found running under its name, and the target unchanged. */
  lemma FoundAgain(s: State, targets: seq<Target>, failing: set<nat>, n: nat)
    requires Sound(s) && DistinctTargets(targets) && n < |targets| && Selected(s, targets, failing, n)
    ensures var r, w := Reconciled(s, targets, failing), Placed(s, targets, failing, n);
      && Unchanged(r, targets[n])
      && Placed(s, targets, failing, n + 1).next == w.next + [Running(r.current)[targets[n].name]]
      && Placed(s, targets, failing, n + 1).keep == w.keep + {targets[n].name}
  {
    var r := Reconciled(s, targets, failing);
    PlacingIsOk(s, targets, failing, |targets|);
    PlacedDesires(s, targets, failing, |targets|);
    PlacedStays(s, targets, failing, n + 1, |targets|);
    var f := Placed(s, targets, failing, n + 1).next[|Placed(s, targets, failing, n).next|];
    assert f in r.current;
    RunningFinds(r.current, f);
  }

  /** The same list with nothing more built or started. */
  function Unbuilt(w: Work, r: State): Work { w.(starts := r.starts, id := r.next) }

  lemma PlacedOnceMore(s: State, targets: seq<Target>, failing: set<nat>, again: set<nat>, n: nat)
    requires Sound(s) && DistinctTargets(targets) && n < |targets|
    requires NothingNew(Reconciled(s, targets, failing).current, targets, again)
    ensures var r, w := Reconciled(s, targets, failing), Placed(s, targets, failing, n);
      Place(r, Unbuilt(w, r), targets[n], n in again) == Unbuilt(Placed(s, targets, failing, n + 1), r)
  {
    SelectedIsNamed(s, targets, failing, n);
    if Selected(s, targets, failing, n) {
      FoundAgain(s, targets, failing, n);
    } else if targets[n].enabled {
      assert !HasName(Reconciled(s, targets, failing).current, targets[n].name);
    }
  }

  lemma {:induction false} PlacedAgain(s: State, targets: seq<Target>, failing: set<nat>, again: set<nat>, n: nat)
    requires Sound(s) && DistinctTargets(targets) && n <= |targets|
    requires NothingNew(Reconciled(s, targets, failing).current, targets, again)
    ensures var r := Reconciled(s, targets, failing);
      Placed(r, targets, again, n) == Unbuilt(Placed(s, targets, failing, n), r)
  {
    if n > 0 {
      PlacedAgain(s, targets, failing, again, n - 1);
      PlacedOnceMore(s, targets, failing, again, n - 1);
    }
  }

  /**
   Reconciling again with the same targets changes nothing at all, neither the
   forwarders in use nor what was built, started or stopped, if and only if no
   target that went without a forwarder can be built now.
   */
  lemma ReconcileAgainChangesNothing(s: State, targets: seq<Target>, failing: set<nat>, again: set<nat>)
    requires Sound(s) && DistinctTargets(targets)
    ensures var r := Reconciled(s, targets, failing);
      Reconciled(r, targets, again) == r <==> NothingNew(r.current, targets, again)
  {
    var r := Reconciled(s, targets, failing);
    if NothingNew(r.current, targets, again) {
      PlacedAgain(s, targets, failing, again, |targets|);
      PlacingIsOk(s, targets, failing, |targets|);
      assert Unkept(r.current, Placed(s, targets, failing, |targets|).keep) == {};
    } else {
      var i :| 0 <= i < |targets| && targets[i].enabled && !HasName(r.current, targets[i].name) && i !in again;
      assert Rebuilds(targets, again, targets[i].name, i);
      RebuiltHasName(r, targets, again, targets[i].name, i);
    }
  }

  // ---- started exactly once --------------------------------------------------------------

  predicate OnceEach(s: State) { forall f :: f in s.current ==> s.starts[f] == if s.live then 1 else 0 }

  predicate AlwaysOnce(ops: seq<Op>) {
    OnceEach(Run(ops)) && (ops != [] ==> AlwaysOnce(ops[..|ops| - 1]))
  }

  /** Start on a live registry that has forwarders. */
  predicate Restarts(s: State, op: Op) { op.Start? && s.live && s.current != [] }

  predicate NeverRestarted(ops: seq<Op>) {
    ops != [] ==> !Restarts(Run(ops[..|ops| - 1]), ops[|ops| - 1]) && NeverRestarted(ops[..|ops| - 1])
  }

  lemma ApplyOnce(s: State, op: Op)
    requires Sound(s) && Proper(op) && OnceEach(s)
    ensures OnceEach(Apply(s, op)) <==> !Restarts(s, op)
  {
    forall f: Forwarder ensures multiset(s.current)[f] == if f in s.current then 1 else 0 {
      OnceInList(s.current, f);
    }
    match op
    case Start =>
      if Restarts(s, op) {
        assert s.current[0] in s.current;
      }
    case Reconcile(targets, failing) => PlacingIsOk(s, targets, failing, |targets|);
    case Stop =>
  }

  /**
   Throughout a run each current forwarder was started exactly once while live,
   and not at all before, if and only if Start was never called on a live
   registry with forwarders.
   */
  lemma {:induction false} StartedOnceUnlessRestarted(ops: seq<Op>)
    requires AllProper(ops)
    ensures AlwaysOnce(ops) <==> NeverRestarted(ops)
    decreases |ops|
  {
    if ops != [] {
      var init, last := ops[..|ops| - 1], ops[|ops| - 1];
      StartedOnceUnlessRestarted(init);
      RunIsSound(init);
      if AlwaysOnce(init) {
        assert OnceEach(Run(init));
        ApplyOnce(Run(init), last);
      }
    }
  }

  // ---- where every forwarder ends up -------------------------------------------------------

  function NewlyBuilt(s: State, op: Op): set<Forwarder> { set f | f in Apply(s, op).current && f !in s.current }

  /** Replaced by another forwarder of the same name. */
  function Superseded(s: State, op: Op): set<Forwarder> {
    if op.Reconcile? then
      set f | f in s.current && f !in Apply(s, op).current && HasName(Apply(s, op).current, f.name)
    else {}
  }

  function AllBuilt(ops: seq<Op>): set<Forwarder> {
    if ops == [] then {} else AllBuilt(ops[..|ops| - 1]) + NewlyBuilt(Run(ops[..|ops| - 1]), ops[|ops| - 1])
  }

  function AllSuperseded(ops: seq<Op>): set<Forwarder> {
    if ops == [] then {} else AllSuperseded(ops[..|ops| - 1]) + Superseded(Run(ops[..|ops| - 1]), ops[|ops| - 1])
  }

  /** A forwarder that was built is running, was stopped once, or was superseded: one of the three. */
  predicate Settled(s: State, built: set<Forwarder>, superseded: set<Forwarder>, f: Forwarder) {
    && (f in built <==> f in s.current || s.stops[f] == 1 || f in superseded)
    && (f in built ==> f.id < s.next)
    && !(f in s.current && f in superseded) && !(f in s.current && s.stops[f] == 1) && !(s.stops[f] == 1 && f in superseded)
  }

  lemma ApplySettles(s: State, op: Op, built: set<Forwarder>, superseded: set<Forwarder>, f: Forwarder)
    requires Sound(s) && Proper(op) && Settled(s, built, superseded, f)
    ensures Settled(Apply(s, op), built + NewlyBuilt(s, op), superseded + Superseded(s, op), f)
  {
    OnceInList(s.current, f);
    if op.Reconcile? {
      PlacingIsOk(s, op.targets, op.failing, |op.targets|);
      ReconcileStops(s, op.targets, op.failing, f);
      var r := Apply(s, op);
      if f in r.current {
        assert HasName(r.current, f.name);
      }
    }
  }

  /**
   In every run each forwarder ever built is exactly one of current, stopped
   once, or superseded; a superseded one is therefore never stopped, however the
   run goes on, although the design says that changed targets are replaced.
   */
  lemma {:induction false} EveryForwarderEndsOneWay(ops: seq<Op>, f: Forwarder)
    requires AllProper(ops)
    ensures Settled(Run(ops), AllBuilt(ops), AllSuperseded(ops), f)
    decreases |ops|
  {
    if ops != [] {
      var init, last := ops[..|ops| - 1], ops[|ops| - 1];
      EveryForwarderEndsOneWay(init, f);
      RunIsSound(init);
      ApplySettles(Run(init), last, AllBuilt(init), AllSuperseded(init), f);
    }
  }

  /**
   After Stop nothing runs that the registry knows of: every forwarder ever built
   was stopped, once, if and only if it was never replaced.
   */
  lemma StopStopsAllButReplaced(ops: seq<Op>, f: Forwarder)
    requires AllProper(ops) && f in AllBuilt(ops)
    ensures Run(ops + [Stop]).current == [] && (Run(ops + [Stop]).stops[f] == 1 <==> f !in AllSuperseded(ops))
    ensures Run(ops + [Stop]).stops[f] == if f in AllSuperseded(ops) then 0 else 1
  {
    var more := ops + [Stop];
    assert more[..|more| - 1] == ops;
    EveryForwarderEndsOneWay(ops, f);
    RunIsSound(ops);
    OnceInList(Run(ops).current, f);
  }

  /** Position i asks for a forwarder of that name, and it can be built. */
  predicate Rebuilds(targets: seq<Target>, failing: set<nat>, name: string, i: nat) {
    i < |targets| && targets[i].name == name && targets[i].enabled && i !in failing
  }

  lemma NameIsRebuilt(s: State, targets: seq<Target>, failing: set<nat>, f: Forwarder) returns (i: nat)
    requires Sound(s) && DistinctTargets(targets) && f in s.current && f !in Reconciled(s, targets, failing).current
    requires HasName(Reconciled(s, targets, failing).current, f.name)
    ensures Rebuilds(targets, failing, f.name, i)
  {
    var r := Reconciled(s, targets, failing);
    var from := ReconcileSelects(s, targets, failing, |targets|);
    var g :| g in r.current && g.name == f.name;
    var k :| 0 <= k < |r.current| && r.current[k] == g;
    i := from[k];
    assert Picked(s, targets, failing, i, g);
    RunningFinds(s.current, f);
    if Unchanged(s, targets[i]) {
      RunningFinds(s.current, g);
    }
  }

  lemma RebuiltHasName(s: State, targets: seq<Target>, failing: set<nat>, name: string, i: nat)
    requires Rebuilds(targets, failing, name, i)
    ensures HasName(Reconciled(s, targets, failing).current, name)
  {
    SelectedHasName(s, targets, failing, i);
  }

  /**
   A forwarder that a Reconcile takes out of use is stopped if and only if no
   target of its name is enabled and can be built: one whose target changed and
   was rebuilt is left running.
   */
  lemma ReplacedIsNotStopped(s: State, targets: seq<Target>, failing: set<nat>, f: Forwarder)
    requires Sound(s) && DistinctTargets(targets) && f in s.current && f !in Reconciled(s, targets, failing).current
    ensures Reconciled(s, targets, failing).stops[f] == 1 <==> !(exists i :: Rebuilds(targets, failing, f.name, i))
  {
    ReconcileStops(s, targets, failing, f);
    if HasName(Reconciled(s, targets, failing).current, f.name) {
      var i := NameIsRebuilt(s, targets, failing, f);
    }
    if i :| Rebuilds(targets, failing, f.name, i) {
      RebuiltHasName(s, targets, failing, f.name, i);
    }
  }

  const LIVE := State([], map[], true, 0, multiset{}, multiset{})

  function OneTarget(t: Target): State {
    var f := Forwarder(0, t.name);
    State([f], map[t.name := t], true, 1, multiset{f}, multiset{})
  }

  lemma FirstBuild(t: Target)
    requires t.enabled
    ensures Reconciled(LIVE, [t], {}) == OneTarget(t)
  {
    assert Placed(LIVE, [t], {}, 0) == Work([], {}, map[], multiset{}, 0);
    assert Unkept([], {t.name}) == {};
  }

  lemma Rebuild(t: Target, u: Target)
    requires u.enabled && u.name == t.name && u != t
    ensures var f, g := Forwarder(0, t.name), Forwarder(1, t.name);
      Reconciled(OneTarget(t), [u], {}) == State([g], map[t.name := u], true, 2, multiset{f, g}, multiset{})
  {
    var f := Forwarder(0, t.name);
    assert Running([f]) == map[t.name := f];
    assert Placed(OneTarget(t), [u], {}, 0) == Work([], {}, map[], multiset{f}, 1);
    assert Unkept([f], {t.name}) == {};
  }

  /** A run in which the design's promise fails: a changed target leaves its first forwarder started and never stopped. */
  lemma ChangedTargetLeavesOneRunning(t: Target, u: Target)
    requires t.enabled && u.enabled && u.name == t.name && u != t
    ensures var s, f := Run([Start, Reconcile([t], {}), Reconcile([u], {})]), Forwarder(0, t.name);
      s.starts[f] == 1 && s.stops[f] == 0 && f !in s.current
  {
    var ops := [Start, Reconcile([t], {}), Reconcile([u], {})];
    assert ops[..2][..1] == [Start] && [Start][..0] == [];
    assert Run([Start]) == LIVE;
    FirstBuild(t);
    assert Run(ops[..2]) == OneTarget(t);
    Rebuild(t, u);
  }
}
