/**
 How far a forwarder's queue can go over its limits. The limit is checked and
 the gauge raised in separate steps, so producers that check together may all
 pass; the overshoot is bounded by the other calls in progress.
 */
module ForwarderLimits {
  import opened LogEntry
  import opened Forwarder
  import opened ForwarderSafety
  import opened Wrappers

  function WeightOf(gauge: Gauge): Weight { if gauge.ByteGauge? then Bytes() else Count() }

  function LimitOf(o: Options, gauge: Gauge): int { if gauge.ByteGauge? then o.queueMaxBytes else o.queueMaxMessages }

  function Shown(gauge: Gauge, s: State): int { if gauge.ByteGauge? then s.bytes else s.queued }

  /** The calls of Forward in progress. */
  function Active(ps: seq<Producer>): nat {
    if ps == [] then 0 else (if ps[0].Idle? then 0 else 1) + Active(ps[1..])
  }

  predicate GroupsWithin(w: Weight, largest: nat, ps: seq<Producer>) {
    forall i :: 0 <= i < |ps| && !ps[i].Idle? ==> w(ps[i].group) <= largest
  }

  /** A run with at most `crowd` calls in progress at once, none with a group heavier than `largest`. */
  predicate CrowdedRun(w: Weight, crowd: nat, largest: nat, o: Options, n: nat, es: seq<Event>)
    requires o.batchMaxRows > 0
  {
    && Execute(o, n, es).Some?
    && Active(Execute(o, n, es).value.producers) <= crowd
    && GroupsWithin(w, largest, Execute(o, n, es).value.producers)
    && (es != [] ==> CrowdedRun(w, crowd, largest, o, n, es[..|es| - 1]))
  }

  /** What a producer was cleared to add and has not sent yet. */
  function Reserved(w: Weight, gauge: Gauge, pr: Producer): nat {
    if pr.FitsBytes? || (gauge.MessageGauge? && pr.FitsMessages?) then w(pr.group) else 0
  }

  function AllReserved(w: Weight, gauge: Gauge, ps: seq<Producer>): nat {
    if ps == [] then 0 else Reserved(w, gauge, ps[0]) + AllReserved(w, gauge, ps[1..])
  }

  lemma {:induction false} ReservedAfter(w: Weight, gauge: Gauge, ps: seq<Producer>, p: nat, pr: Producer)
    requires p < |ps|
    ensures AllReserved(w, gauge, ps[p := pr]) == AllReserved(w, gauge, ps) - Reserved(w, gauge, ps[p]) + Reserved(w, gauge, pr)
    decreases |ps|
  {
    if p > 0 {
      assert ps[p := pr][1..] == ps[1..][p - 1 := pr];
      ReservedAfter(w, gauge, ps[1..], p - 1, pr);
    } else {
      assert ps[p := pr][1..] == ps[1..];
    }
  }

  lemma {:induction false} IdleReserves(w: Weight, gauge: Gauge, ps: seq<Producer>)
    requires AllIdle(ps)
    ensures AllReserved(w, gauge, ps) == 0
  {
    if ps != [] {
      IdleReserves(w, gauge, ps[1..]);
    }
  }

  /** The load and what was cleared to join it stay within the limit. */
  predicate Within(w: Weight, gauge: Gauge, limit: int, s: State) {
    Load(w, gauge, s) + AllReserved(w, gauge, s.producers) <= limit
  }

  /** Moving a producer without touching the channel. */
  lemma MoveWithin(w: Weight, gauge: Gauge, limit: int, s: State, p: nat, pr: Producer)
    requires Within(w, gauge, limit, s) && p < |s.producers| && Reserved(w, gauge, pr) <= Reserved(w, gauge, s.producers[p])
    ensures Within(w, gauge, limit, Put(s, p, pr))
  {
    ReservedAfter(w, gauge, s.producers, p, pr);
  }

  /** Each call in progress has at most its own group reserved or uncounted. */
  lemma {:induction false} CrowdWeighs(w: Weight, gauge: Gauge, largest: nat, ps: seq<Producer>)
    requires GroupsWithin(w, largest, ps)
    ensures AllLag(w, gauge, ps) + AllReserved(w, gauge, ps) <= Active(ps) * largest
  {
    if ps != [] {
      CrowdWeighs(w, gauge, largest, ps[1..]);
      OneGroupMore(Active(ps[1..]), largest);
    }
  }

  lemma OneGroupMore(n: int, largest: nat)
    ensures (n + 1) * largest == n * largest + largest
  {
  }

  /** A call that has nothing reserved or uncounted leaves room for one group. */
  lemma {:induction false} OthersWeigh(w: Weight, gauge: Gauge, largest: nat, ps: seq<Producer>, p: nat)
    requires p < |ps| && !ps[p].Idle? && LagOf(w, gauge, ps[p]) == 0 && Reserved(w, gauge, ps[p]) == 0
    requires GroupsWithin(w, largest, ps)
    ensures AllLag(w, gauge, ps) + AllReserved(w, gauge, ps) + largest <= Active(ps) * largest
    decreases |ps|
  {
    OneGroupMore(Active(ps[1..]), largest);
    if p == 0 {
      CrowdWeighs(w, gauge, largest, ps[1..]);
    } else {
      OthersWeigh(w, gauge, largest, ps[1..], p - 1);
    }
  }

  /** The weight other calls may add on top of the limit. */
  function Overshoot(crowd: nat, largest: nat): int { (crowd - 1) * largest }

  lemma FewerWeighLess(few: int, many: int, largest: nat)
    requires few <= many
    ensures few * largest <= many * largest
  {
    assert (many - few) * largest >= 0;
  }

  /** What producers cleared or pushed besides a call that did neither yet. */
  lemma OthersWithinCrowd(w: Weight, gauge: Gauge, crowd: nat, largest: nat, ps: seq<Producer>, p: nat)
    requires p < |ps| && !ps[p].Idle? && LagOf(w, gauge, ps[p]) == 0 && Reserved(w, gauge, ps[p]) == 0
    requires Active(ps) <= crowd && GroupsWithin(w, largest, ps)
    ensures AllLag(w, gauge, ps) + AllReserved(w, gauge, ps) <= Overshoot(crowd, largest)
  {
    OthersWeigh(w, gauge, largest, ps, p);
    FewerWeighLess(Active(ps), crowd, largest);
    OneGroupMore(crowd - 1, largest);
  }

  lemma LoadIsShown(w: Weight, gauge: Gauge, s: State)
    requires !gauge.NoGauge? && Books(w, gauge, s)
    ensures Load(w, gauge, s) == Shown(gauge, s) + AllLag(w, gauge, s.producers)
  {
  }

  /** Clearing a group against the gauge adds it to what the other calls hold. */
  lemma ClearWithin(w: Weight, gauge: Gauge, crowd: nat, largest: nat, limit: int, s: State, p: nat, pr: Producer)
    requires !gauge.NoGauge? && Books(w, gauge, s) && p < |s.producers|
    requires Active(s.producers) <= crowd && GroupsWithin(w, largest, s.producers)
    requires (gauge.MessageGauge? && s.producers[p].Entered? && pr.FitsMessages?)
          || (gauge.ByteGauge? && s.producers[p].FitsMessages? && pr.FitsBytes?)
    requires pr.group == s.producers[p].group && Shown(gauge, s) + w(pr.group) <= limit
    ensures Within(w, gauge, limit + Overshoot(crowd, largest), Put(s, p, pr))
  {
    OthersWithinCrowd(w, gauge, crowd, largest, s.producers, p);
    LoadIsShown(w, gauge, s);
    ReservedAfter(w, gauge, s.producers, p, pr);
    assert Load(w, gauge, Put(s, p, pr)) == Load(w, gauge, s);
  }

  function Bound(gauge: Gauge, crowd: nat, largest: nat, o: Options): int { LimitOf(o, gauge) + Overshoot(crowd, largest) }

  /** Everything a limit check relies on; a byte limit that is not positive is not checked. */
  ghost predicate Checkable(w: Weight, gauge: Gauge, crowd: nat, largest: nat, o: Options, s: State) {
    && !gauge.NoGauge? && Shows(gauge, w) && Books(w, gauge, s)
    && Active(s.producers) <= crowd && GroupsWithin(w, largest, s.producers)
    && (gauge.ByteGauge? ==> o.queueMaxBytes > 0)
    && Within(w, gauge, Bound(gauge, crowd, largest, o), s)
  }

  lemma PushWithin(w: Weight, gauge: Gauge, limit: int, o: Options, s: State, p: nat)
    requires o.batchMaxRows > 0 && Within(w, gauge, limit, s) && p < |s.producers| && s.producers[p].FitsBytes?
    ensures Within(w, gauge, limit, DoPush(o, s, p))
  {
    var pr := s.producers[p];
    MoveWithin(w, gauge, limit, s, p, Idle);
    ReservedAfter(w, gauge, s.producers, p, Pushed(pr.group, pr.size));
    QueueWeightAppend(w, s.queue, pr.group);
  }

  lemma EnterWithin(w: Weight, gauge: Gauge, limit: int, o: Options, s: State, p: nat, tenant: string, entries: seq<Entry>)
    requires Within(w, gauge, limit, s) && p < |s.producers|
    ensures Within(w, gauge, limit, DoEnter(o, s, p, tenant, entries))
  {
    var kept := Kept(o, entries);
    MoveWithin(w, gauge, limit, s, p, Entered(Retenanted(tenant, kept), SizeOf(kept)));
  }

  lemma DropWithin(w: Weight, gauge: Gauge, limit: int, s: State, p: nat)
    requires Within(w, gauge, limit, s) && p < |s.producers| && !s.producers[p].Idle?
    ensures Within(w, gauge, limit, DropGroup(s, p))
  {
    MoveWithin(w, gauge, limit, s, p, Idle);
  }

  lemma CheckMessagesWithin(w: Weight, gauge: Gauge, crowd: nat, largest: nat, o: Options, s: State, p: nat)
    requires Checkable(w, gauge, crowd, largest, o, s) && p < |s.producers| && s.producers[p].Entered?
    ensures Within(w, gauge, Bound(gauge, crowd, largest, o), DoCheckMessages(o, s, p))
  {
    var pr, bound := s.producers[p], Bound(gauge, crowd, largest, o);
    if s.queued + |pr.group| > o.queueMaxMessages {
      DropWithin(w, gauge, bound, s, p);
    } else if gauge.MessageGauge? {
      ClearWithin(w, gauge, crowd, largest, LimitOf(o, gauge), s, p, FitsMessages(pr.group, pr.size));
    } else {
      MoveWithin(w, gauge, bound, s, p, FitsMessages(pr.group, pr.size));
    }
  }

  lemma CheckBytesWithin(w: Weight, gauge: Gauge, crowd: nat, largest: nat, o: Options, s: State, p: nat)
    requires Checkable(w, gauge, crowd, largest, o, s)
    requires p < |s.producers| && s.producers[p].FitsMessages? && ProducerOk(s.producers[p])
    ensures Within(w, gauge, Bound(gauge, crowd, largest, o), DoCheckBytes(o, s, p))
  {
    var pr, bound := s.producers[p], Bound(gauge, crowd, largest, o);
    if o.queueMaxBytes > 0 && s.bytes + pr.size > o.queueMaxBytes {
      DropWithin(w, gauge, bound, s, p);
    } else if gauge.ByteGauge? {
      ClearWithin(w, gauge, crowd, largest, LimitOf(o, gauge), s, p, FitsBytes(pr.group, pr.size));
    } else {
      MoveWithin(w, gauge, bound, s, p, FitsBytes(pr.group, pr.size));
    }
  }

  lemma CountedWithin(w: Weight, gauge: Gauge, limit: int, s: State, p: nat)
    requires Within(w, gauge, limit, s) && p < |s.producers|
    ensures s.producers[p].Pushed? ==> Within(w, gauge, limit, DoAddMessages(s, p))
    ensures s.producers[p].CountedMessages? ==> Within(w, gauge, limit, DoAddBytes(s, p))
  {
    var pr := s.producers[p];
    if pr.Pushed? {
      MoveWithin(w, gauge, limit, s, p, CountedMessages(pr.group, pr.size));
    }
    MoveWithin(w, gauge, limit, s, p, Idle);
  }

  lemma ProducerWithin(w: Weight, gauge: Gauge, crowd: nat, largest: nat, o: Options, s: State, e: Event)
    requires o.batchMaxRows > 0 && Checkable(w, gauge, crowd, largest, o, s) && Shape(o, s)
    requires ProducerEvent(e) && Enabled(o, s, e)
    ensures Within(w, gauge, Bound(gauge, crowd, largest, o), Step(o, s, e))
  {
    var bound := Bound(gauge, crowd, largest, o);
    match e
    case Enter(p, tenant, entries) => EnterWithin(w, gauge, bound, o, s, p, tenant, entries);
    case CheckMessages(p) => CheckMessagesWithin(w, gauge, crowd, largest, o, s, p);
    case CheckBytes(p) => CheckBytesWithin(w, gauge, crowd, largest, o, s, p);
    case Push(p) => PushWithin(w, gauge, bound, o, s, p);
    case AddMessages(p) => CountedWithin(w, gauge, bound, s, p);
    case AddBytes(p) => CountedWithin(w, gauge, bound, s, p);
  }

  lemma ReceiveLoad(w: Weight, gauge: Gauge, s: State)
    requires Additive(w) && s.sender.Waiting? && s.queue != [] && s.queue[0] != []
    ensures Load(w, gauge, DoReceive(s)) == Load(w, gauge, s)
  {
    var g := s.queue[0];
    assert w(s.sender.pending + g) == w(s.sender.pending) + w(g);
  }

  lemma FillLoad(w: Weight, gauge: Gauge, o: Options, s: State)
    requires Additive(w) && s.sender.Filling?
    ensures Load(w, gauge, DoFill(o, s)) == Load(w, gauge, s)
  {
    var f := s.sender;
    if f.rest == [] {
      assert f.pending + f.rest == f.pending;
    } else {
      var pending := f.pending + [f.rest[0]];
      assert pending + f.rest[1..] == f.pending + f.rest;
      assert w(pending + f.rest[1..]) == w(pending) + w(f.rest[1..]);
    }
  }

  lemma WrittenLoad(w: Weight, gauge: Gauge, s: State)
    requires Additive(w)
    ensures s.sender.Waiting? ==> Load(w, gauge, DoHandOver(s, false)) == Load(w, gauge, DoHandOver(s, true)) == Load(w, gauge, s)
    ensures s.sender.Writing? ==> Load(w, gauge, DoSettle(s, false)) == Load(w, gauge, DoSettle(s, true)) == Load(w, gauge, s)
  {
  }

  lemma MessagesOffLoad(w: Weight, gauge: Gauge, s: State)
    requires Additive(w) && s.sender.Settled?
    ensures Load(w, gauge, DoTakeOffMessages(s)) <= Load(w, gauge, s)
  {
  }

  lemma BytesOffLoad(w: Weight, gauge: Gauge, s: State)
    requires Additive(w) && s.sender.Uncounted?
    ensures Load(w, gauge, DoTakeOffBytes(s)) <= Load(w, gauge, s)
  {
    var t := DoTakeOffBytes(s);
    assert [] + s.sender.rest == s.sender.rest;
    assert Unflushed(t.sender) == s.sender.rest || Unflushed(t.sender) == [];
    assert StillCounted(gauge, t.sender) == [];
  }

  /** The sender never raises the load. */
  lemma SenderLoad(w: Weight, gauge: Gauge, o: Options, s: State, e: Event)
    requires o.batchMaxRows > 0 && Additive(w) && !ProducerEvent(e) && Enabled(o, s, e)
    ensures Load(w, gauge, Step(o, s, e)) <= Load(w, gauge, s)
  {
    match e
    case Receive => ReceiveLoad(w, gauge, s);
    case Fill => FillLoad(w, gauge, o, s);
    case TakeOffMessages => MessagesOffLoad(w, gauge, s);
    case TakeOffBytes => BytesOffLoad(w, gauge, s);
    case _ => WrittenLoad(w, gauge, s);
  }

  lemma SenderKeepsProducers(o: Options, s: State, e: Event)
    requires o.batchMaxRows > 0 && !ProducerEvent(e) && Enabled(o, s, e)
    ensures Step(o, s, e).producers == s.producers
  {
  }

  lemma StepWithin(w: Weight, gauge: Gauge, crowd: nat, largest: nat, o: Options, s: State, e: Event)
    requires o.batchMaxRows > 0 && Additive(w) && Checkable(w, gauge, crowd, largest, o, s) && Shape(o, s)
    requires Enabled(o, s, e)
    ensures Within(w, gauge, Bound(gauge, crowd, largest, o), Step(o, s, e))
  {
    if ProducerEvent(e) {
      ProducerWithin(w, gauge, crowd, largest, o, s, e);
    } else {
      SenderLoad(w, gauge, o, s, e);
      SenderKeepsProducers(o, s, e);
    }
  }

  lemma InvGauge(gauge: Gauge, o: Options, s: State)
    requires o.batchMaxRows > 0 && !gauge.NoGauge? && Inv(o, s)
    ensures Shape(o, s) && Books(WeightOf(gauge), gauge, s)
  {
  }

  lemma GaugeShows(gauge: Gauge)
    requires !gauge.NoGauge?
    ensures Additive(WeightOf(gauge)) && Shows(gauge, WeightOf(gauge))
  {
    GaugesAdd();
  }

  lemma InitWithin(w: Weight, gauge: Gauge, bound: nat, n: nat)
    requires Additive(w)
    ensures Within(w, gauge, bound, Init(n))
  {
    IdleReserves(w, gauge, Init(n).producers);
  }

  lemma {:induction false} CrowdStaysWithin(gauge: Gauge, crowd: nat, largest: nat, o: Options, n: nat, es: seq<Event>)
    requires o.batchMaxRows > 0 && !gauge.NoGauge? && LimitOf(o, gauge) > 0 && crowd > 0
    requires CrowdedRun(WeightOf(gauge), crowd, largest, o, n, es)
    ensures Within(WeightOf(gauge), gauge, Bound(gauge, crowd, largest, o), Execute(o, n, es).value)
    decreases |es|
  {
    var w := WeightOf(gauge);
    GaugeShows(gauge);
    if es == [] {
      assert (crowd - 1) * largest >= 0;
      InitWithin(w, gauge, Bound(gauge, crowd, largest, o), n);
    } else {
      var init := es[..|es| - 1];
      var t := Execute(o, n, init).value;
      CrowdStaysWithin(gauge, crowd, largest, o, n, init);
      RunKeepsInvariants(o, n, init);
      InvGauge(gauge, o, t);
      StepWithin(w, gauge, crowd, largest, o, t, es[|es| - 1]);
    }
  }

  lemma WithinBounds(gauge: Gauge, crowd: nat, largest: nat, o: Options, s: State)
    requires !gauge.NoGauge? && Books(WeightOf(gauge), gauge, s)
    requires Within(WeightOf(gauge), gauge, Bound(gauge, crowd, largest, o), s)
    ensures Load(WeightOf(gauge), gauge, s) <= LimitOf(o, gauge) + (crowd - 1) * largest
    ensures Shown(gauge, s) <= LimitOf(o, gauge) + (crowd - 1) * largest
    ensures crowd == 1 ==> Shown(gauge, s) <= LimitOf(o, gauge)
  {
    LoadIsShown(WeightOf(gauge), gauge, s);
  }

  /**
   In every run with at most `crowd` calls at once and no group heavier than
   `largest`, what is queued or being written exceeds the configured limit by
   at most crowd - 1 groups, and so does the gauge; with one call at a time the
   limit is never exceeded.
   */
  lemma LimitsHoldUpToTheCrowd(gauge: Gauge, crowd: nat, largest: nat, o: Options, n: nat, es: seq<Event>)
    requires o.batchMaxRows > 0 && !gauge.NoGauge? && LimitOf(o, gauge) > 0 && crowd > 0
    requires CrowdedRun(WeightOf(gauge), crowd, largest, o, n, es)
    ensures var s := Execute(o, n, es).value;
      && Load(WeightOf(gauge), gauge, s) <= LimitOf(o, gauge) + (crowd - 1) * largest
      && Shown(gauge, s) <= LimitOf(o, gauge) + (crowd - 1) * largest
      && (crowd == 1 ==> Shown(gauge, s) <= LimitOf(o, gauge))
  {
    CrowdStaysWithin(gauge, crowd, largest, o, n, es);
    RunKeepsInvariants(o, n, es);
    InvGauge(gauge, o, Execute(o, n, es).value);
    WithinBounds(gauge, crowd, largest, o, Execute(o, n, es).value);
  }
}
