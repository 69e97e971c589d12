/**
 What a forwarder does with the messages it is given: which it takes, when it
 loses none, why a batch is short, and that calls and Stop always come to an end.
 */
module ForwarderDelivery {
  import opened LogEntry
  import opened Forwarder
  import opened ForwarderSafety
  import opened ForwarderTheorems
  import opened Picking
  import opened Wrappers

  // ---- which messages are taken ----------------------------------------------------------------

  /** From a listed source, if sources are listed, and at least as severe as asked for: the lower number is the more severe. */
  predicate Wanted(o: Options, e: Entry) {
    && (o.sources == None || exists name :: name in o.sources.value && name == e.source)
    && (o.minSeverity == None || !(o.minSeverity.value < e.severity))
  }

  function Filter(o: Options): Entry -> bool { (e: Entry) => Wanted(o, e) }

  /** A producer keeps the wanted entries, all of them, each in its place and as often as it is given. */
  lemma {:induction false} KeptAreTheWanted(o: Options, entries: seq<Entry>) returns (at: seq<nat>)
    ensures Picks(Filter(o), entries, Kept(o, entries), at)
  {
    if entries == [] {
      at := [];
    } else {
      var n := |entries| - 1;
      at := KeptAreTheWanted(o, entries[..n]);
      PicksOneMore(Filter(o), entries[..n], entries[n], Kept(o, entries[..n]), at);
      assert entries[..n] + [entries[n]] == entries;
      if Filter(o)(entries[n]) {
        at := at + [n];
      }
    }
  }

  lemma {:induction false} KeptJoin(o: Options, a: seq<Entry>, b: seq<Entry>)
    ensures Kept(o, a + b) == Kept(o, a) + Kept(o, b)
  {
    if b == [] {
      assert a + b == a;
    } else {
      assert (a + b)[..|a + b| - 1] == a + b[..|b| - 1];
      KeptJoin(o, a, b[..|b| - 1]);
    }
  }

  lemma {:induction false} KeptIgnoresTenant(o: Options, tenant: string, entries: seq<Entry>)
    ensures Kept(o, Retenanted(tenant, entries)) == Retenanted(tenant, Kept(o, entries))
  {
    if entries != [] {
      var init := entries[..|entries| - 1];
      KeptIgnoresTenant(o, tenant, init);
      assert Retenanted(tenant, entries)[..|entries| - 1] == Retenanted(tenant, init);
    }
  }

  /** Everything that calls were given, in order, under the tenant of the call. */
  function Given(es: seq<Event>): seq<Entry> {
    if es == [] then []
    else
      var e := es[|es| - 1];
      Given(es[..|es| - 1]) + if e.Enter? then Retenanted(e.tenant, e.entries) else []
  }

  lemma StepAccepts(o: Options, s: State, e: Event)
    requires o.batchMaxRows > 0 && Enabled(o, s, e)
    ensures Step(o, s, e).accepted == s.accepted + if e.Enter? then Retenanted(e.tenant, Kept(o, e.entries)) else []
  {
  }

  lemma {:induction false} AcceptedAreKept(o: Options, n: nat, es: seq<Event>)
    requires o.batchMaxRows > 0 && Execute(o, n, es).Some?
    ensures Execute(o, n, es).value.accepted == Kept(o, Given(es))
    decreases |es|
  {
    if es != [] {
      var init, e := es[..|es| - 1], es[|es| - 1];
      AcceptedAreKept(o, n, init);
      StepAccepts(o, Execute(o, n, init).value, e);
      if e.Enter? {
        KeptJoin(o, Given(init), Retenanted(e.tenant, e.entries));
        KeptIgnoresTenant(o, e.tenant, e.entries);
      } else {
        assert Given(es) == Given(init);
      }
    }
  }

  /**
   After any run the accepted messages are, in order, exactly the wanted ones of
   all that calls were given: none is skipped, none is taken that is not wanted,
   and without filters all are.
   */
  lemma AcceptedAreTheWanted(o: Options, n: nat, es: seq<Event>) returns (at: seq<nat>)
    requires o.batchMaxRows > 0 && Execute(o, n, es).Some?
    ensures Picks(Filter(o), Given(es), Execute(o, n, es).value.accepted, at)
    ensures o.sources == None && o.minSeverity == None ==> Execute(o, n, es).value.accepted == Given(es)
  {
    AcceptedAreKept(o, n, es);
    at := KeptAreTheWanted(o, Given(es));
    if o.sources == None && o.minSeverity == None {
      PicksAll(Filter(o), Given(es), Execute(o, n, es).value.accepted, at);
    }
  }

  // ---- when nothing is lost -------------------------------------------------------------------

  function One(): Weight { (g: seq<Entry>) => 1 }

  function Calls(es: seq<Event>): nat {
    if es == [] then 0 else Calls(es[..|es| - 1]) + if es[|es| - 1].Enter? then 1 else 0
  }

  predicate NoneGivenUp(es: seq<Event>) { forall i :: 0 <= i < |es| ==> !es[i].WriteDrops? }

  lemma {:induction false} OneEach(groups: seq<seq<Entry>>)
    ensures QueueWeight(One(), groups) == |groups|
  {
    if groups != [] {
      OneEach(groups[1..]);
    }
  }

  /** Groups on the channel or on their way to it. */
  function GroupsAround(s: State): nat { |s.queue| + AllHeld(One(), s.producers) }

  lemma MoveGroups(s: State, t: State, p: nat, pr: Producer)
    requires p < |s.producers| && t.producers == s.producers[p := pr]
    requires |t.queue| + HeldBy(One(), pr) <= |s.queue| + HeldBy(One(), s.producers[p])
    ensures GroupsAround(t) <= GroupsAround(s)
  {
    SumsAfter(One(), NoGauge, s.producers, p, pr);
  }

  lemma EnterGroups(o: Options, s: State, p: nat, tenant: string, entries: seq<Entry>)
    requires p < |s.producers| && s.producers[p].Idle?
    ensures GroupsAround(DoEnter(o, s, p, tenant, entries)) <= GroupsAround(s) + 1
  {
    SumsAfter(One(), NoGauge, s.producers, p, Entered(Retenanted(tenant, Kept(o, entries)), SizeOf(Kept(o, entries))));
  }

  lemma CheckGroups(o: Options, s: State, e: Event)
    requires o.batchMaxRows > 0 && Enabled(o, s, e) && (e.CheckMessages? || e.CheckBytes? || e.Push?)
    ensures GroupsAround(Step(o, s, e)) <= GroupsAround(s)
  {
    var t := Step(o, s, e);
    MoveGroups(s, t, e.p, t.producers[e.p]);
  }

  lemma CountGroups(o: Options, s: State, e: Event)
    requires o.batchMaxRows > 0 && Enabled(o, s, e) && (e.AddMessages? || e.AddBytes?)
    ensures GroupsAround(Step(o, s, e)) <= GroupsAround(s)
  {
    var t := Step(o, s, e);
    MoveGroups(s, t, e.p, t.producers[e.p]);
  }

  lemma FillingKeeps(o: Options, s: State, e: Event)
    requires o.batchMaxRows > 0 && Enabled(o, s, e) && (e.Receive? || e.Fill? || e.Timer? || e.SeeClosed?)
    ensures Step(o, s, e).producers == s.producers && |Step(o, s, e).queue| <= |s.queue| && Step(o, s, e).lost == s.lost
  {
  }

  lemma SenderKeeps(o: Options, s: State, e: Event)
    requires o.batchMaxRows > 0 && Enabled(o, s, e) && !ProducerEvent(e)
    ensures Step(o, s, e).producers == s.producers && |Step(o, s, e).queue| <= |s.queue|
    ensures !e.WriteDrops? ==> Step(o, s, e).lost == s.lost
  {
    if e.Receive? || e.Fill? || e.Timer? || e.SeeClosed? {
      FillingKeeps(o, s, e);
    }
  }

  lemma StepGroups(o: Options, s: State, e: Event)
    requires o.batchMaxRows > 0 && Enabled(o, s, e)
    ensures GroupsAround(Step(o, s, e)) <= GroupsAround(s) + if e.Enter? then 1 else 0
  {
    if e.Enter? {
      EnterGroups(o, s, e.p, e.tenant, e.entries);
    } else if e.CheckMessages? || e.CheckBytes? || e.Push? {
      CheckGroups(o, s, e);
    } else if ProducerEvent(e) {
      CountGroups(o, s, e);
    } else {
      SenderKeeps(o, s, e);
    }
  }

  /** A batch that is settled and still counted is among what was sent or dropped. */
  predicate SettledIsPast(w: Weight, s: State) {
    s.sender.Settled? || s.sender.Uncounted? ==> w(s.sender.batch) <= w(s.delivered) + w(s.lost)
  }

  lemma SettleSettles(w: Weight, s: State, ok: bool)
    requires Additive(w) && s.sender.Writing?
    ensures SettledIsPast(w, DoSettle(s, ok))
  {
    var b := s.sender.batch;
    assert w(s.delivered + b) == w(s.delivered) + w(b);
    assert w(s.lost + b) == w(s.lost) + w(b);
  }

  lemma DropSettles(w: Weight, s: State, p: nat)
    requires Additive(w) && SettledIsPast(w, s) && p < |s.producers| && !s.producers[p].Idle?
    ensures SettledIsPast(w, DropGroup(s, p))
  {
    var g := s.producers[p].group;
    assert w(s.lost + g) == w(s.lost) + w(g);
  }

  lemma StepSettles(w: Weight, o: Options, s: State, e: Event)
    requires o.batchMaxRows > 0 && Additive(w) && Enabled(o, s, e) && SettledIsPast(w, s)
    ensures SettledIsPast(w, Step(o, s, e))
  {
    match e
    case WriteSucceeds => SettleSettles(w, s, true);
    case WriteDrops(_) => SettleSettles(w, s, false);
    case CheckMessages(p) => DropSettles(w, s, p);
    case CheckBytes(p) => DropSettles(w, s, p);
    case Push(p) => DropSettles(w, s, p);
    case _ =>
  }

  lemma {:induction false} HeldIsPart(w: Weight, ps: seq<Producer>, p: nat)
    requires p < |ps|
    ensures HeldBy(w, ps[p]) <= AllHeld(w, ps)
  {
    if p > 0 {
      HeldIsPart(w, ps[1..], p - 1);
    }
  }

  /** What a gauge shows and a producer adds to it is at most what was accepted. */
  lemma GaugeAndGroup(w: Weight, gauge: Gauge, s: State, p: nat)
    requires Additive(w) && !gauge.NoGauge? && Books(w, gauge, s) && SettledIsPast(w, s)
    requires p < |s.producers| && (s.producers[p].Entered? || s.producers[p].FitsMessages?)
    ensures (if gauge.ByteGauge? then s.bytes else s.queued) + w(s.producers[p].group) <= w(s.accepted)
  {
    HeldIsPart(w, s.producers, p);
  }

  /** All that was accepted, and every call, fit at once. */
  predicate FitsAll(o: Options, accepted: seq<Entry>, calls: nat)
    requires o.batchMaxRows > 0
  {
    && |accepted| <= o.queueMaxMessages && (o.queueMaxBytes > 0 ==> SizeOf(accepted) <= o.queueMaxBytes)
    && calls <= Capacity(o)
  }

  lemma ChecksLoseNothing(o: Options, s: State, p: nat, calls: nat)
    requires o.batchMaxRows > 0 && Books(Count(), MessageGauge, s) && Books(Bytes(), ByteGauge, s)
    requires SettledIsPast(Count(), s) && SettledIsPast(Bytes(), s) && FitsAll(o, s.accepted, calls)
    requires p < |s.producers| && !s.producers[p].Idle? && s.producers[p].size == SizeOf(s.producers[p].group)
    ensures s.producers[p].Entered? ==> DoCheckMessages(o, s, p).lost == s.lost
    ensures s.producers[p].FitsMessages? ==> DoCheckBytes(o, s, p).lost == s.lost
  {
    GaugesAdd();
    if s.producers[p].Entered? {
      GaugeAndGroup(Count(), MessageGauge, s, p);
    } else if s.producers[p].FitsMessages? {
      GaugeAndGroup(Bytes(), ByteGauge, s, p);
    }
  }

  lemma PushLosesNothing(o: Options, s: State, p: nat, calls: nat)
    requires o.batchMaxRows > 0 && GroupsAround(s) <= calls <= Capacity(o) && p < |s.producers| && s.producers[p].FitsBytes?
    ensures DoPush(o, s, p).lost == s.lost
  {
    HeldIsPart(One(), s.producers, p);
  }

  lemma CountingLosesNothing(o: Options, s: State, e: Event)
    requires o.batchMaxRows > 0 && Enabled(o, s, e) && (e.Enter? || e.AddMessages? || e.AddBytes?)
    ensures Step(o, s, e).lost == s.lost
  {
  }

  lemma LosesNothing(o: Options, s: State, e: Event, calls: nat)
    requires o.batchMaxRows > 0 && Enabled(o, s, e) && !e.WriteDrops?
    requires Books(Count(), MessageGauge, s) && Books(Bytes(), ByteGauge, s) && (ProducerEvent(e) ==> ProducerOk(At(s, e.p)))
    requires SettledIsPast(Count(), s) && SettledIsPast(Bytes(), s) && GroupsAround(s) <= calls && FitsAll(o, s.accepted, calls)
    ensures Step(o, s, e).lost == s.lost
  {
    if e.CheckMessages? || e.CheckBytes? {
      ChecksLoseNothing(o, s, e.p, calls);
    } else if e.Push? {
      PushLosesNothing(o, s, e.p, calls);
    } else if ProducerEvent(e) {
      CountingLosesNothing(o, s, e);
    } else {
      SenderKeeps(o, s, e);
    }
  }

  lemma AcceptedGrows(o: Options, n: nat, es: seq<Event>)
    requires o.batchMaxRows > 0 && es != [] && Execute(o, n, es).Some?
    ensures var before, after := Execute(o, n, es[..|es| - 1]).value.accepted, Execute(o, n, es).value.accepted;
      |before| <= |after| && SizeOf(before) <= SizeOf(after)
  {
    var init, e := es[..|es| - 1], es[|es| - 1];
    var more := if e.Enter? then Retenanted(e.tenant, e.entries) else [];
    AcceptedAreKept(o, n, init);
    AcceptedAreKept(o, n, es);
    KeptJoin(o, Given(init), more);
    SizeOfJoin(Kept(o, Given(init)), Kept(o, more));
  }

  lemma {:induction false} PastAndAround(o: Options, n: nat, es: seq<Event>)
    requires o.batchMaxRows > 0 && Execute(o, n, es).Some?
    ensures var s := Execute(o, n, es).value;
      SettledIsPast(Count(), s) && SettledIsPast(Bytes(), s) && GroupsAround(s) <= Calls(es)
    decreases |es|
  {
    GaugesAdd();
    if es == [] {
      IdleSums(One(), NoGauge, Init(n).producers);
    } else {
      var init, e := es[..|es| - 1], es[|es| - 1];
      PastAndAround(o, n, init);
      var s := Execute(o, n, init).value;
      StepSettles(Count(), o, s, e);
      StepSettles(Bytes(), o, s, e);
      StepGroups(o, s, e);
    }
  }

  /**
   A run in which no write is given up and in which all that was accepted, and
   every call, would have fit at once loses nothing: whatever the interleaving,
   the sender's delay and the retries, nothing is dropped below the limits.
   */
  lemma {:induction false} NothingIsLostWithinLimits(o: Options, n: nat, es: seq<Event>)
    requires o.batchMaxRows > 0 && Execute(o, n, es).Some? && NoneGivenUp(es)
    requires FitsAll(o, Execute(o, n, es).value.accepted, Calls(es))
    ensures Execute(o, n, es).value.lost == [] && Execute(o, n, es).value.dropped == 0
    decreases |es|
  {
    RunKeepsInvariants(o, n, es);
    if es != [] {
      var init, e := es[..|es| - 1], es[|es| - 1];
      AcceptedGrows(o, n, es);
      NothingIsLostWithinLimits(o, n, init);
      RunKeepsInvariants(o, n, init);
      PastAndAround(o, n, init);
      LosesNothing(o, Execute(o, n, init).value, e, Calls(init));
    }
  }

  // ---- why a batch is short ---------------------------------------------------------------------

  /** A batch reaches a limit. */
  predicate Complete(o: Options, b: Batch) {
    |b.rows| == o.batchMaxRows || (o.batchMaxBytes > 0 && SizeOf(b.rows) >= o.batchMaxBytes)
  }

  function Short(o: Options, bs: seq<Batch>): nat {
    if bs == [] then 0 else Short(o, bs[..|bs| - 1]) + if Complete(o, bs[|bs| - 1]) then 0 else 1
  }

  /** The timer fired, the channel was seen closed, or a group of another tenant came while messages were waiting. */
  predicate Cuts(s: State, e: Event) {
    || e.Timer? || e.SeeClosed?
    || (e.Receive? && s.sender.Waiting? && s.sender.pending != [] && s.queue != [] && s.queue[0] != []
        && s.queue[0][0].tenant != s.sender.tenant)
  }

  function AllCuts(o: Options, n: nat, es: seq<Event>): nat
    requires o.batchMaxRows > 0
  {
    if es == [] then 0
    else
      var before := Execute(o, n, es[..|es| - 1]);
      AllCuts(o, n, es[..|es| - 1]) + if before.Some? && Cuts(before.value, es[|es| - 1]) then 1 else 0
  }

  lemma ShortOneMore(o: Options, bs: seq<Batch>, b: Batch)
    ensures Short(o, bs + [b]) == Short(o, bs) + if Complete(o, b) then 0 else 1
  {
    assert (bs + [b])[..|bs|] == bs;
  }

  lemma FlushShort(o: Options, s: State, t: State, b: Batch, cut: bool)
    requires t.batches == s.batches + [b] && (cut || Complete(o, b))
    ensures Short(o, t.batches) <= Short(o, s.batches) + if cut then 1 else 0
  {
    ShortOneMore(o, s.batches, b);
  }

  /** A batch cut while filling is complete. */
  lemma FillShort(o: Options, s: State)
    requires o.batchMaxRows > 0 && SenderOk(o, s.sender) && s.sender.Filling?
    ensures Short(o, DoFill(o, s).batches) == Short(o, s.batches)
  {
    var f, t := s.sender, DoFill(o, s);
    if f.rest != [] && Full(o, f.pending + [f.rest[0]]) {
      FlushShort(o, s, t, Batch(f.tenant, f.pending + [f.rest[0]]), false);
      ShortOneMore(o, s.batches, Batch(f.tenant, f.pending + [f.rest[0]]));
    }
  }

  lemma StepShort(o: Options, s: State, e: Event)
    requires o.batchMaxRows > 0 && SenderOk(o, s.sender) && Enabled(o, s, e)
    ensures Short(o, Step(o, s, e).batches) <= Short(o, s.batches) + if Cuts(s, e) then 1 else 0
  {
    match e
    case Fill => FillShort(o, s);
    case Receive =>
      if Cuts(s, e) {
        FlushShort(o, s, DoReceive(s), Batch(s.sender.tenant, s.sender.pending), true);
      }
    case Timer =>
      if s.sender.pending != [] {
        FlushShort(o, s, DoHandOver(s, false), Batch(s.sender.tenant, s.sender.pending), true);
      }
    case SeeClosed =>
      if s.sender.pending != [] {
        FlushShort(o, s, DoHandOver(s, true), Batch(s.sender.tenant, s.sender.pending), true);
      }
    case _ =>
  }

  /**
   In every run there are no more short batches than reasons for one: the timer,
   the close, or a change of tenant. Every other batch reaches a limit.
   */
  lemma {:induction false} ShortBatchesHaveAReason(o: Options, n: nat, es: seq<Event>)
    requires o.batchMaxRows > 0 && Execute(o, n, es).Some?
    ensures Short(o, Execute(o, n, es).value.batches) <= AllCuts(o, n, es)
    decreases |es|
  {
    if es != [] {
      var init := es[..|es| - 1];
      ShortBatchesHaveAReason(o, n, init);
      RunKeepsInvariants(o, n, init);
      StepShort(o, Execute(o, n, init).value, es[|es| - 1]);
    }
  }

  // ---- calls and Stop come to an end ------------------------------------------------------------

  lemma OneMoreEvent(o: Options, n: nat, es: seq<Event>, e: Event)
    requires o.batchMaxRows > 0 && Execute(o, n, es).Some? && Enabled(o, Execute(o, n, es).value, e)
    ensures Execute(o, n, es + [e]) == Some(Step(o, Execute(o, n, es).value, e))
  {
    assert (es + [e])[..|es|] == es;
  }

  /** The next step of a call. */
  function NextOf(s: State, p: nat): Event
    requires p < |s.producers| && !s.producers[p].Idle?
  {
    match s.producers[p]
    case Entered(_, _) => CheckMessages(p)
    case FitsMessages(_, _) => CheckBytes(p)
    case FitsBytes(_, _) => Push(p)
    case Pushed(_, _) => AddMessages(p)
    case CountedMessages(_, _) => AddBytes(p)
  }

  function StepsLeft(pr: Producer): nat {
    match pr
    case Idle => 0
    case Entered(_, _) => 5
    case FitsMessages(_, _) => 4
    case FitsBytes(_, _) => 3
    case Pushed(_, _) => 2
    case CountedMessages(_, _) => 1
  }

  /** Everything but producer p and what it adds is as before. */
  predicate OnlyProducer(s: State, t: State, p: nat) {
    && |t.producers| == |s.producers| && t.sender == s.sender && t.closed == s.closed && t.stopped == s.stopped
    && t.delivered == s.delivered
    && forall i :: 0 <= i < |s.producers| && i != p ==> t.producers[i] == s.producers[i]
  }

  /** After `es` the run is in state s. */
  predicate After(o: Options, n: nat, es: seq<Event>, s: State)
    requires o.batchMaxRows > 0
  {
    Execute(o, n, es) == Some(s)
  }

  lemma CallGoesOn(s: State, t: State, p: nat, pr: Producer)
    requires p < |s.producers| && t.producers == s.producers[p := pr] && StepsLeft(pr) < StepsLeft(s.producers[p])
    requires t.sender == s.sender && t.closed == s.closed && t.stopped == s.stopped && t.delivered == s.delivered
    ensures OnlyProducer(s, t, p) && StepsLeft(t.producers[p]) < StepsLeft(s.producers[p])
  {
  }

  lemma CheckStep(o: Options, s: State, p: nat)
    requires o.batchMaxRows > 0 && p < |s.producers|
    requires s.producers[p].Entered? || s.producers[p].FitsMessages? || s.producers[p].FitsBytes?
    ensures var t := Step(o, s, NextOf(s, p));
      OnlyProducer(s, t, p) && StepsLeft(t.producers[p]) < StepsLeft(s.producers[p])
  {
    var t := Step(o, s, NextOf(s, p));
    CallGoesOn(s, t, p, t.producers[p]);
  }

  lemma CallStep(o: Options, s: State, p: nat)
    requires o.batchMaxRows > 0 && p < |s.producers| && !s.producers[p].Idle?
    ensures Enabled(o, s, NextOf(s, p)) && OwnStep(NextOf(s, p), p)
    ensures var t := Step(o, s, NextOf(s, p));
      OnlyProducer(s, t, p) && StepsLeft(t.producers[p]) < StepsLeft(s.producers[p])
  {
    if s.producers[p].Entered? || s.producers[p].FitsMessages? || s.producers[p].FitsBytes? {
      CheckStep(o, s, p);
    } else {
      var t := Step(o, s, NextOf(s, p));
      CallGoesOn(s, t, p, t.producers[p]);
    }
  }

  lemma CallComesCloser(o: Options, n: nat, es: seq<Event>, s: State, p: nat) returns (e: Event, t: State)
    requires o.batchMaxRows > 0 && After(o, n, es, s) && p < |s.producers| && !s.producers[p].Idle?
    ensures OwnStep(e, p) && After(o, n, es + [e], t)
    ensures OnlyProducer(s, t, p) && StepsLeft(t.producers[p]) < StepsLeft(s.producers[p])
  {
    CallStep(o, s, p);
    e := NextOf(s, p);
    t := Step(o, s, e);
    OneMoreEvent(o, n, es, e);
  }

  /** A step of call p other than its beginning. */
  predicate OwnStep(e: Event, p: nat) { ProducerEvent(e) && e.p == p && !e.Enter? }

  predicate OwnSteps(es: seq<Event>, p: nat) { forall i :: 0 <= i < |es| ==> OwnStep(es[i], p) }

  lemma OneStepFirst(o: Options, n: nat, es: seq<Event>, e: Event, rest: seq<Event>, t: State, p: nat) returns (more: seq<Event>)
    requires o.batchMaxRows > 0 && OwnStep(e, p) && OwnSteps(rest, p) && After(o, n, (es + [e]) + rest, t)
    ensures more == [e] + rest && OwnSteps(more, p) && After(o, n, es + more, t)
  {
    more := [e] + rest;
    assert es + more == (es + [e]) + rest;
  }

  lemma OnlyProducerMore(s: State, u: State, t: State, p: nat)
    requires OnlyProducer(s, u, p) && OnlyProducer(u, t, p)
    ensures OnlyProducer(s, t, p)
  {
  }

  /**
   Forward never blocks: wherever a run is, a call returns after at most five
   steps of its own, with no step of the sender or of another call.
   */
  lemma {:induction false} ForwardNeverBlocks(o: Options, n: nat, es: seq<Event>, s: State, p: nat)
    returns (more: seq<Event>, t: State)
    requires o.batchMaxRows > 0 && After(o, n, es, s) && p < |s.producers|
    ensures |more| <= StepsLeft(s.producers[p]) <= 5
    ensures OwnSteps(more, p)
    ensures After(o, n, es + more, t) && OnlyProducer(s, t, p) && t.producers[p].Idle?
    decreases StepsLeft(s.producers[p])
  {
    if s.producers[p].Idle? {
      more, t := [], s;
      assert es + more == es;
    } else {
      var e, u := CallComesCloser(o, n, es, s, p);
      var rest;
      rest, t := ForwardNeverBlocks(o, n, es + [e], u, p);
      more := OneStepFirst(o, n, es, e, rest, t, p);
      OnlyProducerMore(s, u, t, p);
    }
  }

  /**
   What the sender does next when the remote answers, or when it does not and
   waiting is over. With nothing on the channel it waits for the close or the timer.
   */
  function NextOfSender(s: State, answers: bool): Event
    requires !s.sender.NotStarted? && !s.sender.Finished?
  {
    match s.sender
    case Waiting(_, _) => if s.queue != [] then Receive else if s.closed then SeeClosed else Timer
    case Filling(_, _, _) => Fill
    case Writing(_, _, _, _) => if answers then WriteSucceeds else WriteDrops(false)
    case Settled(_, _, _, _) => TakeOffMessages
    case Uncounted(_, _, _, _) => TakeOffBytes
  }

  /** Messages on the channel or with the sender that were not handed to the writer. */
  function Unsent(s: State): nat { QueueWeight(Count(), s.queue) + |Unflushed(s.sender)| }

  function RestOf(sn: Sender): nat {
    match sn
    case Filling(_, _, rest) => |rest|
    case Writing(_, rest, _, _) => |rest|
    case Settled(_, rest, _, _) => |rest|
    case Uncounted(_, rest, _, _) => |rest|
    case _ => 0
  }

  function PhaseOf(sn: Sender): nat {
    match sn
    case Writing(_, _, _, _) => 5
    case Settled(_, _, _, _) => 4
    case Uncounted(_, _, _, _) => 3
    case Filling(_, _, _) => 2
    case Waiting(_, _) => 1
    case _ => 0
  }

  /** The sender comes closer to its end. */
  predicate Closer(s: State, t: State) {
    || Unsent(t) < Unsent(s)
    || (Unsent(t) == Unsent(s) && |t.queue| < |s.queue|)
    || (Unsent(t) == Unsent(s) && |t.queue| == |s.queue| && RestOf(t.sender) < RestOf(s.sender))
    || (Unsent(t) == Unsent(s) && |t.queue| == |s.queue| && RestOf(t.sender) == RestOf(s.sender)
        && PhaseOf(t.sender) < PhaseOf(s.sender))
  }

  /** Started and not stopped; without answers, closed and waiting over. */
  predicate Goes(s: State, answers: bool) { !s.stopped && !s.sender.NotStarted? && (answers || (s.closed && s.cancelled)) }

  /** Nothing is left to do: finished once closed, and before that nothing queued or pending. */
  predicate AtRest(s: State) { s.sender.Finished? || (!s.closed && Drained(s)) }

  /** Nothing new is accepted; with answers nothing more is lost, and without nothing more is sent. */
  predicate NothingElse(s: State, t: State, answers: bool) {
    && t.accepted == s.accepted && t.closed == s.closed && t.producers == s.producers
    && (if answers then t.lost == s.lost else t.delivered == s.delivered)
  }

  lemma ReceiveCloser(s: State)
    requires s.sender.Waiting? && s.queue != [] && s.queue[0] != []
    ensures Closer(s, DoReceive(s))
  {
  }

  lemma FillCloser(o: Options, s: State)
    requires s.sender.Filling?
    ensures Closer(s, DoFill(o, s))
  {
  }

  lemma HandOverCloser(s: State, closing: bool)
    requires s.sender.Waiting? && (closing || s.sender.pending != [])
    ensures Closer(s, DoHandOver(s, closing))
  {
  }

  lemma TakeOffCloser(s: State)
    requires s.sender.Uncounted? && (s.sender.closing ==> s.sender.rest == [])
    ensures Closer(s, DoTakeOffBytes(s))
  {
  }

  lemma NextIsCloser(o: Options, s: State, answers: bool)
    requires o.batchMaxRows > 0 && Shape(o, s) && Goes(s, answers) && !AtRest(s)
    ensures Enabled(o, s, NextOfSender(s, answers)) && Closer(s, Step(o, s, NextOfSender(s, answers)))
  {
    match s.sender
    case Waiting(_, _) =>
      if s.queue != [] {
        assert GroupOk(s.queue[0]);
        ReceiveCloser(s);
      } else {
        HandOverCloser(s, s.closed);
      }
    case Filling(_, _, _) => FillCloser(o, s);
    case Uncounted(_, _, _, _) => TakeOffCloser(s);
    case _ =>
  }

  lemma NextKeeps(o: Options, s: State, answers: bool)
    requires o.batchMaxRows > 0 && Goes(s, answers) && !s.sender.Finished? && Enabled(o, s, NextOfSender(s, answers))
    ensures var t := Step(o, s, NextOfSender(s, answers));
      Goes(t, answers) && NothingElse(s, t, answers)
  {
  }

  lemma SenderComesCloser(o: Options, n: nat, es: seq<Event>, s: State, answers: bool) returns (e: Event, t: State)
    requires o.batchMaxRows > 0 && After(o, n, es, s) && Goes(s, answers) && !AtRest(s)
    ensures !ProducerEvent(e) && !e.Close? && (answers ==> !e.WriteDrops?) && After(o, n, es + [e], t)
    ensures Closer(s, t) && Goes(t, answers) && NothingElse(s, t, answers)
  {
    RunKeepsInvariants(o, n, es);
    assert !s.sender.Finished?;
    e := NextOfSender(s, answers);
    NextIsCloser(o, s, answers);
    NextKeeps(o, s, answers);
    t := Step(o, s, e);
    OneMoreEvent(o, n, es, e);
  }

  /** Only steps of the sender, and with answers no write given up. */
  predicate SenderSteps(es: seq<Event>, answers: bool) {
    forall i :: 0 <= i < |es| ==> !ProducerEvent(es[i]) && !es[i].Close? && (answers ==> !es[i].WriteDrops?)
  }

  lemma OneEventFirst(o: Options, n: nat, es: seq<Event>, e: Event, rest: seq<Event>, t: State, answers: bool)
    returns (more: seq<Event>)
    requires o.batchMaxRows > 0 && SenderSteps([e], answers) && SenderSteps(rest, answers) && After(o, n, (es + [e]) + rest, t)
    ensures SenderSteps(more, answers) && After(o, n, es + more, t)
  {
    more := [e] + rest;
    assert [e][0] == e;
    assert es + more == (es + [e]) + rest;
  }

  lemma {:induction false} DrainFrom(o: Options, n: nat, es: seq<Event>, s: State, answers: bool) returns (more: seq<Event>, t: State)
    requires o.batchMaxRows > 0 && After(o, n, es, s) && Goes(s, answers)
    ensures SenderSteps(more, answers) && After(o, n, es + more, t)
    ensures Goes(t, answers) && AtRest(t) && NothingElse(s, t, answers)
    decreases Unsent(s), |s.queue|, RestOf(s.sender), PhaseOf(s.sender)
  {
    if AtRest(s) {
      more, t := [], s;
      assert es + more == es;
    } else {
      var e, u := SenderComesCloser(o, n, es, s, answers);
      var rest;
      rest, t := DrainFrom(o, n, es + [e], u, answers);
      more := OneEventFirst(o, n, es, e, rest, t, answers);
    }
  }

  lemma WhenFinished(o: Options, n: nat, es: seq<Event>)
    requires o.batchMaxRows > 0 && Execute(o, n, es).Some?
    requires var s := Execute(o, n, es).value; s.closed && !s.stopped && s.sender.Finished?
    ensures var s := Execute(o, n, es).value;
      && Enabled(o, s, StopReturns) && multiset(s.accepted) == multiset(s.delivered) + multiset(s.lost)
      && |s.accepted| == s.sent + s.dropped && s.queued == 0 && s.bytes == 0
  {
    RunKeepsInvariants(o, n, es);
    var s := Execute(o, n, es).value;
    assert Shape(o, s);
    StopAccountsForEverything(o, n, es);
    GaugesAreExactWhenQuiet(o, n, es);
  }

  /**
   From every reachable state in which a started forwarder was closed, the run can
   go on with the sender's own steps until Stop returns and the gauges are zero.
   If the remote answers, everything accepted and not lost before is sent by then;
   if it never answers, the same holds once waiting is over, and what was left is
   dropped and counted.
   */
  lemma StopCanAlwaysReturn(o: Options, n: nat, es: seq<Event>, answers: bool) returns (more: seq<Event>)
    requires o.batchMaxRows > 0 && Execute(o, n, es).Some?
    requires Execute(o, n, es).value.closed && Goes(Execute(o, n, es).value, answers)
    ensures SenderSteps(more, answers) && Execute(o, n, es + more).Some?
    ensures var s, t := Execute(o, n, es).value, Execute(o, n, es + more).value;
      && Enabled(o, t, StopReturns) && NothingElse(s, t, answers)
      && multiset(s.accepted) == multiset(t.delivered) + multiset(t.lost)
      && |s.accepted| == t.sent + t.dropped && t.queued == 0 && t.bytes == 0
  {
    var t;
    more, t := DrainFrom(o, n, es, Execute(o, n, es).value, answers);
    WhenFinished(o, n, es + more);
  }

  lemma WhenDrained(o: Options, n: nat, es: seq<Event>)
    requires o.batchMaxRows > 0 && Execute(o, n, es).Some? && Drained(Execute(o, n, es).value)
    requires AllIdle(Execute(o, n, es).value.producers)
    ensures var s := Execute(o, n, es).value;
      multiset(s.accepted) == multiset(s.delivered) + multiset(s.lost) && s.queued == 0 && s.bytes == 0
  {
    var s := Execute(o, n, es).value;
    GaugesAreExactWhenQuiet(o, n, es);
    forall m ensures multiset(s.accepted)[m] == (multiset(s.delivered) + multiset(s.lost))[m] {
      EveryMessageIsAccountedFor(o, n, es, m);
      IdleSums(Occurrences(m), NoGauge, s.producers);
    }
  }

  /**
   No message waits for another: from every reachable state of a started, open
   forwarder whose remote answers, the sender's steps and the timer alone lead to
   a state with nothing queued or pending, and nothing is lost on the way. With no
   call under way everything accepted and not lost before is sent by then.
   */
  lemma EverythingGetsSent(o: Options, n: nat, es: seq<Event>) returns (more: seq<Event>)
    requires o.batchMaxRows > 0 && Execute(o, n, es).Some?
    requires !Execute(o, n, es).value.closed && Goes(Execute(o, n, es).value, true)
    ensures SenderSteps(more, true) && Execute(o, n, es + more).Some?
    ensures var s, t := Execute(o, n, es).value, Execute(o, n, es + more).value;
      && Drained(t) && NothingElse(s, t, true)
      && (AllIdle(s.producers) ==>
            multiset(s.accepted) == multiset(t.delivered) + multiset(s.lost) && t.queued == 0 && t.bytes == 0)
  {
    var s := Execute(o, n, es).value;
    var t;
    more, t := DrainFrom(o, n, es, s, true);
    RestIsDrained(o, n, es + more);
    if AllIdle(s.producers) {
      WhenDrained(o, n, es + more);
    }
  }

  lemma RestIsDrained(o: Options, n: nat, es: seq<Event>)
    requires o.batchMaxRows > 0 && Execute(o, n, es).Some? && AtRest(Execute(o, n, es).value)
    ensures Drained(Execute(o, n, es).value)
  {
    RunKeepsInvariants(o, n, es);
    assert Shape(o, Execute(o, n, es).value);
  }

  lemma Joined(o: Options, n: nat, es: seq<Event>, a: seq<Event>, b: seq<Event>, t: State)
    requires o.batchMaxRows > 0 && After(o, n, (es + a) + b, t)
    ensures After(o, n, es + (a + b), t)
  {
    assert es + (a + b) == (es + a) + b;
  }

  /** The first p calls are idle. */
  predicate IdleUpTo(s: State, p: nat) { p <= |s.producers| && forall i :: 0 <= i < p ==> s.producers[i].Idle? }

  lemma OneMoreIdle(s: State, t: State, p: nat)
    requires p < |s.producers| && IdleUpTo(s, p) && OnlyProducer(s, t, p) && t.producers[p].Idle?
    ensures IdleUpTo(t, p + 1)
  {
  }

  /** Every call under way can return, one after the other. */
  lemma {:induction false} CallsCanReturn(o: Options, n: nat, es: seq<Event>, s: State, p: nat) returns (more: seq<Event>, t: State)
    requires o.batchMaxRows > 0 && After(o, n, es, s) && IdleUpTo(s, p)
    ensures After(o, n, es + more, t) && AllIdle(t.producers)
    ensures t.sender == s.sender && t.closed == s.closed && t.stopped == s.stopped && t.delivered == s.delivered
    decreases |s.producers| - p
  {
    if p == |s.producers| {
      more, t := [], s;
      assert es + more == es;
    } else {
      var mine, u := ForwardNeverBlocks(o, n, es, s, p);
      OneMoreIdle(s, u, p);
      var rest;
      rest, t := CallsCanReturn(o, n, es + mine, u, p + 1);
      more := mine + rest;
      Joined(o, n, es, mine, rest, t);
    }
  }

  lemma StartsAndCloses(o: Options, n: nat, es: seq<Event>, s: State) returns (more: seq<Event>, t: State)
    requires o.batchMaxRows > 0 && After(o, n, es, s) && AllIdle(s.producers) && !s.closed && !s.stopped
    ensures After(o, n, es + more, t) && t.closed && Goes(t, true) && t.delivered == s.delivered
  {
    if s.sender.NotStarted? {
      OneMoreEvent(o, n, es, Start);
      OneMoreEvent(o, n, es + [Start], Close);
      more, t := [Start, Close], s.(sender := Waiting([], ""), closed := true);
      assert es + more == (es + [Start]) + [Close];
    } else {
      OneMoreEvent(o, n, es, Close);
      more, t := [Close], s.(closed := true);
    }
  }

  lemma ClosesFromAnywhere(o: Options, n: nat, es: seq<Event>, s: State) returns (more: seq<Event>, t: State)
    requires o.batchMaxRows > 0 && After(o, n, es, s) && !s.closed && !s.stopped
    ensures After(o, n, es + more, t) && t.closed && Goes(t, true) && t.delivered == s.delivered
  {
    var idle, u := CallsCanReturn(o, n, es, s, 0);
    var end;
    end, t := StartsAndCloses(o, n, es + idle, u);
    more := idle + end;
    Joined(o, n, es, idle, end, t);
  }

  /** Without answers, waiting can be ended. */
  lemma WaitsOrNot(o: Options, n: nat, es: seq<Event>, s: State, answers: bool) returns (more: seq<Event>, t: State)
    requires o.batchMaxRows > 0 && After(o, n, es, s) && s.closed && Goes(s, true)
    ensures After(o, n, es + more, t) && t.closed && Goes(t, answers) && t.delivered == s.delivered
  {
    if answers {
      more, t := [], s;
      assert es + more == es;
    } else {
      OneMoreEvent(o, n, es, Cancel);
      more, t := [Cancel], s.(cancelled := true);
    }
  }

  /** Stop can return, and everything accepted was sent or counted as dropped. */
  predicate StopsWell(o: Options, s: State) {
    && Enabled(o, s, StopReturns) && multiset(s.accepted) == multiset(s.delivered) + multiset(s.lost)
    && |s.accepted| == s.sent + s.dropped && s.queued == 0 && s.bytes == 0
  }

  lemma EndsWell(o: Options, n: nat, es: seq<Event>, s: State, answers: bool) returns (more: seq<Event>, t: State)
    requires o.batchMaxRows > 0 && After(o, n, es, s) && s.closed && Goes(s, true)
    ensures After(o, n, es + more, t) && StopsWell(o, t) && (!answers ==> t.delivered == s.delivered)
  {
    var first, u := WaitsOrNot(o, n, es, s, answers);
    var rest;
    rest, t := DrainFrom(o, n, es + first, u, answers);
    WhenFinished(o, n, (es + first) + rest);
    more := first + rest;
    Joined(o, n, es, first, rest, t);
  }

  /**
   From every reachable state of an open forwarder, whatever its calls and its
   sender are doing, the run can go on so that calls return, the forwarder is
   closed and Stop returns, with everything accepted sent or counted as dropped;
   also if the remote never answers again.
   */
  lemma StopFromAnywhere(o: Options, n: nat, es: seq<Event>, s: State, answers: bool) returns (more: seq<Event>, t: State)
    requires o.batchMaxRows > 0 && After(o, n, es, s) && !s.closed && !s.stopped
    ensures After(o, n, es + more, t) && StopsWell(o, t) && (!answers ==> t.delivered == s.delivered)
  {
    var begin, u := ClosesFromAnywhere(o, n, es, s);
    var rest;
    rest, t := EndsWell(o, n, es + begin, u, answers);
    more := begin + rest;
    Joined(o, n, es, begin, rest, t);
  }
}
