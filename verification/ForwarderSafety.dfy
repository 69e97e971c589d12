/**
 What every interleaving of a forwarder's producers, sender and stop keeps.
 */
module ForwarderSafety {
  import opened LogEntry
  import opened Forwarder
  import opened Wrappers

  // ---- weights ---------------------------------------------------------------------------

  /** A quantity that adds up over messages: how often one occurs, how many there are, their bytes. */
  type Weight = seq<Entry> -> nat

  ghost predicate Additive(w: Weight) {
    w([]) == 0 && forall a, b {:trigger w(a + b)} :: w(a + b) == w(a) + w(b)
  }

  function QueueWeight(w: Weight, groups: seq<seq<Entry>>): nat {
    if groups == [] then 0 else w(groups[0]) + QueueWeight(w, groups[1..])
  }

  lemma {:induction false} QueueWeightAppend(w: Weight, groups: seq<seq<Entry>>, g: seq<Entry>)
    ensures QueueWeight(w, groups + [g]) == QueueWeight(w, groups) + w(g)
  {
    if groups == [] {
      assert groups + [g] == [g] && [g][1..] == [];
    } else {
      assert (groups + [g])[1..] == groups[1..] + [g];
      QueueWeightAppend(w, groups[1..], g);
    }
  }

  /** What a producer holds that is not on the channel yet. */
  function HeldBy(w: Weight, pr: Producer): nat {
    if pr.Entered? || pr.FitsMessages? || pr.FitsBytes? then w(pr.group) else 0
  }

  /** Which of the two gauges is meant, if any. */
  datatype Gauge = NoGauge | MessageGauge | ByteGauge

  /** What a producer has put on the channel and not counted in the gauge yet. */
  function LagOf(w: Weight, gauge: Gauge, pr: Producer): nat {
    if pr.Pushed? || (gauge.ByteGauge? && pr.CountedMessages?) then w(pr.group) else 0
  }

  function AllHeld(w: Weight, ps: seq<Producer>): nat {
    if ps == [] then 0 else HeldBy(w, ps[0]) + AllHeld(w, ps[1..])
  }

  function AllLag(w: Weight, gauge: Gauge, ps: seq<Producer>): nat {
    if ps == [] then 0 else LagOf(w, gauge, ps[0]) + AllLag(w, gauge, ps[1..])
  }

  lemma {:induction false} SumsAfter(w: Weight, gauge: Gauge, ps: seq<Producer>, p: nat, pr: Producer)
    requires p < |ps|
    ensures AllHeld(w, ps[p := pr]) == AllHeld(w, ps) - HeldBy(w, ps[p]) + HeldBy(w, pr)
    ensures AllLag(w, gauge, ps[p := pr]) == AllLag(w, gauge, ps) - LagOf(w, gauge, ps[p]) + LagOf(w, gauge, pr)
    decreases |ps|
  {
    if p > 0 {
      assert ps[p := pr][1..] == ps[1..][p - 1 := pr];
      SumsAfter(w, gauge, ps[1..], p - 1, pr);
    } else {
      assert ps[p := pr][1..] == ps[1..];
    }
  }

  predicate AllIdle(ps: seq<Producer>) { forall i :: 0 <= i < |ps| ==> ps[i].Idle? }

  lemma {:induction false} IdleSums(w: Weight, gauge: Gauge, ps: seq<Producer>)
    requires AllIdle(ps)
    ensures AllHeld(w, ps) == 0 && AllLag(w, gauge, ps) == 0
  {
    if ps != [] {
      IdleSums(w, gauge, ps[1..]);
    }
  }

  // ---- the sender -----------------------------------------------------------------------

  /** Messages the sender took from the channel and did not hand to the writer yet. */
  function Unflushed(sn: Sender): seq<Entry> {
    match sn
    case Waiting(pending, _) => pending
    case Filling(pending, _, rest) => pending + rest
    case Writing(_, rest, _, _) => rest
    case Settled(_, rest, _, _) => rest
    case Uncounted(_, rest, _, _) => rest
    case _ => []
  }

  /** The batch being written, while its messages are neither sent nor dropped. */
  function InFlight(sn: Sender): seq<Entry> { if sn.Writing? then sn.batch else [] }

  /** The batch a gauge still includes. */
  function StillCounted(gauge: Gauge, sn: Sender): seq<Entry> {
    if sn.Writing? || sn.Settled? || (gauge.ByteGauge? && sn.Uncounted?) then sn.batch else []
  }

  // ---- conservation and gauges ------------------------------------------------------------

  /** What was accepted and is neither sent nor dropped. */
  function Held(w: Weight, s: State): nat {
    AllHeld(w, s.producers) + QueueWeight(w, s.queue) + w(Unflushed(s.sender)) + w(InFlight(s.sender))
  }

  /** What was accepted is sent, dropped or held. */
  predicate Conserved(w: Weight, s: State) {
    w(s.accepted) == w(s.delivered) + w(s.lost) + Held(w, s)
  }

  /** What the channel and the sender hold that a gauge should show. */
  function Load(w: Weight, gauge: Gauge, s: State): nat {
    QueueWeight(w, s.queue) + w(Unflushed(s.sender)) + w(StillCounted(gauge, s.sender))
  }

  /** A gauge shows the load, less what producers have not counted yet. */
  predicate Gauged(w: Weight, gauge: Gauge, s: State) {
    match gauge
    case NoGauge => true
    case MessageGauge => s.queued == Load(w, gauge, s) - AllLag(w, gauge, s.producers)
    case ByteGauge => s.bytes == Load(w, gauge, s) - AllLag(w, gauge, s.producers)
  }

  predicate Books(w: Weight, gauge: Gauge, s: State) { Conserved(w, s) && Gauged(w, gauge, s) }

  /** The weight a gauge shows. */
  ghost predicate Shows(gauge: Gauge, w: Weight) {
    match gauge
    case NoGauge => true
    case MessageGauge => forall g :: w(g) == |g|
    case ByteGauge => forall g :: w(g) == SizeOf(g)
  }

  predicate Counters(s: State) { s.sent == |s.delivered| && s.dropped == |s.lost| }

  // ---- shape --------------------------------------------------------------------------------

  predicate OneTenant(tenant: string, entries: seq<Entry>) {
    forall i :: 0 <= i < |entries| ==> entries[i].tenant == tenant
  }

  /** A group as a producer queues it: not empty, for one tenant. */
  predicate GroupOk(g: seq<Entry>) { g != [] && OneTenant(g[0].tenant, g) }

  predicate ProducerOk(pr: Producer) { !pr.Idle? ==> GroupOk(pr.group) && pr.size == SizeOf(pr.group) }

  /** Messages waiting to be sent: for one tenant, and short of a full batch. */
  predicate PendingOk(o: Options, tenant: string, pending: seq<Entry>) {
    OneTenant(tenant, pending) && (pending != [] ==> !Full(o, pending))
  }

  predicate RestOk(rest: seq<Entry>, resume: string, closing: bool) { OneTenant(resume, rest) && (closing ==> rest == []) }

  predicate SenderOk(o: Options, sn: Sender) {
    match sn
    case Waiting(pending, tenant) => PendingOk(o, tenant, pending)
    case Filling(pending, tenant, rest) => PendingOk(o, tenant, pending) && OneTenant(tenant, rest)
    case Writing(_, rest, resume, closing) => RestOk(rest, resume, closing)
    case Settled(_, rest, resume, closing) => RestOk(rest, resume, closing)
    case Uncounted(_, rest, resume, closing) => RestOk(rest, resume, closing)
    case _ => true
  }

  predicate Closing(sn: Sender) { sn.Finished? || ((sn.Writing? || sn.Settled? || sn.Uncounted?) && sn.closing) }

  /** What each part of the state looks like on its own, and what closing implies. */
  predicate Shape(o: Options, s: State)
    requires o.batchMaxRows > 0
  {
    && (forall i :: 0 <= i < |s.producers| ==> ProducerOk(s.producers[i]))
    && (forall i :: 0 <= i < |s.queue| ==> GroupOk(s.queue[i]))
    && |s.queue| <= Capacity(o)
    && SenderOk(o, s.sender)
    && (s.closed ==> AllIdle(s.producers))
    && (Closing(s.sender) ==> s.closed && s.queue == [])
  }

  // ---- batches --------------------------------------------------------------------------------

  /**
   A batch as the writer gets it: not empty, within the row limit, for one
   tenant, and over the byte limit at most by its last message.
   */
  predicate BatchOk(o: Options, b: Batch) {
    && 0 < |b.rows| <= o.batchMaxRows
    && OneTenant(b.tenant, b.rows)
    && (o.batchMaxBytes > 0 && |b.rows| > 1 ==> SizeOf(b.rows[..|b.rows| - 1]) < o.batchMaxBytes)
  }

  function FlatBatches(bs: seq<Batch>): seq<Entry> {
    if bs == [] then [] else FlatBatches(bs[..|bs| - 1]) + bs[|bs| - 1].rows
  }

  /** The batches, in order, are what was taken off the channel, in order. */
  predicate Batched(o: Options, s: State) {
    && FlatBatches(s.batches) + Unflushed(s.sender) == s.taken
    && forall i :: 0 <= i < |s.batches| ==> BatchOk(o, s.batches[i])
  }

  // ---- each step keeps the books ----------------------------------------------------------

  lemma EnterBooks(w: Weight, gauge: Gauge, o: Options, s: State, p: nat, tenant: string, entries: seq<Entry>)
    requires Additive(w) && Books(w, gauge, s) && p < |s.producers| && s.producers[p].Idle?
    ensures Books(w, gauge, DoEnter(o, s, p, tenant, entries))
  {
    var g := Retenanted(tenant, Kept(o, entries));
    SumsAfter(w, gauge, s.producers, p, Entered(g, SizeOf(Kept(o, entries))));
    assert w(s.accepted + g) == w(s.accepted) + w(g);
  }

  lemma DropBooks(w: Weight, gauge: Gauge, s: State, p: nat)
    requires Additive(w) && Books(w, gauge, s) && p < |s.producers|
    requires s.producers[p].Entered? || s.producers[p].FitsMessages? || s.producers[p].FitsBytes?
    ensures Books(w, gauge, DropGroup(s, p))
  {
    SumsAfter(w, gauge, s.producers, p, Idle);
    assert w(s.lost + s.producers[p].group) == w(s.lost) + w(s.producers[p].group);
  }

  lemma PassBooks(w: Weight, gauge: Gauge, s: State, p: nat, pr: Producer)
    requires Books(w, gauge, s) && p < |s.producers| && (s.producers[p].Entered? || s.producers[p].FitsMessages?)
    requires (pr.FitsMessages? || pr.FitsBytes?) && pr.group == s.producers[p].group
    ensures Books(w, gauge, Put(s, p, pr))
  {
    SumsAfter(w, gauge, s.producers, p, pr);
  }

  lemma PushBooks(w: Weight, gauge: Gauge, o: Options, s: State, p: nat)
    requires o.batchMaxRows > 0 && Additive(w) && Books(w, gauge, s) && p < |s.producers| && s.producers[p].FitsBytes?
    ensures Books(w, gauge, DoPush(o, s, p))
  {
    var pr := s.producers[p];
    if |s.queue| < Capacity(o) {
      SumsAfter(w, gauge, s.producers, p, Pushed(pr.group, pr.size));
      QueueWeightAppend(w, s.queue, pr.group);
    } else {
      DropBooks(w, gauge, s, p);
    }
  }

  lemma AddMessagesBooks(w: Weight, gauge: Gauge, s: State, p: nat)
    requires Shows(gauge, w) && Books(w, gauge, s) && p < |s.producers| && s.producers[p].Pushed?
    ensures Books(w, gauge, DoAddMessages(s, p))
  {
    var pr := s.producers[p];
    SumsAfter(w, gauge, s.producers, p, CountedMessages(pr.group, pr.size));
  }

  lemma AddBytesBooks(w: Weight, gauge: Gauge, s: State, p: nat)
    requires Shows(gauge, w) && Books(w, gauge, s) && p < |s.producers|
    requires s.producers[p].CountedMessages? && s.producers[p].size == SizeOf(s.producers[p].group)
    ensures Books(w, gauge, DoAddBytes(s, p))
  {
    SumsAfter(w, gauge, s.producers, p, Idle);
  }

  /** Handing pending messages to the writer moves them and changes no total. */
  lemma FlushBooks(w: Weight, gauge: Gauge, s: State, batch: seq<Entry>, tenant: string, rest: seq<Entry>, resume: string,
                   closing: bool)
    requires Additive(w) && Books(w, gauge, s) && (s.sender.Waiting? || s.sender.Filling?)
    requires Unflushed(s.sender) == batch + rest
    ensures Books(w, gauge, Flush(s, batch, tenant, rest, resume, closing))
  {
    assert w(batch + rest) == w(batch) + w(rest);
  }

  lemma ReceiveBooks(w: Weight, gauge: Gauge, s: State)
    requires Additive(w) && Books(w, gauge, s) && s.sender.Waiting? && s.queue != [] && s.queue[0] != []
    ensures Books(w, gauge, DoReceive(s))
  {
    var g := s.queue[0];
    var t := s.(queue := s.queue[1..], taken := s.taken + g, sender := Filling(s.sender.pending, g[0].tenant, g));
    assert w(s.sender.pending + g) == w(s.sender.pending) + w(g);
    assert Books(w, gauge, t);
    FlushBooks(w, gauge, t, s.sender.pending, s.sender.tenant, g, g[0].tenant, false);
  }

  lemma FillBooks(w: Weight, gauge: Gauge, o: Options, s: State)
    requires Additive(w) && Books(w, gauge, s) && s.sender.Filling?
    ensures Books(w, gauge, DoFill(o, s))
  {
    var f := s.sender;
    if f.rest == [] {
      assert f.pending + f.rest == f.pending;
    } else {
      var pending := f.pending + [f.rest[0]];
      assert pending + f.rest[1..] == f.pending + f.rest;
      FlushBooks(w, gauge, s, pending, f.tenant, f.rest[1..], f.tenant, false);
    }
  }

  lemma HandOverBooks(w: Weight, gauge: Gauge, s: State, closing: bool)
    requires Additive(w) && Books(w, gauge, s) && s.sender.Waiting?
    ensures Books(w, gauge, DoHandOver(s, closing))
  {
    var pending := s.sender.pending;
    assert pending + [] == pending;
    FlushBooks(w, gauge, s, pending, s.sender.tenant, [], s.sender.tenant, closing);
  }

  lemma SettleBooks(w: Weight, gauge: Gauge, s: State, ok: bool)
    requires Additive(w) && Books(w, gauge, s) && s.sender.Writing?
    ensures Books(w, gauge, DoSettle(s, ok))
  {
    var b := s.sender.batch;
    assert w(s.delivered + b) == w(s.delivered) + w(b);
    assert w(s.lost + b) == w(s.lost) + w(b);
  }

  lemma TakeOffMessagesBooks(w: Weight, gauge: Gauge, s: State)
    requires Additive(w) && Shows(gauge, w) && Books(w, gauge, s) && s.sender.Settled?
    ensures Books(w, gauge, DoTakeOffMessages(s))
  {
  }

  lemma TakeOffBytesBooks(w: Weight, gauge: Gauge, s: State)
    requires Additive(w) && Shows(gauge, w) && Books(w, gauge, s) && s.sender.Uncounted?
    requires s.sender.closing ==> s.sender.rest == []
    ensures Books(w, gauge, DoTakeOffBytes(s))
  {
    var t := DoTakeOffBytes(s);
    assert [] + s.sender.rest == s.sender.rest;
    assert Unflushed(t.sender) == s.sender.rest;
    assert InFlight(t.sender) == [] && StillCounted(gauge, t.sender) == [];
    assert gauge.ByteGauge? ==> StillCounted(gauge, s.sender) == s.sender.batch;
  }

  lemma ProducerStepBooks(w: Weight, gauge: Gauge, o: Options, s: State, e: Event)
    requires o.batchMaxRows > 0 && Additive(w) && Shows(gauge, w) && Books(w, gauge, s) && Shape(o, s)
    requires ProducerEvent(e) && Enabled(o, s, e)
    ensures Books(w, gauge, Step(o, s, e))
  {
    var pr := At(s, e.p);
    match e
    case Enter(p, tenant, entries) => EnterBooks(w, gauge, o, s, p, tenant, entries);
    case CheckMessages(p) =>
      DropBooks(w, gauge, s, p);
      PassBooks(w, gauge, s, p, FitsMessages(pr.group, pr.size));
    case CheckBytes(p) =>
      DropBooks(w, gauge, s, p);
      PassBooks(w, gauge, s, p, FitsBytes(pr.group, pr.size));
    case Push(p) => PushBooks(w, gauge, o, s, p);
    case AddMessages(p) => AddMessagesBooks(w, gauge, s, p);
    case AddBytes(p) =>
      assert ProducerOk(s.producers[p]);
      AddBytesBooks(w, gauge, s, p);
  }

  /** Filling and flushing move messages and change no total. */
  lemma FillingStepBooks(w: Weight, gauge: Gauge, o: Options, s: State, e: Event)
    requires o.batchMaxRows > 0 && Additive(w) && Books(w, gauge, s) && Enabled(o, s, e)
    requires e.Receive? || e.Fill? || e.Timer? || e.SeeClosed?
    ensures Books(w, gauge, Step(o, s, e))
  {
    match e
    case Receive => ReceiveBooks(w, gauge, s);
    case Fill => FillBooks(w, gauge, o, s);
    case Timer => HandOverBooks(w, gauge, s, false);
    case SeeClosed => HandOverBooks(w, gauge, s, true);
  }

  lemma WritingStepBooks(w: Weight, gauge: Gauge, o: Options, s: State, e: Event)
    requires o.batchMaxRows > 0 && Additive(w) && Shows(gauge, w) && Books(w, gauge, s) && SenderOk(o, s.sender) && Enabled(o, s, e)
    requires e.WriteSucceeds? || e.WriteRetries? || e.WriteDrops? || e.TakeOffMessages? || e.TakeOffBytes?
    ensures Books(w, gauge, Step(o, s, e))
  {
    match e
    case WriteSucceeds => SettleBooks(w, gauge, s, true);
    case WriteRetries =>
    case WriteDrops(_) => SettleBooks(w, gauge, s, false);
    case TakeOffMessages => TakeOffMessagesBooks(w, gauge, s);
    case TakeOffBytes => TakeOffBytesBooks(w, gauge, s);
  }

  lemma StopStepBooks(w: Weight, gauge: Gauge, o: Options, s: State, e: Event)
    requires o.batchMaxRows > 0 && Books(w, gauge, s) && Enabled(o, s, e)
    requires e.Start? || e.Close? || e.Cancel? || e.StopReturns?
    ensures Books(w, gauge, Step(o, s, e))
  {
  }

  lemma StepBooks(w: Weight, gauge: Gauge, o: Options, s: State, e: Event)
    requires o.batchMaxRows > 0 && Additive(w) && Shows(gauge, w) && Books(w, gauge, s) && Shape(o, s) && Enabled(o, s, e)
    ensures Books(w, gauge, Step(o, s, e))
  {
    if ProducerEvent(e) {
      ProducerStepBooks(w, gauge, o, s, e);
    } else if e.Receive? || e.Fill? || e.Timer? || e.SeeClosed? {
      FillingStepBooks(w, gauge, o, s, e);
    } else if e.Start? || e.Close? || e.Cancel? || e.StopReturns? {
      StopStepBooks(w, gauge, o, s, e);
    } else {
      WritingStepBooks(w, gauge, o, s, e);
    }
  }

  // ---- each step keeps the shape ------------------------------------------------------------

  predicate ProducerEvent(e: Event) {
    e.Enter? || e.CheckMessages? || e.CheckBytes? || e.Push? || e.AddMessages? || e.AddBytes?
  }

  lemma KeptGroupOk(o: Options, tenant: string, entries: seq<Entry>)
    ensures var g := Retenanted(tenant, Kept(o, entries));
      g != [] ==> ProducerOk(Entered(g, SizeOf(Kept(o, entries))))
  {
    SizeIgnoresTenant(tenant, Kept(o, entries));
  }

  /** A producer moves, and at most adds a group to a channel that has room. */
  lemma ProducerMoves(o: Options, s: State, t: State, p: nat, pr: Producer)
    requires o.batchMaxRows > 0 && Shape(o, s) && !s.closed && p < |s.producers| && ProducerOk(pr)
    requires t.producers == s.producers[p := pr] && t.closed == s.closed && t.sender == s.sender
    requires t.queue == s.queue || (exists g :: GroupOk(g) && t.queue == s.queue + [g] && |s.queue| < Capacity(o))
    ensures Shape(o, t)
  {
  }

  /** A producer in a call holds a proper group, and the forwarder is open. */
  lemma InCall(o: Options, s: State, p: nat)
    requires o.batchMaxRows > 0 && Shape(o, s) && p < |s.producers| && !s.producers[p].Idle?
    ensures !s.closed && ProducerOk(s.producers[p]) && GroupOk(s.producers[p].group)
  {
  }

  lemma EnterShape(o: Options, s: State, p: nat, tenant: string, entries: seq<Entry>)
    requires o.batchMaxRows > 0 && Shape(o, s) && !s.closed && p < |s.producers|
    ensures Shape(o, DoEnter(o, s, p, tenant, entries))
  {
    var kept := Kept(o, entries);
    KeptGroupOk(o, tenant, entries);
    if Retenanted(tenant, kept) != [] {
      ProducerMoves(o, s, DoEnter(o, s, p, tenant, entries), p, Entered(Retenanted(tenant, kept), SizeOf(kept)));
    }
  }

  lemma DropShape(o: Options, s: State, p: nat)
    requires o.batchMaxRows > 0 && Shape(o, s) && p < |s.producers| && !s.producers[p].Idle?
    ensures Shape(o, DropGroup(s, p))
  {
    InCall(o, s, p);
    ProducerMoves(o, s, DropGroup(s, p), p, Idle);
  }

  lemma CheckShape(o: Options, s: State, p: nat)
    requires o.batchMaxRows > 0 && Shape(o, s) && p < |s.producers| && !s.producers[p].Idle?
    ensures s.producers[p].Entered? ==> Shape(o, DoCheckMessages(o, s, p))
    ensures s.producers[p].FitsMessages? ==> Shape(o, DoCheckBytes(o, s, p))
  {
    var pr := s.producers[p];
    InCall(o, s, p);
    DropShape(o, s, p);
    ProducerMoves(o, s, Put(s, p, FitsMessages(pr.group, pr.size)), p, FitsMessages(pr.group, pr.size));
    ProducerMoves(o, s, Put(s, p, FitsBytes(pr.group, pr.size)), p, FitsBytes(pr.group, pr.size));
  }

  lemma PushShape(o: Options, s: State, p: nat)
    requires o.batchMaxRows > 0 && Shape(o, s) && p < |s.producers| && s.producers[p].FitsBytes?
    ensures Shape(o, DoPush(o, s, p))
  {
    var pr := s.producers[p];
    InCall(o, s, p);
    if |s.queue| < Capacity(o) {
      ProducerMoves(o, s, DoPush(o, s, p), p, Pushed(pr.group, pr.size));
    } else {
      DropShape(o, s, p);
    }
  }

  lemma CountShape(o: Options, s: State, p: nat)
    requires o.batchMaxRows > 0 && Shape(o, s) && p < |s.producers| && !s.producers[p].Idle?
    ensures s.producers[p].Pushed? ==> Shape(o, DoAddMessages(s, p))
    ensures s.producers[p].CountedMessages? ==> Shape(o, DoAddBytes(s, p))
  {
    var pr := s.producers[p];
    InCall(o, s, p);
    if pr.Pushed? {
      ProducerMoves(o, s, DoAddMessages(s, p), p, CountedMessages(pr.group, pr.size));
    } else if pr.CountedMessages? {
      ProducerMoves(o, s, DoAddBytes(s, p), p, Idle);
    }
  }

  lemma ProducerShape(o: Options, s: State, e: Event)
    requires o.batchMaxRows > 0 && Shape(o, s) && Enabled(o, s, e) && ProducerEvent(e)
    ensures Shape(o, Step(o, s, e))
  {
    match e
    case Enter(p, tenant, entries) => EnterShape(o, s, p, tenant, entries);
    case CheckMessages(p) => CheckShape(o, s, p);
    case CheckBytes(p) => CheckShape(o, s, p);
    case Push(p) => PushShape(o, s, p);
    case AddMessages(p) => CountShape(o, s, p);
    case AddBytes(p) => CountShape(o, s, p);
  }

  /** Moving the sender keeps everything else as it was. */
  lemma SenderMoves(o: Options, s: State, t: State)
    requires o.batchMaxRows > 0 && Shape(o, s) && SenderOk(o, t.sender) && t.producers == s.producers && t.closed == s.closed
    requires t.queue == s.queue && (Closing(t.sender) ==> s.closed && s.queue == [])
    ensures Shape(o, t)
  {
  }

  lemma ReceiveShape(o: Options, s: State)
    requires o.batchMaxRows > 0 && Shape(o, s) && s.sender.Waiting? && s.queue != [] && s.queue[0] != []
    ensures Shape(o, DoReceive(s))
  {
    var g := s.queue[0];
    assert GroupOk(g);
    var t := s.(queue := s.queue[1..], taken := s.taken + g);
    assert Shape(o, t);
    SenderMoves(o, t, DoReceive(s));
  }

  lemma FillShape(o: Options, s: State)
    requires o.batchMaxRows > 0 && Shape(o, s) && s.sender.Filling?
    ensures Shape(o, DoFill(o, s))
  {
    SenderMoves(o, s, DoFill(o, s));
  }

  lemma HandOverShape(o: Options, s: State, closing: bool)
    requires o.batchMaxRows > 0 && Shape(o, s) && s.sender.Waiting? && (closing ==> s.closed && s.queue == [])
    ensures Shape(o, DoHandOver(s, closing))
  {
    SenderMoves(o, s, DoHandOver(s, closing));
  }

  lemma WriteShape(o: Options, s: State, e: Event)
    requires o.batchMaxRows > 0 && Shape(o, s) && Enabled(o, s, e)
    requires e.WriteSucceeds? || e.WriteRetries? || e.WriteDrops? || e.TakeOffMessages? || e.TakeOffBytes?
    ensures Shape(o, Step(o, s, e))
  {
    SenderMoves(o, s, Step(o, s, e));
  }

  lemma StepShape(o: Options, s: State, e: Event)
    requires o.batchMaxRows > 0 && Shape(o, s) && Enabled(o, s, e)
    ensures Shape(o, Step(o, s, e))
  {
    match e
    case Start => SenderMoves(o, s, Step(o, s, e));
    case Receive => ReceiveShape(o, s);
    case Fill => FillShape(o, s);
    case Timer => HandOverShape(o, s, false);
    case SeeClosed => HandOverShape(o, s, true);
    case Close =>
    case Cancel =>
    case StopReturns =>
    case _ =>
      if ProducerEvent(e) {
        ProducerShape(o, s, e);
      } else {
        WriteShape(o, s, e);
      }
  }

  lemma ProducerCounters(o: Options, s: State, e: Event)
    requires o.batchMaxRows > 0 && Counters(s) && Enabled(o, s, e) && ProducerEvent(e)
    ensures Counters(Step(o, s, e))
  {
    match e
    case Enter(_, _, _) =>
    case CheckMessages(_) =>
    case CheckBytes(_) =>
    case Push(_) =>
    case AddMessages(_) =>
    case AddBytes(_) =>
  }

  lemma StepCounters(o: Options, s: State, e: Event)
    requires o.batchMaxRows > 0 && Counters(s) && Enabled(o, s, e)
    ensures Counters(Step(o, s, e))
  {
    match e
    case WriteSucceeds =>
    case WriteDrops(_) =>
    case _ =>
      if ProducerEvent(e) {
        ProducerCounters(o, s, e);
      }
  }

  // ---- each step keeps the batches in order --------------------------------------------------

  lemma FlushBatched(o: Options, s: State, batch: seq<Entry>, tenant: string, rest: seq<Entry>, resume: string, closing: bool)
    requires Batched(o, s) && Unflushed(s.sender) == batch + rest && BatchOk(o, Batch(tenant, batch))
    ensures Batched(o, Flush(s, batch, tenant, rest, resume, closing))
  {
    assert (s.batches + [Batch(tenant, batch)])[..|s.batches|] == s.batches;
  }

  lemma FullIsBatch(o: Options, pending: seq<Entry>, m: Entry, tenant: string)
    requires o.batchMaxRows > 0 && PendingOk(o, tenant, pending) && m.tenant == tenant
    ensures BatchOk(o, Batch(tenant, pending + [m]))
  {
    assert (pending + [m])[..|pending|] == pending;
  }

  lemma PendingIsBatch(o: Options, pending: seq<Entry>, tenant: string)
    requires pending != [] && PendingOk(o, tenant, pending)
    ensures BatchOk(o, Batch(tenant, pending))
  {
  }

  lemma ReceiveBatched(o: Options, s: State)
    requires Batched(o, s) && s.sender.Waiting? && SenderOk(o, s.sender) && s.queue != [] && s.queue[0] != []
    ensures Batched(o, DoReceive(s))
  {
    var g, pending := s.queue[0], s.sender.pending;
    var t := s.(queue := s.queue[1..], taken := s.taken + g, sender := Filling(pending, g[0].tenant, g));
    assert FlatBatches(s.batches) + (pending + g) == (FlatBatches(s.batches) + pending) + g;
    assert Batched(o, t);
    if |pending| > 0 && g[0].tenant != s.sender.tenant {
      PendingIsBatch(o, pending, s.sender.tenant);
      FlushBatched(o, t, pending, s.sender.tenant, g, g[0].tenant, false);
    }
  }

  lemma FillBatched(o: Options, s: State)
    requires o.batchMaxRows > 0 && Batched(o, s) && s.sender.Filling? && SenderOk(o, s.sender)
    ensures Batched(o, DoFill(o, s))
  {
    var f := s.sender;
    if f.rest == [] {
      assert f.pending + f.rest == f.pending;
    } else {
      var pending := f.pending + [f.rest[0]];
      assert pending + f.rest[1..] == f.pending + f.rest;
      FullIsBatch(o, f.pending, f.rest[0], f.tenant);
      FlushBatched(o, s, pending, f.tenant, f.rest[1..], f.tenant, false);
    }
  }

  lemma HandOverBatched(o: Options, s: State, closing: bool)
    requires Batched(o, s) && s.sender.Waiting? && SenderOk(o, s.sender)
    ensures Batched(o, DoHandOver(s, closing))
  {
    var w := s.sender;
    if w.pending != [] {
      PendingIsBatch(o, w.pending, w.tenant);
      assert w.pending + [] == w.pending;
      FlushBatched(o, s, w.pending, w.tenant, [], w.tenant, closing);
    }
  }

  /** Steps that neither take nor flush leave the batches alone. */
  lemma SameBatches(o: Options, s: State, t: State)
    requires Batched(o, s) && t.batches == s.batches && t.taken == s.taken && Unflushed(t.sender) == Unflushed(s.sender)
    ensures Batched(o, t)
  {
  }

  lemma ProducerBatched(o: Options, s: State, e: Event)
    requires o.batchMaxRows > 0 && Batched(o, s) && Enabled(o, s, e) && ProducerEvent(e)
    ensures Batched(o, Step(o, s, e))
  {
    match e
    case Enter(p, tenant, entries) => SameBatches(o, s, DoEnter(o, s, p, tenant, entries));
    case CheckMessages(p) => SameBatches(o, s, DoCheckMessages(o, s, p));
    case CheckBytes(p) => SameBatches(o, s, DoCheckBytes(o, s, p));
    case Push(p) => SameBatches(o, s, DoPush(o, s, p));
    case AddMessages(p) => SameBatches(o, s, DoAddMessages(s, p));
    case AddBytes(p) => SameBatches(o, s, DoAddBytes(s, p));
  }

  lemma TakeOffBatched(o: Options, s: State)
    requires Batched(o, s) && s.sender.Uncounted? && SenderOk(o, s.sender)
    ensures Batched(o, DoTakeOffBytes(s))
  {
    assert [] + s.sender.rest == s.sender.rest;
    SameBatches(o, s, DoTakeOffBytes(s));
  }

  lemma WriteBatched(o: Options, s: State, e: Event)
    requires o.batchMaxRows > 0 && Batched(o, s) && Enabled(o, s, e) && SenderOk(o, s.sender)
    requires !ProducerEvent(e) && !e.Receive? && !e.Fill? && !e.Timer? && !e.SeeClosed?
    ensures Batched(o, Step(o, s, e))
  {
    match e
    case WriteSucceeds => SameBatches(o, s, DoSettle(s, true));
    case WriteDrops(_) => SameBatches(o, s, DoSettle(s, false));
    case TakeOffMessages => SameBatches(o, s, DoTakeOffMessages(s));
    case TakeOffBytes => TakeOffBatched(o, s);
    case _ =>
  }

  lemma StepBatched(o: Options, s: State, e: Event)
    requires o.batchMaxRows > 0 && Shape(o, s) && Batched(o, s) && Enabled(o, s, e)
    ensures Batched(o, Step(o, s, e))
  {
    match e
    case Receive => ReceiveBatched(o, s);
    case Fill => FillBatched(o, s);
    case Timer => HandOverBatched(o, s, false);
    case SeeClosed => HandOverBatched(o, s, true);
    case _ =>
      if ProducerEvent(e) {
        ProducerBatched(o, s, e);
      } else {
        WriteBatched(o, s, e);
      }
  }

  // ---- every run -----------------------------------------------------------------------------

  function Occurrences(m: Entry): Weight { (g: seq<Entry>) => multiset(g)[m] }

  function Count(): Weight { (g: seq<Entry>) => |g| }

  function Bytes(): Weight { (g: seq<Entry>) => SizeOf(g) }

  lemma OccurrencesAdd(m: Entry)
    ensures Additive(Occurrences(m))
  {
  }

  lemma GaugesAdd()
    ensures Additive(Count()) && Additive(Bytes())
    ensures Shows(MessageGauge, Count()) && Shows(ByteGauge, Bytes())
  {
    var w := Bytes();
    forall a, b ensures w(a + b) == w(a) + w(b) {
      SizeOfJoin(a, b);
    }
  }

  ghost predicate Inv(o: Options, s: State)
    requires o.batchMaxRows > 0
  {
    && Shape(o, s) && Counters(s) && Batched(o, s)
    && (forall m :: Books(Occurrences(m), NoGauge, s))
    && Books(Count(), MessageGauge, s) && Books(Bytes(), ByteGauge, s)
  }

  lemma InitBooks(w: Weight, gauge: Gauge, n: nat)
    requires Additive(w)
    ensures Books(w, gauge, Init(n))
  {
    IdleSums(w, gauge, Init(n).producers);
  }

  lemma InitShape(o: Options, n: nat)
    requires o.batchMaxRows > 0
    ensures Shape(o, Init(n)) && Counters(Init(n)) && Batched(o, Init(n))
  {
  }

  lemma InitGauges(n: nat)
    ensures Books(Count(), MessageGauge, Init(n)) && Books(Bytes(), ByteGauge, Init(n))
  {
    GaugesAdd();
    InitBooks(Count(), MessageGauge, n);
    InitBooks(Bytes(), ByteGauge, n);
  }

  lemma InitOccurrences(m: Entry, n: nat)
    ensures Books(Occurrences(m), NoGauge, Init(n))
  {
    OccurrencesAdd(m);
    InitBooks(Occurrences(m), NoGauge, n);
  }

  lemma InitInv(o: Options, n: nat)
    requires o.batchMaxRows > 0
    ensures Inv(o, Init(n))
  {
    InitShape(o, n);
    InitGauges(n);
    forall m ensures Books(Occurrences(m), NoGauge, Init(n)) {
      InitOccurrences(m, n);
    }
  }

  lemma StepOccurrences(m: Entry, o: Options, s: State, e: Event)
    requires o.batchMaxRows > 0 && Shape(o, s) && Books(Occurrences(m), NoGauge, s) && Enabled(o, s, e)
    ensures Books(Occurrences(m), NoGauge, Step(o, s, e))
  {
    OccurrencesAdd(m);
    StepBooks(Occurrences(m), NoGauge, o, s, e);
  }

  lemma StepGauges(o: Options, s: State, e: Event)
    requires o.batchMaxRows > 0 && Shape(o, s) && Enabled(o, s, e)
    requires Books(Count(), MessageGauge, s) && Books(Bytes(), ByteGauge, s)
    ensures Books(Count(), MessageGauge, Step(o, s, e)) && Books(Bytes(), ByteGauge, Step(o, s, e))
  {
    GaugesAdd();
    StepBooks(Count(), MessageGauge, o, s, e);
    StepBooks(Bytes(), ByteGauge, o, s, e);
  }

  lemma StepInv(o: Options, s: State, e: Event)
    requires o.batchMaxRows > 0 && Inv(o, s) && Enabled(o, s, e)
    ensures Inv(o, Step(o, s, e))
  {
    var t := Step(o, s, e);
    assert Shape(o, t) by { StepShape(o, s, e); }
    assert Counters(t) by { StepCounters(o, s, e); }
    assert Batched(o, t) by { StepBatched(o, s, e); }
    forall m ensures Books(Occurrences(m), NoGauge, t) {
      StepOccurrences(m, o, s, e);
    }
    StepGauges(o, s, e);
  }

  /** Every run of any number of producers, the sender and Stop keeps the invariants. */
  lemma {:induction false} RunKeepsInvariants(o: Options, n: nat, es: seq<Event>)
    requires o.batchMaxRows > 0 && Execute(o, n, es).Some?
    ensures Inv(o, Execute(o, n, es).value)
    decreases |es|
  {
    if es == [] {
      InitInv(o, n);
    } else {
      RunKeepsInvariants(o, n, es[..|es| - 1]);
      StepInv(o, Execute(o, n, es[..|es| - 1]).value, es[|es| - 1]);
    }
  }
}
