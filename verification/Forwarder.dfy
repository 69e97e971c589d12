/**
 One forwarder as a step machine: producers that check, send and count in
 separate steps, a single sender that batches and writes, and a stop that may
 come at any moment. Every interleaving of these steps is a run.
 */
module Forwarder {
  import opened LogEntry
  import opened Wrappers

  datatype Options = Options(
    queueMaxMessages: int,
    queueMaxBytes: int,
    batchMaxRows: int,
    batchMaxBytes: int,
    sources: Option<set<string>>,
    minSeverity: Option<int>)

  /** Defaults for limits that are not positive. */
  function WithDefaults(o: Options): (r: Options)
    ensures r.batchMaxRows > 0 && r.queueMaxMessages > 0
    ensures r == o <==> o.batchMaxRows > 0 && o.queueMaxMessages > 0
    ensures r == o.(batchMaxRows := r.batchMaxRows, queueMaxMessages := r.queueMaxMessages)
  {
    o.(batchMaxRows := if o.batchMaxRows <= 0 then 10_000 else o.batchMaxRows,
       queueMaxMessages := if o.queueMaxMessages <= 0 then 200_000 else o.queueMaxMessages)
  }

  /** Slots of the channel: at least eight, and otherwise as many batch-sized groups as the message limit allows. */
  function Capacity(o: Options): (n: nat)
    requires o.batchMaxRows > 0
    ensures n >= 8
  {
    var n := o.queueMaxMessages / o.batchMaxRows;
    if n < 8 then 8 else n
  }

  /** One more batch-sized group than the channel has slots is over the message limit; above eight slots they all fit. */
  lemma CapacityFitsTheLimit(o: Options)
    requires o.batchMaxRows > 0
    ensures o.queueMaxMessages < (Capacity(o) + 1) * o.batchMaxRows
    ensures Capacity(o) > 8 ==> Capacity(o) * o.batchMaxRows <= o.queueMaxMessages
  {
    var n := o.queueMaxMessages / o.batchMaxRows;
    assert n * o.batchMaxRows <= o.queueMaxMessages < (n + 1) * o.batchMaxRows;
    assert (Capacity(o) - n) * o.batchMaxRows >= 0;
  }

  // ---- what a producer queues -----------------------------------------------------

  predicate Passes(o: Options, e: Entry) {
    && (o.sources.Some? ==> e.source in o.sources.value)
    && (o.minSeverity.Some? ==> e.severity <= o.minSeverity.value)
  }

  function Kept(o: Options, entries: seq<Entry>): seq<Entry> {
    if entries == [] then []
    else Kept(o, entries[..|entries| - 1]) + if Passes(o, entries[|entries| - 1]) then [entries[|entries| - 1]] else []
  }

  lemma KeptOneMore(o: Options, entries: seq<Entry>, i: nat)
    requires i < |entries|
    ensures var before, after := Kept(o, entries[..i]), Kept(o, entries[..i + 1]);
      if Passes(o, entries[i]) then after == before + [entries[i]] && SizeOf(after) == SizeOf(before) + EstimatedSize(entries[i])
      else after == before
  {
    assert entries[..i + 1][..i] == entries[..i];
    var before, after := Kept(o, entries[..i]), Kept(o, entries[..i + 1]);
    if Passes(o, entries[i]) {
      assert after[..|after| - 1] == before;
    }
  }

  /** The copies a producer queues, and the size it counts for them. */
  method CopyKept(o: Options, tenant: string, entries: seq<Entry>) returns (out: seq<Entry>, size: nat)
    ensures out == Retenanted(tenant, Kept(o, entries))
    ensures size == SizeOf(Kept(o, entries)) == SizeOf(out)
  {
    out, size := [], 0;
    for i := 0 to |entries|
      invariant out == Retenanted(tenant, Kept(o, entries[..i]))
      invariant size == SizeOf(Kept(o, entries[..i]))
    {
      var e := entries[i];
      KeptOneMore(o, entries, i);
      if o.sources.Some? && e.source !in o.sources.value {
        continue;
      }
      if o.minSeverity.Some? && e.severity > o.minSeverity.value {
        continue;
      }
      out := out + [e.(tenant := tenant)];
      var n := EstimateSize(e);
      size := size + n;
    }
    assert entries[..|entries|] == entries;
    SizeIgnoresTenant(tenant, Kept(o, entries));
  }

  // ---- state ------------------------------------------------------------------------

  /** Where a call of Forward is; anything but Idle holds the read lock. */
  datatype Producer =
    | Idle
    | Entered(group: seq<Entry>, size: nat)       // filtered and copied
    | FitsMessages(group: seq<Entry>, size: nat)  // the message limit was checked
    | FitsBytes(group: seq<Entry>, size: nat)     // the byte limit was checked
    | Pushed(group: seq<Entry>, size: nat)        // on the channel, not counted
    | CountedMessages(group: seq<Entry>, size: nat)

  /**
   Where the sender is. `rest` is what is left of the group taken last, and
   `resume` the tenant it goes on with after a flush.
   */
  datatype Sender =
    | NotStarted
    | Waiting(pending: seq<Entry>, tenant: string)
    | Filling(pending: seq<Entry>, tenant: string, rest: seq<Entry>)
    | Writing(batch: seq<Entry>, rest: seq<Entry>, resume: string, closing: bool)
    | Settled(batch: seq<Entry>, rest: seq<Entry>, resume: string, closing: bool)   // sent or dropped, still counted
    | Uncounted(batch: seq<Entry>, rest: seq<Entry>, resume: string, closing: bool) // messages taken off, bytes not yet
    | Finished

  datatype Batch = Batch(tenant: string, rows: seq<Entry>)

  /**
   The counters are the program's own; accepted, delivered, lost, taken and
   batches record what happened to which message.
   */
  datatype State = State(
    closed: bool,
    cancelled: bool,
    stopped: bool,
    queue: seq<seq<Entry>>,
    queued: int,
    bytes: int,
    sent: int,
    dropped: int,
    producers: seq<Producer>,
    sender: Sender,
    accepted: seq<Entry>,
    delivered: seq<Entry>,
    lost: seq<Entry>,
    taken: seq<Entry>,
    batches: seq<Batch>)

  function Init(n: nat): State {
    State(false, false, false, [], 0, 0, 0, 0, seq(n, _ => Idle), NotStarted,
          [], [], [], [], [])
  }

  datatype Event =
    | Start
    | Enter(p: nat, tenant: string, entries: seq<Entry>)
    | CheckMessages(p: nat)
    | CheckBytes(p: nat)
    | Push(p: nat)
    | AddMessages(p: nat)
    | AddBytes(p: nat)
    | Receive
    | Fill
    | Timer
    | SeeClosed
    | WriteSucceeds
    | WriteRetries
    | WriteDrops(rejected: bool)
    | TakeOffMessages
    | TakeOffBytes
    | Close
    | Cancel
    | StopReturns

  function At(s: State, p: nat): Producer { if p < |s.producers| then s.producers[p] else Idle }

  predicate Enabled(o: Options, s: State, e: Event) {
    match e
    case Start => s.sender.NotStarted?
    case Enter(p, _, _) => p < |s.producers| && At(s, p).Idle? && !s.closed
    case CheckMessages(p) => At(s, p).Entered?
    case CheckBytes(p) => At(s, p).FitsMessages?
    case Push(p) => At(s, p).FitsBytes?
    case AddMessages(p) => At(s, p).Pushed?
    case AddBytes(p) => At(s, p).CountedMessages?
    case Receive => s.sender.Waiting? && s.queue != [] && s.queue[0] != []
    case Fill => s.sender.Filling?
    case Timer => s.sender.Waiting?
    case SeeClosed => s.sender.Waiting? && s.queue == [] && s.closed
    case WriteSucceeds => s.sender.Writing?
    case WriteRetries => s.sender.Writing?
    case WriteDrops(rejected) => s.sender.Writing? && (rejected || s.cancelled)
    case TakeOffMessages => s.sender.Settled?
    case TakeOffBytes => s.sender.Uncounted?
    case Close => !s.closed && forall i :: 0 <= i < |s.producers| ==> s.producers[i].Idle?
    case Cancel => s.closed && !s.stopped
    case StopReturns => s.closed && !s.stopped && (s.sender.Finished? || s.sender.NotStarted?)
  }

  function Put(s: State, p: nat, pr: Producer): State
    requires p < |s.producers|
  {
    s.(producers := s.producers[p := pr])
  }

  /** A producer gives up on its group. */
  function DropGroup(s: State, p: nat): State
    requires p < |s.producers| && !s.producers[p].Idle?
  {
    var g := s.producers[p].group;
    Put(s, p, Idle).(dropped := s.dropped + |g|, lost := s.lost + g)
  }

  /** The sender hands a batch to the writer. */
  function Flush(s: State, batch: seq<Entry>, tenant: string, rest: seq<Entry>, resume: string, closing: bool): State {
    s.(sender := Writing(batch, rest, resume, closing), batches := s.batches + [Batch(tenant, batch)])
  }

  predicate Full(o: Options, pending: seq<Entry>) {
    |pending| >= o.batchMaxRows || (o.batchMaxBytes > 0 && SizeOf(pending) >= o.batchMaxBytes)
  }

  function DoEnter(o: Options, s: State, p: nat, tenant: string, entries: seq<Entry>): State
    requires p < |s.producers|
  {
    var kept := Kept(o, entries);
    var g := Retenanted(tenant, kept);
    if g == [] then s else Put(s, p, Entered(g, SizeOf(kept))).(accepted := s.accepted + g)
  }

  function DoCheckMessages(o: Options, s: State, p: nat): State
    requires p < |s.producers| && s.producers[p].Entered?
  {
    var pr := s.producers[p];
    if s.queued + |pr.group| > o.queueMaxMessages then DropGroup(s, p) else Put(s, p, FitsMessages(pr.group, pr.size))
  }

  function DoCheckBytes(o: Options, s: State, p: nat): State
    requires p < |s.producers| && s.producers[p].FitsMessages?
  {
    var pr := s.producers[p];
    if o.queueMaxBytes > 0 && s.bytes + pr.size > o.queueMaxBytes then DropGroup(s, p)
    else Put(s, p, FitsBytes(pr.group, pr.size))
  }

  function DoPush(o: Options, s: State, p: nat): State
    requires o.batchMaxRows > 0 && p < |s.producers| && s.producers[p].FitsBytes?
  {
    var pr := s.producers[p];
    if |s.queue| < Capacity(o) then Put(s, p, Pushed(pr.group, pr.size)).(queue := s.queue + [pr.group])
    else DropGroup(s, p)
  }

  function DoAddMessages(s: State, p: nat): State
    requires p < |s.producers| && s.producers[p].Pushed?
  {
    var pr := s.producers[p];
    Put(s, p, CountedMessages(pr.group, pr.size)).(queued := s.queued + |pr.group|)
  }

  function DoAddBytes(s: State, p: nat): State
    requires p < |s.producers| && s.producers[p].CountedMessages?
  {
    Put(s, p, Idle).(bytes := s.bytes + s.producers[p].size)
  }

  /** A batch carries one tenant; a change flushes what is pending. */
  function DoReceive(s: State): State
    requires s.sender.Waiting? && s.queue != [] && s.queue[0] != []
  {
    var g := s.queue[0];
    var t := s.(queue := s.queue[1..], taken := s.taken + g, sender := Filling(s.sender.pending, g[0].tenant, g));
    if |s.sender.pending| > 0 && g[0].tenant != s.sender.tenant then
      Flush(t, s.sender.pending, s.sender.tenant, g, g[0].tenant, false)
    else t
  }

  function DoFill(o: Options, s: State): State
    requires s.sender.Filling?
  {
    var f := s.sender;
    if f.rest == [] then s.(sender := Waiting(f.pending, f.tenant))
    else
      var pending := f.pending + [f.rest[0]];
      if Full(o, pending) then Flush(s, pending, f.tenant, f.rest[1..], f.tenant, false)
      else s.(sender := Filling(pending, f.tenant, f.rest[1..]))
  }

  function DoHandOver(s: State, closing: bool): State
    requires s.sender.Waiting?
  {
    if s.sender.pending == [] then (if closing then s.(sender := Finished) else s)
    else Flush(s, s.sender.pending, s.sender.tenant, [], s.sender.tenant, closing)
  }

  function DoSettle(s: State, ok: bool): State
    requires s.sender.Writing?
  {
    var w := s.sender;
    var t := s.(sender := Settled(w.batch, w.rest, w.resume, w.closing));
    if ok then t.(sent := s.sent + |w.batch|, delivered := s.delivered + w.batch)
    else t.(dropped := s.dropped + |w.batch|, lost := s.lost + w.batch)
  }

  function DoTakeOffMessages(s: State): State
    requires s.sender.Settled?
  {
    var w := s.sender;
    s.(sender := Uncounted(w.batch, w.rest, w.resume, w.closing), queued := s.queued - |w.batch|)
  }

  function DoTakeOffBytes(s: State): State
    requires s.sender.Uncounted?
  {
    var w := s.sender;
    s.(bytes := s.bytes - SizeOf(w.batch),
       sender := if w.closing then Finished else if w.rest == [] then Waiting([], w.resume) else Filling([], w.resume, w.rest))
  }

  function Step(o: Options, s: State, e: Event): State
    requires o.batchMaxRows > 0 && Enabled(o, s, e)
  {
    match e
    case Start => s.(sender := Waiting([], ""))
    case Enter(p, tenant, entries) => DoEnter(o, s, p, tenant, entries)
    case CheckMessages(p) => DoCheckMessages(o, s, p)
    case CheckBytes(p) => DoCheckBytes(o, s, p)
    case Push(p) => DoPush(o, s, p)
    case AddMessages(p) => DoAddMessages(s, p)
    case AddBytes(p) => DoAddBytes(s, p)
    case Receive => DoReceive(s)
    case Fill => DoFill(o, s)
    case Timer => DoHandOver(s, false)
    case SeeClosed => DoHandOver(s, true)
    case WriteSucceeds => DoSettle(s, true)
    case WriteRetries => s
    case WriteDrops(_) => DoSettle(s, false)
    case TakeOffMessages => DoTakeOffMessages(s)
    case TakeOffBytes => DoTakeOffBytes(s)
    case Close => s.(closed := true)
    case Cancel => s.(cancelled := true)
    case StopReturns => s.(stopped := true)
  }

  /** The state after a run of events, if each was possible in turn. */
  function Execute(o: Options, n: nat, es: seq<Event>): Option<State>
    requires o.batchMaxRows > 0
  {
    if es == [] then Some(Init(n))
    else
      match Execute(o, n, es[..|es| - 1])
      case None => None
      case Some(s) => if Enabled(o, s, es[|es| - 1]) then Some(Step(o, s, es[|es| - 1])) else None
  }
}
