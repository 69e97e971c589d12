/** What holds of a forwarder in every run: accounting, closing, gauges and batches. */
module ForwarderTheorems {
  import opened LogEntry
  import opened Forwarder
  import opened ForwarderSafety
  import opened Wrappers

  // ---- accounting ---------------------------------------------------------------------------

  /**
   After any run, each accepted message is as often accepted as it is sent,
   dropped or still held, and the two counters count exactly those sent and
   dropped.
   */
  lemma EveryMessageIsAccountedFor(o: Options, n: nat, es: seq<Event>, m: Entry)
    requires o.batchMaxRows > 0 && Execute(o, n, es).Some?
    ensures var s := Execute(o, n, es).value;
      && multiset(s.accepted)[m] == multiset(s.delivered)[m] + multiset(s.lost)[m] + Held(Occurrences(m), s)
      && s.sent == |s.delivered| && s.dropped == |s.lost|
      && |s.accepted| == s.sent + s.dropped + Held(Count(), s)
  {
    RunKeepsInvariants(o, n, es);
    var s := Execute(o, n, es).value;
    assert Books(Occurrences(m), NoGauge, s);
  }

  /** No producer is ever about to send on the closed channel. */
  lemma NoSendAfterClose(o: Options, n: nat, es: seq<Event>, p: nat)
    requires o.batchMaxRows > 0 && Execute(o, n, es).Some? && Enabled(o, Execute(o, n, es).value, Push(p))
    ensures !Execute(o, n, es).value.closed
  {
    RunKeepsInvariants(o, n, es);
  }

  lemma {:induction false} QueuedGroupsWeigh(groups: seq<seq<Entry>>)
    requires forall i :: 0 <= i < |groups| ==> groups[i] != []
    ensures QueueWeight(Count(), groups) == 0 <==> groups == []
  {
    if groups != [] {
      assert groups[0] != [];
    }
  }

  /** Nothing is held when Stop returns, except on a channel nobody ever read. */
  lemma NothingHeldAtStop(w: Weight, o: Options, s: State)
    requires o.batchMaxRows > 0 && Additive(w) && Shape(o, s) && Enabled(o, s, StopReturns)
    ensures Held(w, s) == QueueWeight(w, s.queue) && (s.sender.Finished? ==> s.queue == [])
  {
    IdleSums(w, NoGauge, s.producers);
  }

  /** With no group on the channel, everything accepted was sent or dropped. */
  lemma EmptyChannelAccounts(o: Options, s: State)
    requires o.batchMaxRows > 0 && Inv(o, s) && Enabled(o, s, StopReturns) && s.queue == []
    ensures multiset(s.accepted) == multiset(s.delivered) + multiset(s.lost)
  {
    forall m ensures multiset(s.accepted)[m] == (multiset(s.delivered) + multiset(s.lost))[m] {
      OccurrencesAdd(m);
      NothingHeldAtStop(Occurrences(m), o, s);
      assert Books(Occurrences(m), NoGauge, s);
    }
  }

  /** What is left on the channel is accepted and neither sent nor dropped. */
  lemma LeftOnChannel(o: Options, s: State)
    requires o.batchMaxRows > 0 && Shape(o, s) && Conserved(Count(), s) && Enabled(o, s, StopReturns)
    ensures |s.accepted| == |s.delivered| + |s.lost| + QueueWeight(Count(), s.queue)
    ensures QueueWeight(Count(), s.queue) == 0 <==> s.queue == []
  {
    GaugesAdd();
    NothingHeldAtStop(Count(), o, s);
    GroupsAreNotEmpty(o, s);
    QueuedGroupsWeigh(s.queue);
  }

  lemma GroupsAreNotEmpty(o: Options, s: State)
    requires o.batchMaxRows > 0 && Shape(o, s)
    ensures forall i :: 0 <= i < |s.queue| ==> s.queue[i] != []
  {
    forall i | 0 <= i < |s.queue| ensures s.queue[i] != [] {
      assert GroupOk(s.queue[i]);
    }
  }

  /**
   When the Stop that closed the forwarder returns, every accepted message was
   sent or dropped if and only if the sender had been started or nothing was
   queued.
   */
  lemma StopAccountsForEverything(o: Options, n: nat, es: seq<Event>)
    requires o.batchMaxRows > 0 && Execute(o, n, es).Some? && Enabled(o, Execute(o, n, es).value, StopReturns)
    ensures var s := Execute(o, n, es).value;
      && (multiset(s.accepted) == multiset(s.delivered) + multiset(s.lost) <==> s.sender.Finished? || s.queue == [])
      && (s.sender.Finished? ==> |s.accepted| == s.sent + s.dropped)
  {
    RunKeepsInvariants(o, n, es);
    var s := Execute(o, n, es).value;
    LeftOnChannel(o, s);
    if s.queue == [] {
      EmptyChannelAccounts(o, s);
    } else {
      assert |multiset(s.accepted)| > |multiset(s.delivered) + multiset(s.lost)|;
    }
  }

  // ---- gauges -----------------------------------------------------------------------------------

  lemma GaugesOf(o: Options, s: State)
    requires o.batchMaxRows > 0 && Inv(o, s)
    ensures s.queued == Load(Count(), MessageGauge, s) - AllLag(Count(), MessageGauge, s.producers)
    ensures s.bytes == Load(Bytes(), ByteGauge, s) - AllLag(Bytes(), ByteGauge, s.producers)
  {
    assert Gauged(Count(), MessageGauge, s);
    assert Gauged(Bytes(), ByteGauge, s);
  }

  /**
   In every run the two gauges are what the channel and the sender hold, less
   what producers have sent and not counted yet.
   */
  lemma GaugesLagOnlyByUncounted(o: Options, n: nat, es: seq<Event>)
    requires o.batchMaxRows > 0 && Execute(o, n, es).Some?
    ensures var s := Execute(o, n, es).value;
      && s.queued == Load(Count(), MessageGauge, s) - AllLag(Count(), MessageGauge, s.producers)
      && s.bytes == Load(Bytes(), ByteGauge, s) - AllLag(Bytes(), ByteGauge, s.producers)
  {
    RunKeepsInvariants(o, n, es);
    GaugesOf(o, Execute(o, n, es).value);
  }

  predicate Drained(s: State) { s.queue == [] && (s.sender.Finished? || (s.sender.Waiting? && s.sender.pending == [])) }

  /** With no producer in the middle of a call the gauges are exact, and zero once drained. */
  lemma GaugesAreExactWhenQuiet(o: Options, n: nat, es: seq<Event>)
    requires o.batchMaxRows > 0 && Execute(o, n, es).Some? && AllIdle(Execute(o, n, es).value.producers)
    ensures var s := Execute(o, n, es).value;
      && s.queued == Load(Count(), MessageGauge, s) && s.bytes == Load(Bytes(), ByteGauge, s)
      && (Drained(s) ==> s.queued == 0 && s.bytes == 0)
  {
    GaugesLagOnlyByUncounted(o, n, es);
    var s := Execute(o, n, es).value;
    IdleSums(Count(), MessageGauge, s.producers);
    IdleSums(Bytes(), ByteGauge, s.producers);
  }

  // ---- batches ----------------------------------------------------------------------------------

  /** What the batches of a state are, joined in order. */
  ghost predicate BatchesOk(o: Options, s: State) {
    && FlatBatches(s.batches) + Unflushed(s.sender) == s.taken
    && (s.sender.Finished? ==> FlatBatches(s.batches) == s.taken)
    && forall i :: 0 <= i < |s.batches| ==> BatchOk(o, s.batches[i])
  }

  lemma BatchesOf(o: Options, s: State)
    requires Batched(o, s)
    ensures BatchesOk(o, s)
  {
    assert FlatBatches(s.batches) + [] == FlatBatches(s.batches);
  }

  /**
   Whenever the timer fires: the batches handed to the writer, joined in order,
   are a prefix of what was taken off the channel in order, all of it once the
   sender finished; and each batch is one the writer may get.
   */
  lemma BatchesAreWhatWasTaken(o: Options, n: nat, es: seq<Event>)
    requires o.batchMaxRows > 0 && Execute(o, n, es).Some?
    ensures BatchesOk(o, Execute(o, n, es).value)
  {
    RunKeepsInvariants(o, n, es);
    BatchesOf(o, Execute(o, n, es).value);
  }
}
