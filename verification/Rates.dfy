/** Counter increases between node snapshots, gathered per time bucket. */
module Rates {
  import opened Clock
  import opened Coverage
  import opened Picking
  import opened Tally

  datatype Snapshot = Snapshot(time: Time, received: int, stored: int, dropped: int, parseErrors: int)

  /** Two consecutive snapshots of one node. */
  datatype Pair = Pair(prev: Snapshot, cur: Snapshot)

  datatype Counter = Received | Stored | Dropped | ParseErrors

  function Value(s: Snapshot, c: Counter): int {
    match c case Received => s.received case Stored => s.stored case Dropped => s.dropped case ParseErrors => s.parseErrors
  }

  function Increase(p: Pair, c: Counter): int { Value(p.cur, c) - Value(p.prev, c) }

  /** A later snapshot outside the range, or one after a counter reset, is skipped. */
  predicate Eligible(start: Time, end: Time, p: Pair) { start <= p.cur.time < end && Increase(p, Received) >= 0 }

  datatype Acc = Acc(received: int, stored: int, dropped: int, parseErrors: int, intervals: seq<Interval>)

  function Part(a: Acc, c: Counter): int {
    match c case Received => a.received case Stored => a.stored case Dropped => a.dropped case ParseErrors => a.parseErrors
  }

  function AddPair(step: int, buckets: map<Time, Acc>, p: Pair): map<Time, Acc> {
    var k := Truncate(p.cur.time, step);
    var a := if k in buckets then buckets[k] else Acc(0, 0, 0, 0, []);
    buckets[k := Acc(a.received + Increase(p, Received), a.stored + Increase(p, Stored), a.dropped + Increase(p, Dropped),
                     a.parseErrors + Increase(p, ParseErrors), a.intervals + [Interval(p.prev.time, p.cur.time)])]
  }

  function Gather(step: int, ps: seq<Pair>): map<Time, Acc> {
    if ps == [] then map[] else AddPair(step, Gather(step, ps[..|ps| - 1]), ps[|ps| - 1])
  }

  /** The eligible pairs among the first n snapshots of a node. */
  function PairsOf(start: Time, end: Time, list: seq<Snapshot>, n: nat): seq<Pair>
    requires n <= |list|
  {
    if n < 2 then []
    else
      var p := Pair(list[n - 2], list[n - 1]);
      PairsOf(start, end, list, n - 1) + if Eligible(start, end, p) then [p] else []
  }

  function AllPairs(start: Time, end: Time, lists: seq<seq<Snapshot>>): seq<Pair> {
    if lists == [] then []
    else AllPairs(start, end, lists[..|lists| - 1]) + PairsOf(start, end, lists[|lists| - 1], |lists[|lists| - 1]|)
  }

  method AddNode(start: Time, end: Time, step: int, list: seq<Snapshot>, before: map<Time, Acc>, ghost done: seq<Pair>)
    returns (buckets: map<Time, Acc>)
    requires before == Gather(step, done)
    ensures buckets == Gather(step, done + PairsOf(start, end, list, |list|))
  {
    buckets := before;
    assert done + [] == done;
    if list == [] {
      return;
    }
    for i := 1 to |list|
      invariant buckets == Gather(step, done + PairsOf(start, end, list, i))
    {
      var p := Pair(list[i - 1], list[i]);
      if p.cur.time < start || p.cur.time >= end || p.cur.received < p.prev.received {
        assert PairsOf(start, end, list, i + 1) == PairsOf(start, end, list, i);
        continue;
      }
      assert done + PairsOf(start, end, list, i) + [p] == done + PairsOf(start, end, list, i + 1);
      GatherOneMore(step, done + PairsOf(start, end, list, i), p);
      buckets := AddPair(step, buckets, p);
    }
  }

  method Bucketed(start: Time, end: Time, step: int, lists: seq<seq<Snapshot>>) returns (buckets: map<Time, Acc>)
    ensures buckets == Gather(step, AllPairs(start, end, lists))
  {
    buckets := map[];
    for n := 0 to |lists|
      invariant buckets == Gather(step, AllPairs(start, end, lists[..n]))
    {
      buckets := AddNode(start, end, step, lists[n], buckets, AllPairs(start, end, lists[..n]));
      assert lists[..n + 1][..n] == lists[..n];
    }
    assert lists[..|lists|] == lists;
  }

  lemma GatherOneMore(step: int, ps: seq<Pair>, p: Pair)
    ensures Gather(step, ps + [p]) == AddPair(step, Gather(step, ps), p)
  {
    assert (ps + [p])[..|ps|] == ps;
  }

  function Increases(ps: seq<Pair>, c: Counter): int {
    if ps == [] then 0 else Increases(ps[..|ps| - 1], c) + Increase(ps[|ps| - 1], c)
  }

  function Parts(buckets: map<Time, Acc>, c: Counter): map<Time, int> { map k | k in buckets :: Part(buckets[k], c) }

  lemma PartsAfter(step: int, buckets: map<Time, Acc>, p: Pair, c: Counter)
    ensures Parts(AddPair(step, buckets, p), c) == Add(Parts(buckets, c), Truncate(p.cur.time, step), Increase(p, c))
  {
  }

  /** No increase is lost or counted twice: the buckets together hold every eligible pair's increase. */
  lemma {:induction false} BucketsConserve(step: int, ps: seq<Pair>, c: Counter)
    ensures Sum(Parts(Gather(step, ps), c)) == Increases(ps, c)
  {
    if ps == [] {
      assert Parts(map[], c) == map[];
    } else {
      var init, p := ps[..|ps| - 1], ps[|ps| - 1];
      var k := Truncate(p.cur.time, step);
      BucketsConserve(step, init, c);
      SumAfterAdd(Parts(Gather(step, init), c), k, Increase(p, c));
      PartsAfter(step, Gather(step, init), p, c);
    }
  }

  // ---- which pairs count, and where ----------------------------------------------------------

  /** All consecutive snapshots of a node. */
  function Consecutive(list: seq<Snapshot>): seq<Pair> {
    seq(if list == [] then 0 else |list| - 1, i requires 0 <= i < |list| - 1 => Pair(list[i], list[i + 1]))
  }

  /** The later snapshot lies in the range, and the node did not restart in between. */
  function Counts(start: Time, end: Time): Pair -> bool {
    (p: Pair) => !(p.cur.time < start) && p.cur.time < end && !(p.cur.received < p.prev.received)
  }

  lemma {:induction false} PairsUpTo(start: Time, end: Time, list: seq<Snapshot>, n: nat) returns (at: seq<nat>)
    requires 0 < n <= |list|
    ensures Picks(Counts(start, end), Consecutive(list)[..n - 1], PairsOf(start, end, list, n), at)
  {
    var all := Consecutive(list);
    if n == 1 {
      at := [];
    } else {
      at := PairsUpTo(start, end, list, n - 1);
      PicksOneMore(Counts(start, end), all[..n - 2], all[n - 2], PairsOf(start, end, list, n - 1), at);
      assert all[..n - 2] + [all[n - 2]] == all[..n - 1];
      if Counts(start, end)(all[n - 2]) {
        at := at + [n - 2];
      }
    }
  }

  lemma PairsOfNode(start: Time, end: Time, list: seq<Snapshot>) returns (at: seq<nat>)
    ensures Picks(Counts(start, end), Consecutive(list), PairsOf(start, end, list, |list|), at)
  {
    if list == [] {
      at := [];
    } else {
      at := PairsUpTo(start, end, list, |list|);
      assert Consecutive(list)[..|list| - 1] == Consecutive(list);
    }
  }

  /** All consecutive snapshots of all nodes, node by node. */
  function AllConsecutive(lists: seq<seq<Snapshot>>): seq<Pair> {
    if lists == [] then [] else AllConsecutive(lists[..|lists| - 1]) + Consecutive(lists[|lists| - 1])
  }

  /** Of all consecutive snapshots of all nodes exactly those count that end in the range without a restart. */
  lemma {:induction false} PairsThatCount(start: Time, end: Time, lists: seq<seq<Snapshot>>) returns (at: seq<nat>)
    ensures Picks(Counts(start, end), AllConsecutive(lists), AllPairs(start, end, lists), at)
  {
    if lists == [] {
      at := [];
    } else {
      var init, list := lists[..|lists| - 1], lists[|lists| - 1];
      var before := PairsThatCount(start, end, init);
      var more := PairsOfNode(start, end, list);
      PicksJoin(Counts(start, end), AllConsecutive(init), Consecutive(list), AllPairs(start, end, init),
                PairsOf(start, end, list, |list|), before, more);
      at := before + Shifted(|AllConsecutive(init)|, more);
    }
  }

  /** The pairs that end in bucket k, in order. */
  function Ending(step: int, ps: seq<Pair>, k: Time): seq<Pair> {
    if ps == [] then []
    else
      var p := ps[|ps| - 1];
      Ending(step, ps[..|ps| - 1], k) + if Truncate(p.cur.time, step) == k then [p] else []
  }

  function IntervalsOf(ps: seq<Pair>): seq<Interval> {
    seq(|ps|, i requires 0 <= i < |ps| => Interval(ps[i].prev.time, ps[i].cur.time))
  }

  lemma IncreasesOneMore(ps: seq<Pair>, p: Pair, c: Counter)
    ensures Increases(ps + [p], c) == Increases(ps, c) + Increase(p, c)
  {
    assert (ps + [p])[..|ps|] == ps;
  }

  /** A bucket as the pairs that end in it make it. */
  predicate Holds(a: Acc, ps: seq<Pair>, c: Counter) { a.intervals == IntervalsOf(ps) && Part(a, c) == Increases(ps, c) }

  lemma HoldsOneMore(step: int, buckets: map<Time, Acc>, ps: seq<Pair>, p: Pair, c: Counter)
    requires var k := Truncate(p.cur.time, step); if k in buckets then Holds(buckets[k], ps, c) else ps == []
    ensures Holds(AddPair(step, buckets, p)[Truncate(p.cur.time, step)], ps + [p], c)
  {
    IncreasesOneMore(ps, p, c);
    assert IntervalsOf(ps + [p]) == IntervalsOf(ps) + [Interval(p.prev.time, p.cur.time)];
  }

  /**
   There is a bucket for exactly the times at which some pair ends, and it holds
   the intervals of the pairs that end in it, each once and in order, and their
   increases.
   */
  lemma {:induction false} BucketIsWhatEndsInIt(step: int, ps: seq<Pair>, k: Time, c: Counter)
    ensures k in Gather(step, ps) <==> Ending(step, ps, k) != []
    ensures k in Gather(step, ps) ==> Holds(Gather(step, ps)[k], Ending(step, ps, k), c)
  {
    if ps != [] {
      var init, p := ps[..|ps| - 1], ps[|ps| - 1];
      BucketIsWhatEndsInIt(step, init, k, c);
      if Truncate(p.cur.time, step) == k {
        HoldsOneMore(step, Gather(step, init), Ending(step, init, k), p, c);
      } else {
        assert Ending(step, ps, k) == Ending(step, init, k);
      }
    }
  }

  lemma {:induction false} EndingInOrder(step: int, ps: seq<Pair>, k: Time)
    requires forall p :: p in ps ==> InOrder(p)
    ensures forall i :: 0 <= i < |Ending(step, ps, k)| ==> InOrder(Ending(step, ps, k)[i])
  {
    if ps != [] {
      assert ps[|ps| - 1] in ps;
      EndingInOrder(step, ps[..|ps| - 1], k);
    }
  }

  predicate InOrder(p: Pair) { p.prev.time <= p.cur.time }

  /** Snapshots in time order give the sweep well-ordered intervals. */
  lemma BucketsAreSweepable(step: int, ps: seq<Pair>, k: Time)
    requires k in Gather(step, ps) && forall p :: p in ps ==> InOrder(p)
    ensures WellOrdered(Gather(step, ps)[k].intervals)
  {
    BucketIsWhatEndsInIt(step, ps, k, Received);
    EndingInOrder(step, ps, k);
  }
}
