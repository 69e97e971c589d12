/**
 Concurrency slots of queries, exports and live tails. Every access is one
 critical section, so an interleaving of callers is a sequence of these.
 */
module Slots {
  import opened Tally

  datatype Counters = Counters(inflight: map<string, int>, tails: map<string, int>, tailTotal: int)

  const NONE := Counters(map[], map[], 0)

  /** A caller without an entry counts as zero. */
  function Count(m: map<string, int>, key: string): int { if key in m then m[key] else 0 }

  function Up(m: map<string, int>, key: string): map<string, int> { m[key := Count(m, key) + 1] }

  /** An entry that would not stay positive is removed. */
  function Down(m: map<string, int>, key: string): map<string, int> {
    if Count(m, key) - 1 <= 0 then m - {key} else m[key := Count(m, key) - 1]
  }

  predicate Positive(m: map<string, int>) { forall key :: key in m ==> m[key] > 0 }

  datatype Slot = Query(key: string) | Export(key: string) | Tail(key: string)

  /** Queries treat a limit that is not positive as none; exports and tails do not. */
  predicate Admits(c: Counters, slot: Slot, limit: int, total: int) {
    match slot
    case Query(key) => limit <= 0 || Count(c.inflight, key) < limit
    case Export(key) => Count(c.inflight, key) < limit
    case Tail(key) => Count(c.tails, key) < limit && c.tailTotal < total
  }

  function Taken(c: Counters, slot: Slot): Counters {
    if slot.Tail? then c.(tails := Up(c.tails, slot.key), tailTotal := c.tailTotal + 1)
    else c.(inflight := Up(c.inflight, slot.key))
  }

  function Released(c: Counters, slot: Slot): Counters {
    if slot.Tail? then c.(tails := Down(c.tails, slot.key), tailTotal := c.tailTotal - 1)
    else c.(inflight := Down(c.inflight, slot.key))
  }

  /** Giving back a slot just taken leaves the counters as they were. */
  lemma ReleaseUndoesTake(c: Counters, slot: Slot)
    requires Positive(c.inflight) && Positive(c.tails)
    ensures Released(Taken(c, slot), slot) == c
  {
    var m := if slot.Tail? then c.tails else c.inflight;
    if slot.key in m {
      assert Down(Up(m, slot.key), slot.key) == m;
    } else {
      assert m[slot.key := 1] - {slot.key} == m;
    }
  }

  class Service {
    const maxTailTotal: int
    var inflight: map<string, int>
    var tails: map<string, int>
    var tailTotal: int

    ghost function Snapshot(): Counters
      reads this
    {
      Counters(inflight, tails, tailTotal)
    }

    constructor (maxTailTotal: int)
      ensures this.maxTailTotal == maxTailTotal && Snapshot() == NONE
    {
      this.maxTailTotal := maxTailTotal;
      inflight, tails, tailTotal := map[], map[], 0;
    }

    method Acquire(key: string, maxConcurrent: int) returns (ok: bool)
      modifies this
      ensures ok <==> Admits(old(Snapshot()), Query(key), maxConcurrent, maxTailTotal)
      ensures Snapshot() == if ok then Taken(old(Snapshot()), Query(key)) else old(Snapshot())
    {
      if maxConcurrent > 0 && Count(inflight, key) >= maxConcurrent {
        return false;
      }
      inflight := inflight[key := Count(inflight, key) + 1];
      return true;
    }

    method Release(key: string)
      modifies this
      ensures Snapshot() == Released(old(Snapshot()), Query(key)) == Released(old(Snapshot()), Export(key))
    {
      inflight := inflight[key := Count(inflight, key) - 1];
      if inflight[key] <= 0 {
        inflight := inflight - {key};
        assert inflight == old(inflight) - {key};
      }
    }

    /** An export that the backend turns down gives its slot back. */
    method OpenExport(key: string, maxConcurrent: int, searchFails: bool) returns (ok: bool)
      requires Positive(inflight) && Positive(tails)
      modifies this
      ensures ok <==> Admits(old(Snapshot()), Export(key), maxConcurrent, maxTailTotal) && !searchFails
      ensures Snapshot() == if ok then Taken(old(Snapshot()), Export(key)) else old(Snapshot())
    {
      if Count(inflight, key) >= maxConcurrent {
        return false;
      }
      inflight := inflight[key := Count(inflight, key) + 1];
      if searchFails {
        ReleaseUndoesTake(old(Snapshot()), Export(key));
        Release(key);
        return false;
      }
      return true;
    }

    method ReleaseTail(key: string)
      modifies this
      ensures Snapshot() == Released(old(Snapshot()), Tail(key))
    {
      tailTotal := tailTotal - 1;
      tails := tails[key := Count(tails, key) - 1];
      if tails[key] <= 0 {
        tails := tails - {key};
        assert tails == old(tails) - {key};
      }
    }

    method OpenTail(key: string, maxTailSessions: int, tailFails: bool) returns (ok: bool)
      requires Positive(inflight) && Positive(tails)
      modifies this
      ensures ok <==> Admits(old(Snapshot()), Tail(key), maxTailSessions, maxTailTotal) && !tailFails
      ensures Snapshot() == if ok then Taken(old(Snapshot()), Tail(key)) else old(Snapshot())
    {
      if Count(tails, key) >= maxTailSessions {
        return false;
      }
      if tailTotal >= maxTailTotal {
        return false;
      }
      tails := tails[key := Count(tails, key) + 1];
      tailTotal := tailTotal + 1;
      if tailFails {
        ReleaseUndoesTake(old(Snapshot()), Tail(key));
        ReleaseTail(key);
        return false;
      }
      return true;
    }
  }

  // ---- interleavings ---------------------------------------------------------------------

  /** Slots in use, each under a number of its own. */
  datatype World = World(counters: Counters, open: map<nat, Slot>)

  /** Open with the limit of the caller's role at that time; a refused open changes nothing. */
  datatype Event = Open(id: nat, slot: Slot, limit: int) | Close(id: nat)

  /** An opened slot is released once: a failed open closes its own at some later point. */
  predicate Possible(w: World, e: Event) { if e.Open? then e.id !in w.open else e.id in w.open }

  function Next(total: int, w: World, e: Event): World
    requires Possible(w, e)
  {
    match e
    case Open(id, slot, limit) =>
      if Admits(w.counters, slot, limit, total) then World(Taken(w.counters, slot), w.open[id := slot]) else w
    case Close(id) => World(Released(w.counters, w.open[id]), w.open - {id})
  }

  /** The world after a run; an event that is not possible when its turn comes is left out of it. */
  function Run(total: int, es: seq<Event>): World {
    if es == [] then World(NONE, map[])
    else
      var w := Run(total, es[..|es| - 1]);
      if Possible(w, es[|es| - 1]) then Next(total, w, es[|es| - 1]) else w
  }

  /** The open queries and exports of a caller, or its open tails. */
  function Held(open: map<nat, Slot>, tail: bool, key: string): set<nat> {
    set id | id in open && open[id].Tail? == tail && open[id].key == key
  }

  function HeldTails(open: map<nat, Slot>): set<nat> { set id | id in open && open[id].Tail? }

  lemma SumAfter(m: map<string, int>, key: string)
    requires Positive(m)
    ensures Sum(Up(m, key)) == Sum(m) + 1
    ensures key in m ==> Sum(Down(m, key)) == Sum(m) - 1
  {
    var up, down := Up(m, key), Down(m, key);
    SumWithout(up, key);
    assert up - {key} == m - {key};
    if key in m {
      SumWithout(m, key);
      if key in down {
        SumWithout(down, key);
        assert down - {key} == m - {key};
      }
    } else {
      assert m - {key} == m;
    }
  }

  /** Counters are exactly the slots in use, and no zero entry is left behind. */
  ghost predicate Exact(w: World) {
    && (forall tail, key :: ExactFor(w, tail, key))
    && Positive(w.counters.inflight) && Positive(w.counters.tails)
    && w.counters.tailTotal == |HeldTails(w.open)| == Sum(w.counters.tails)
  }

  lemma HeldAfterClose(open: map<nat, Slot>, id: nat, tail: bool, key: string)
    requires id in open
    ensures |Held(open - {id}, tail, key)| == |Held(open, tail, key)| - if open[id].Tail? == tail && open[id].key == key then 1 else 0
  {
    assert Held(open - {id}, tail, key) == Held(open, tail, key) - {id};
  }

  lemma HeldAfterOpen(open: map<nat, Slot>, id: nat, slot: Slot, tail: bool, key: string)
    requires id !in open
    ensures |Held(open[id := slot], tail, key)| == |Held(open, tail, key)| + if slot.Tail? == tail && slot.key == key then 1 else 0
  {
    HeldAfterClose(open[id := slot], id, tail, key);
    assert open[id := slot] - {id} == open;
  }

  lemma CountAfter(m: map<string, int>, key: string, other: string)
    requires Positive(m)
    ensures Count(Up(m, key), other) == Count(m, other) + if key == other then 1 else 0
    ensures key in m ==> Count(Down(m, key), other) == Count(m, other) - if key == other then 1 else 0
    ensures Positive(Up(m, key)) && Positive(Down(m, key))
  {
  }

  /** One kind of counter is exact for one caller. */
  predicate ExactFor(w: World, tail: bool, key: string) {
    Count(if tail then w.counters.tails else w.counters.inflight, key) == |Held(w.open, tail, key)|
  }

  lemma OpenCounts(w: World, id: nat, slot: Slot, tail: bool, key: string)
    requires Positive(w.counters.inflight) && Positive(w.counters.tails) && id !in w.open && ExactFor(w, tail, key)
    ensures ExactFor(World(Taken(w.counters, slot), w.open[id := slot]), tail, key)
  {
    HeldAfterOpen(w.open, id, slot, tail, key);
    CountAfter(if slot.Tail? then w.counters.tails else w.counters.inflight, slot.key, key);
  }

  lemma OpenIsExact(w: World, id: nat, slot: Slot)
    requires Exact(w) && id !in w.open
    ensures Exact(World(Taken(w.counters, slot), w.open[id := slot]))
  {
    var v := World(Taken(w.counters, slot), w.open[id := slot]);
    forall tail, key ensures ExactFor(v, tail, key) {
      assert ExactFor(w, tail, key);
      OpenCounts(w, id, slot, tail, key);
    }
    SumAfter(w.counters.tails, slot.key);
    if slot.Tail? {
      assert HeldTails(v.open) == HeldTails(w.open) + {id};
    } else {
      assert HeldTails(v.open) == HeldTails(w.open);
    }
  }

  lemma CloseCounts(w: World, id: nat, tail: bool, key: string)
    requires Positive(w.counters.inflight) && Positive(w.counters.tails) && id in w.open && ExactFor(w, tail, key)
    requires w.open[id].key in if w.open[id].Tail? then w.counters.tails else w.counters.inflight
    ensures ExactFor(World(Released(w.counters, w.open[id]), w.open - {id}), tail, key)
  {
    var slot := w.open[id];
    HeldAfterClose(w.open, id, tail, key);
    CountAfter(if slot.Tail? then w.counters.tails else w.counters.inflight, slot.key, key);
  }

  /** An open slot has an entry. */
  lemma OpenHasEntry(w: World, id: nat)
    requires Exact(w) && id in w.open
    ensures w.open[id].key in if w.open[id].Tail? then w.counters.tails else w.counters.inflight
  {
    var slot := w.open[id];
    assert ExactFor(w, slot.Tail?, slot.key);
    assert id in Held(w.open, slot.Tail?, slot.key);
  }

  lemma CloseIsExact(w: World, id: nat)
    requires Exact(w) && id in w.open
    ensures Exact(World(Released(w.counters, w.open[id]), w.open - {id}))
  {
    var slot, v := w.open[id], World(Released(w.counters, w.open[id]), w.open - {id});
    OpenHasEntry(w, id);
    forall tail, key ensures ExactFor(v, tail, key) {
      assert ExactFor(w, tail, key);
      CloseCounts(w, id, tail, key);
    }
    SumAfter(w.counters.tails, slot.key);
    assert HeldTails(v.open) == HeldTails(w.open) - {id};
  }

  /**
   In every interleaving in which each opened slot is released at most once, a
   caller's counts are exactly its open slots, the tail total is the sum of the
   callers' tails, and no zero entry remains.
   */
  lemma {:induction false} CountersAreExact(total: int, es: seq<Event>)
    ensures Exact(Run(total, es))
    decreases |es|
  {
    if es == [] {
      assert Exact(World(NONE, map[]));
    } else {
      var init, e := es[..|es| - 1], es[|es| - 1];
      var w := Run(total, init);
      CountersAreExact(total, init);
      if !Possible(w, e) {
      } else if e.Close? {
        CloseIsExact(w, e.id);
      } else if Admits(w.counters, e.slot, e.limit, total) {
        OpenIsExact(w, e.id, e.slot);
      }
    }
  }

  /** Every open of this caller was made under a limit of at most `most`; queries under a positive one. */
  predicate Limited(es: seq<Event>, key: string, tail: bool, most: int) {
    forall i :: 0 <= i < |es| && es[i].Open? && es[i].slot.key == key && es[i].slot.Tail? == tail ==>
      es[i].limit <= most && (es[i].slot.Query? ==> es[i].limit > 0)
  }

  /** In every interleaving a caller never holds more slots than the largest limit it was given. */
  lemma {:induction false} LimitsHold(total: int, es: seq<Event>, key: string, tail: bool, most: nat)
    requires Limited(es, key, tail, most)
    ensures |Held(Run(total, es).open, tail, key)| <= most
    decreases |es|
  {
    if es != [] {
      var init, e := es[..|es| - 1], es[|es| - 1];
      var w := Run(total, init);
      LimitsHold(total, init, key, tail, most);
      CountersAreExact(total, init);
      assert ExactFor(w, tail, key);
      if !Possible(w, e) {
      } else if e.Close? {
        HeldAfterClose(w.open, e.id, tail, key);
      } else {
        HeldAfterOpen(w.open, e.id, e.slot, tail, key);
      }
    }
  }

  /** In every interleaving the open tails of all callers together stay within the global limit. */
  lemma {:induction false} GlobalLimitHolds(total: nat, es: seq<Event>)
    ensures Run(total, es).counters.tailTotal <= total
    decreases |es|
  {
    if es != [] {
      GlobalLimitHolds(total, es[..|es| - 1]);
    }
  }

  /**
   After every interleaving an open takes a slot if and only if the caller holds
   fewer than its limit and, for a tail, all callers together fewer than the
   total; a query also when it has no limit. A refused open changes nothing.
   */
  lemma OpenSucceedsIffBelowLimit(total: int, es: seq<Event>, id: nat, slot: Slot, limit: int)
    requires id !in Run(total, es).open
    ensures var w, v := Run(total, es), Run(total, es + [Open(id, slot, limit)]);
      var held := |Held(w.open, slot.Tail?, slot.key)|;
      if (held < limit && (slot.Tail? ==> |HeldTails(w.open)| < total)) || (slot.Query? && limit <= 0)
      then v.open == w.open[id := slot] else v == w
  {
    var more := es + [Open(id, slot, limit)];
    assert more[..|more| - 1] == es;
    CountersAreExact(total, es);
    assert ExactFor(Run(total, es), slot.Tail?, slot.key);
  }

  /**
   With no positive limit a caller's queries are never refused and its exports
   always are, in every state that can be reached.
   */
  lemma NoLimitRefusesExports(total: int, es: seq<Event>, key: string, limit: int)
    requires limit <= 0
    ensures Admits(Run(total, es).counters, Query(key), limit, total)
    ensures !Admits(Run(total, es).counters, Export(key), limit, total)
  {
    CountersAreExact(total, es);
    assert ExactFor(Run(total, es), false, key);
  }
}
