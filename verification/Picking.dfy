/** Leaving out what is not wanted: the rest stays in order, each item as often as before. */
module Picking {

  /** `at` are the positions, in order, of exactly the wanted items, and `kept` is what they hold. */
  ghost predicate Picks<T>(wanted: T -> bool, items: seq<T>, kept: seq<T>, at: seq<nat>) {
    && |at| == |kept| <= |items|
    && (forall k :: 0 <= k < |at| ==> at[k] < |items| && kept[k] == items[at[k]])
    && (forall j, k :: 0 <= j < k < |at| ==> at[j] < at[k])
    && (forall i :: 0 <= i < |items| ==> (i in at <==> wanted(items[i])))
  }

  lemma PicksNone<T>(wanted: T -> bool)
    ensures Picks(wanted, [], [], [])
  {
  }

  lemma PicksOneMore<T>(wanted: T -> bool, items: seq<T>, x: T, kept: seq<T>, at: seq<nat>)
    requires Picks(wanted, items, kept, at)
    ensures if wanted(x) then Picks(wanted, items + [x], kept + [x], at + [|items|]) else Picks(wanted, items + [x], kept, at)
  {
    var more := items + [x];
    assert |items| !in at;
    forall i | 0 <= i < |items| ensures more[i] == items[i] && (i in at + [|items|] <==> wanted(more[i])) {
    }
    assert more[|items|] == x;
  }

  function Shifted(n: nat, at: seq<nat>): (r: seq<nat>)
    ensures |r| == |at| && forall k :: 0 <= k < |r| ==> r[k] == n + at[k]
  {
    seq(|at|, k requires 0 <= k < |at| => n + at[k])
  }

  lemma JoinedHas(n: nat, at: seq<nat>, more: seq<nat>, i: nat)
    requires forall k :: 0 <= k < |at| ==> at[k] < n
    ensures i in at + Shifted(n, more) <==> if i < n then i in at else i - n in more
  {
    var both := at + Shifted(n, more);
    if i in both {
      var k :| 0 <= k < |both| && both[k] == i;
    }
    if i < n && i in at {
      var k :| 0 <= k < |at| && at[k] == i;
      assert both[k] == i;
    }
    if i >= n && i - n in more {
      var k :| 0 <= k < |more| && more[k] == i - n;
      assert both[|at| + k] == i;
    }
  }

  lemma JoinedAscends(n: nat, at: seq<nat>, more: seq<nat>)
    requires forall k :: 0 <= k < |at| ==> at[k] < n
    requires forall j, k :: 0 <= j < k < |at| ==> at[j] < at[k]
    requires forall j, k :: 0 <= j < k < |more| ==> more[j] < more[k]
    ensures var both := at + Shifted(n, more); forall j, k :: 0 <= j < k < |both| ==> both[j] < both[k]
  {
  }

  /** Picking from two lists is picking from the one joined of them. */
  lemma PicksJoin<T>(wanted: T -> bool, a: seq<T>, b: seq<T>, keptA: seq<T>, keptB: seq<T>, atA: seq<nat>, atB: seq<nat>)
    requires Picks(wanted, a, keptA, atA) && Picks(wanted, b, keptB, atB)
    ensures Picks(wanted, a + b, keptA + keptB, atA + Shifted(|a|, atB))
  {
    var items, kept, at := a + b, keptA + keptB, atA + Shifted(|a|, atB);
    JoinedAscends(|a|, atA, atB);
    forall i | 0 <= i < |items| ensures i in at <==> wanted(items[i]) {
      JoinedHas(|a|, atA, atB, i);
      assert items[i] == if i < |a| then a[i] else b[i - |a|];
    }
    forall k | 0 <= k < |at| ensures at[k] < |items| && kept[k] == items[at[k]] {
      if k < |atA| {
        assert kept[k] == keptA[k] == a[atA[k]];
      } else {
        assert kept[k] == keptB[k - |atA|] == b[atB[k - |atA|]];
      }
    }
  }

  /** When everything is wanted, everything is kept. */
  lemma PicksAll<T>(wanted: T -> bool, items: seq<T>, kept: seq<T>, at: seq<nat>)
    requires Picks(wanted, items, kept, at) && forall i :: 0 <= i < |items| ==> wanted(items[i])
    ensures kept == items
  {
    PositionsAreAll(at, |items|);
  }

  lemma {:induction false} PositionsAreAll(at: seq<nat>, n: nat)
    requires (forall k :: 0 <= k < |at| ==> at[k] < n) && (forall j, k :: 0 <= j < k < |at| ==> at[j] < at[k])
    requires (forall i :: 0 <= i < n ==> i in at) && |at| <= n
    ensures |at| == n && forall k :: 0 <= k < n ==> at[k] == k
  {
    if n > 0 {
      assert n - 1 in at;
      var k :| 0 <= k < |at| && at[k] == n - 1;
      assert at[k] <= at[|at| - 1] < n;
      assert k == |at| - 1;
      var init := at[..|at| - 1];
      forall i | 0 <= i < n - 1 ensures i in init {
        assert i in at;
      }
      PositionsAreAll(init, n - 1);
    }
  }
}
