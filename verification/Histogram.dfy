/** The histogram response: series of bucket counts merged by time, with totals and splits. */
module Histogram {
  import opened Clock
  import opened Picking
  import opened Sorting
  import opened Tally

  datatype Series = Series(value: string, other: bool, timestamps: seq<Time>, counts: seq<int>, total: int)

  datatype Bucket = Bucket(t: Time, total: int, split: map<string, int>)

  /** One count of one series that falls into the range. */
  datatype Point = Point(t: Time, name: string, count: int)

  function NameOf(sr: Series): string { if sr.other then "other" else sr.value }

  /** A bucket that ends by the start, or starts at or past the end, or has no count, is skipped. */
  predicate Shown(start: Time, end: Time, step: int, sr: Series, i: nat)
    requires i < |sr.timestamps|
  {
    sr.timestamps[i] + step > start && sr.timestamps[i] < end && i < |sr.counts|
  }

  /** The points among the first n buckets of a series. */
  function PointsOf(start: Time, end: Time, step: int, sr: Series, n: nat): seq<Point>
    requires n <= |sr.timestamps|
  {
    if n == 0 then []
    else
      PointsOf(start, end, step, sr, n - 1)
        + if Shown(start, end, step, sr, n - 1) then [Point(sr.timestamps[n - 1], NameOf(sr), sr.counts[n - 1])] else []
  }

  function AllPoints(start: Time, end: Time, step: int, series: seq<Series>): seq<Point> {
    if series == [] then []
    else
      var sr := series[|series| - 1];
      AllPoints(start, end, step, series[..|series| - 1]) + PointsOf(start, end, step, sr, |sr.timestamps|)
  }

  // ---- which counts are shown ----------------------------------------------------------------

  /** Every count of a series that has a time. */
  function Counted(sr: Series): seq<Point> {
    var n := if |sr.counts| < |sr.timestamps| then |sr.counts| else |sr.timestamps|;
    seq(n, i requires 0 <= i < n => Point(sr.timestamps[i], if sr.other then "other" else sr.value, sr.counts[i]))
  }

  predicate Between(lo: Time, hi: Time, u: Time) { lo <= u < hi }

  /** Some instant of the bucket lies in the range. */
  ghost predicate Overlaps(start: Time, end: Time, step: int, t: Time) {
    exists u :: Between(t, t + step, u) && Between(start, end, u)
  }

  ghost function Overlapping(start: Time, end: Time, step: int): Point -> bool {
    (p: Point) => Overlaps(start, end, step, p.t)
  }

  lemma ShownIffOverlaps(start: Time, end: Time, step: int, t: Time)
    requires step > 0 && start < end
    ensures Overlaps(start, end, step, t) <==> t + step > start && t < end
  {
    if t + step > start && t < end {
      var u := if t < start then start else t;
      assert Between(t, t + step, u) && Between(start, end, u);
    }
  }

  lemma {:induction false} PointsUpTo(start: Time, end: Time, step: int, sr: Series, n: nat) returns (at: seq<nat>)
    requires step > 0 && start < end && n <= |Counted(sr)|
    ensures Picks(Overlapping(start, end, step), Counted(sr)[..n], PointsOf(start, end, step, sr, n), at)
  {
    if n == 0 {
      at := [];
    } else {
      var before, p := Counted(sr)[..n - 1], Counted(sr)[n - 1];
      at := PointsUpTo(start, end, step, sr, n - 1);
      ShownIffOverlaps(start, end, step, p.t);
      PicksOneMore(Overlapping(start, end, step), before, p, PointsOf(start, end, step, sr, n - 1), at);
      assert before + [p] == Counted(sr)[..n];
      if Overlaps(start, end, step, p.t) {
        at := at + [n - 1];
      }
    }
  }

  /** A time without a count adds nothing. */
  lemma {:induction false} PointsEnd(start: Time, end: Time, step: int, sr: Series, n: nat)
    requires |Counted(sr)| <= n <= |sr.timestamps|
    ensures PointsOf(start, end, step, sr, n) == PointsOf(start, end, step, sr, |Counted(sr)|)
  {
    if n > |Counted(sr)| {
      PointsEnd(start, end, step, sr, n - 1);
    }
  }

  function AllCounted(series: seq<Series>): seq<Point> {
    if series == [] then [] else AllCounted(series[..|series| - 1]) + Counted(series[|series| - 1])
  }

  /**
   Of all the counts of all series, in order, exactly those are shown whose bucket
   has an instant in common with the range.
   */
  lemma {:induction false} PointsThatAreShown(start: Time, end: Time, step: int, series: seq<Series>) returns (at: seq<nat>)
    requires step > 0 && start < end
    ensures Picks(Overlapping(start, end, step), AllCounted(series), AllPoints(start, end, step, series), at)
  {
    if series == [] {
      at := [];
    } else {
      var init, sr := series[..|series| - 1], series[|series| - 1];
      var before := PointsThatAreShown(start, end, step, init);
      var more := PointsOfSeries(start, end, step, sr);
      PicksJoin(Overlapping(start, end, step), AllCounted(init), Counted(sr), AllPoints(start, end, step, init),
                PointsOf(start, end, step, sr, |sr.timestamps|), before, more);
      at := before + Shifted(|AllCounted(init)|, more);
    }
  }

  lemma PointsOfSeries(start: Time, end: Time, step: int, sr: Series) returns (at: seq<nat>)
    requires step > 0 && start < end
    ensures Picks(Overlapping(start, end, step), Counted(sr), PointsOf(start, end, step, sr, |sr.timestamps|), at)
  {
    at := PointsUpTo(start, end, step, sr, |Counted(sr)|);
    assert Counted(sr)[..|Counted(sr)|] == Counted(sr);
    PointsEnd(start, end, step, sr, |sr.timestamps|);
  }

  // ---- merging by time -----------------------------------------------------------------

  /** Buckets by time, their times in order of first appearance, and the response total. */
  datatype Merge = Merge(byTime: map<Time, Bucket>, order: seq<Time>, total: int)

  function Added(m: Merge, p: Point, split: bool): Merge {
    var b := if p.t in m.byTime then m.byTime[p.t] else Bucket(p.t, 0, map[]);
    var parts := if split && p.count > 0 then Add(b.split, p.name, p.count) else b.split;
    Merge(m.byTime[p.t := Bucket(b.t, b.total + p.count, parts)],
          if p.t in m.byTime then m.order else m.order + [p.t],
          m.total + p.count)
  }

  function Merged(ps: seq<Point>, split: bool): Merge {
    if ps == [] then Merge(map[], [], 0) else Added(Merged(ps[..|ps| - 1], split), ps[|ps| - 1], split)
  }

  lemma MergedOneMore(ps: seq<Point>, p: Point, split: bool)
    ensures Merged(ps + [p], split) == Added(Merged(ps, split), p, split)
  {
    assert (ps + [p])[..|ps|] == ps;
  }

  // ---- the response ---------------------------------------------------------------------

  method AddSeries(start: Time, end: Time, step: int, split: bool, sr: Series, before: Merge, ghost done: seq<Point>)
    returns (m: Merge)
    requires before == Merged(done, split)
    ensures m == Merged(done + PointsOf(start, end, step, sr, |sr.timestamps|), split)
  {
    m := before;
    var name := if sr.other then "other" else sr.value;
    assert done + [] == done;
    for i := 0 to |sr.timestamps|
      invariant m == Merged(done + PointsOf(start, end, step, sr, i), split)
    {
      var ts := sr.timestamps[i];
      ghost var ps := PointsOf(start, end, step, sr, i);
      if ts + step <= start || ts >= end || i >= |sr.counts| {
        assert PointsOf(start, end, step, sr, i + 1) == ps;
        continue;
      }
      var p := Point(ts, name, sr.counts[i]);
      assert done + ps + [p] == done + PointsOf(start, end, step, sr, i + 1);
      MergedOneMore(done + ps, p, split);
      m := Added(m, p, split);
    }
  }

  function Earlier(): (Time, Time) -> bool { (a: Time, b: Time) => a <= b }

  /** The buckets in time order, with the total over all of them. */
  method Response(start: Time, end: Time, step: int, split: bool, series: seq<Series>)
    returns (buckets: seq<Bucket>, total: int)
    ensures Answers(AllPoints(start, end, step, series), split, buckets, total)
  {
    var m := Merge(map[], [], 0);
    for i := 0 to |series|
      invariant m == Merged(AllPoints(start, end, step, series[..i]), split)
    {
      m := AddSeries(start, end, step, split, series[i], m, AllPoints(start, end, step, series[..i]));
      assert series[..i + 1][..i] == series[..i];
    }
    assert series[..|series|] == series;
    ghost var ps := AllPoints(start, end, step, series);
    MergeIsSound(ps, split);
    var order := Sort(Earlier(), m.order);
    SortOrdered(Earlier(), m.order);
    buckets, total := [], m.total;
    for i := 0 to |order|
      invariant |buckets| == i && forall j :: 0 <= j < i ==> order[j] in m.byTime && buckets[j] == m.byTime[order[j]]
    {
      assert order[i] in multiset(order);
      buckets := buckets + [m.byTime[order[i]]];
    }
    SortedAnswers(ps, split, m, order, buckets);
  }

  // ---- the split values -------------------------------------------------------------------

  /** A split value and what the log store counted for it. */
  datatype Ranked = Ranked(name: string, total: int)

  function RankedOf(series: seq<Series>): seq<Ranked> {
    seq(|series|, i requires 0 <= i < |series| => Ranked(NameOf(series[i]), series[i].total))
  }

  function Names(ranked: seq<Ranked>): seq<string> { seq(|ranked|, i requires 0 <= i < |ranked| => ranked[i].name) }

  /** Larger totals first, and "other" after everything else. */
  predicate NoLater(a: Ranked, b: Ranked) {
    if a.name == "other" || b.name == "other" then b.name == "other" || a.name != "other" else a.total >= b.total
  }

  lemma RankingIsTotal()
    ensures TotalPreorder(NoLater)
  {
  }

  /**
   The split values are the names of the series, those with larger totals first,
   equal ones in the order they came, and "other" last; the flag says whether a
   merged series is among them.
   */
  method SplitValues(split: bool, series: seq<Series>) returns (values: seq<string>, other: bool, ghost ranked: seq<Ranked>)
    ensures !split ==> values == [] && !other
    ensures split ==> values == Names(ranked) && multiset(ranked) == multiset(RankedOf(series)) && Ordered(NoLater, ranked)
    ensures split ==> forall a :: Ties(NoLater, a, ranked) == Ties(NoLater, a, RankedOf(series))
    ensures split ==> (other <==> exists i :: 0 <= i < |series| && series[i].other)
  {
    var list: seq<Ranked> := [];
    values, other, ranked := [], false, [];
    for i := 0 to |series|
      invariant list == if split then RankedOf(series[..i]) else []
      invariant other <==> split && exists j :: 0 <= j < i && series[j].other
    {
      var sr := series[i];
      if split {
        other := other || sr.other;
        list := list + [Ranked(NameOf(sr), sr.total)];
      }
    }
    assert series[..|series|] == series;
    if split {
      var sorted := Sort(NoLater, list);
      RankingIsTotal();
      SortOrdered(NoLater, list);
      forall a ensures Ties(NoLater, a, sorted) == Ties(NoLater, a, list) {
        SortIsStable(NoLater, a, list);
      }
      values, ranked := Names(sorted), sorted;
    }
  }

  // ---- what it means ---------------------------------------------------------------------

  function TotalAt(ps: seq<Point>, t: Time): int {
    if ps == [] then 0 else TotalAt(ps[..|ps| - 1], t) + if ps[|ps| - 1].t == t then ps[|ps| - 1].count else 0
  }

  /** The positive counts of one name at one time. */
  function PartAt(ps: seq<Point>, t: Time, name: string): int {
    if ps == [] then 0
    else
      var p := ps[|ps| - 1];
      PartAt(ps[..|ps| - 1], t, name) + if p.t == t && p.name == name && p.count > 0 then p.count else 0
  }

  predicate NonNegative(ps: seq<Point>) { forall p :: p in ps ==> p.count >= 0 }

  /** A bucket adds up its points; its parts are those of each name, and add up to it when no count is negative. */
  ghost predicate BucketOk(ps: seq<Point>, split: bool, t: Time, b: Bucket) {
    && b.t == t && b.total == TotalAt(ps, t)
    && (forall name :: Get(b.split, name) == if split then PartAt(ps, t, name) else 0)
    && (split && NonNegative(ps) ==> Sum(b.split) == b.total)
  }

  predicate HasPoint(ps: seq<Point>, t: Time) { exists p :: p in ps && p.t == t }

  predicate HasBucket(buckets: seq<Bucket>, t: Time) { exists b :: b in buckets && b.t == t }

  function BucketTotals(buckets: seq<Bucket>): int {
    if buckets == [] then 0 else BucketTotals(buckets[..|buckets| - 1]) + buckets[|buckets| - 1].total
  }

  /**
   The response: buckets in strictly increasing time order, one for each time
   with a point, each with its own counts, and a total that is theirs together.
   */
  ghost predicate Answers(ps: seq<Point>, split: bool, buckets: seq<Bucket>, total: int) {
    && (forall i, j :: 0 <= i < j < |buckets| ==> buckets[i].t < buckets[j].t)
    && (forall i :: 0 <= i < |buckets| ==> BucketOk(ps, split, buckets[i].t, buckets[i]))
    && (forall t :: HasPoint(ps, t) <==> HasBucket(buckets, t))
    && total == BucketTotals(buckets)
  }

  function Totals(byTime: map<Time, Bucket>): map<Time, int> { map t | t in byTime :: byTime[t].total }

  ghost predicate Sound(ps: seq<Point>, split: bool, m: Merge) {
    && multiset(m.order) == multiset(m.byTime.Keys)
    && (forall t :: t in m.byTime ==> BucketOk(ps, split, t, m.byTime[t]))
    && (forall t :: t in m.byTime <==> HasPoint(ps, t))
    && m.total == Sum(Totals(m.byTime))
  }

  lemma OtherTimes(ps: seq<Point>, p: Point, split: bool, t: Time, b: Bucket)
    requires BucketOk(ps, split, t, b) && p.t != t
    ensures BucketOk(ps + [p], split, t, b)
  {
    assert (ps + [p])[..|ps|] == ps;
    assert forall q :: q in ps ==> q in ps + [p];
  }

  lemma PartsGrow(ps: seq<Point>, p: Point, b: Bucket, name: string)
    requires Get(b.split, name) == PartAt(ps, p.t, name)
    ensures Get(if p.count > 0 then Add(b.split, p.name, p.count) else b.split, name) == PartAt(ps + [p], p.t, name)
  {
    assert (ps + [p])[..|ps|] == ps;
  }

  lemma SameTime(ps: seq<Point>, p: Point, split: bool, b: Bucket)
    requires BucketOk(ps, split, p.t, b)
    ensures BucketOk(ps + [p], split, p.t,
                     Bucket(b.t, b.total + p.count, if split && p.count > 0 then Add(b.split, p.name, p.count) else b.split))
  {
    var more := ps + [p];
    assert more[..|ps|] == ps;
    var parts := if split && p.count > 0 then Add(b.split, p.name, p.count) else b.split;
    if split {
      forall name ensures Get(parts, name) == PartAt(more, p.t, name) {
        PartsGrow(ps, p, b, name);
      }
    }
    SumAfterAdd(b.split, p.name, p.count);
    if NonNegative(more) {
      assert forall q :: q in ps ==> q in more;
      assert p in more;
    }
  }

  /** A time without a point has an empty bucket. */
  lemma {:induction false} NothingYet(ps: seq<Point>, split: bool, t: Time)
    requires !HasPoint(ps, t)
    ensures BucketOk(ps, split, t, Bucket(t, 0, map[]))
  {
    if ps != [] {
      assert ps[|ps| - 1] in ps;
      assert !HasPoint(ps[..|ps| - 1], t);
      NothingYet(ps[..|ps| - 1], split, t);
      OtherTimes(ps[..|ps| - 1], ps[|ps| - 1], split, t, Bucket(t, 0, map[]));
      assert ps[..|ps| - 1] + [ps[|ps| - 1]] == ps;
    }
  }

  lemma AddedTotals(m: Merge, p: Point, split: bool)
    ensures Sum(Totals(Added(m, p, split).byTime)) == Sum(Totals(m.byTime)) + p.count
  {
    SumAfterAdd(Totals(m.byTime), p.t, p.count);
    assert Totals(Added(m, p, split).byTime) == Add(Totals(m.byTime), p.t, p.count);
  }

  lemma AddedOrder(m: Merge, p: Point, split: bool)
    requires multiset(m.order) == multiset(m.byTime.Keys)
    ensures multiset(Added(m, p, split).order) == multiset(Added(m, p, split).byTime.Keys)
  {
    var keys := Added(m, p, split).byTime.Keys;
    assert keys == m.byTime.Keys + {p.t};
    if p.t !in m.byTime {
      ListOneMore(m.order, m.byTime.Keys, p.t);
    } else {
      assert keys == m.byTime.Keys;
    }
  }

  lemma PointAdded(ps: seq<Point>, p: Point, t: Time)
    ensures HasPoint(ps + [p], t) <==> HasPoint(ps, t) || t == p.t
  {
    assert forall q :: q in ps + [p] <==> q in ps || q == p;
  }

  lemma AddedBucket(ps: seq<Point>, split: bool, m: Merge, p: Point, t: Time)
    requires t in m.byTime ==> BucketOk(ps, split, t, m.byTime[t])
    requires t !in m.byTime ==> !HasPoint(ps, t)
    requires t in Added(m, p, split).byTime
    ensures BucketOk(ps + [p], split, t, Added(m, p, split).byTime[t])
  {
    if t != p.t {
      OtherTimes(ps, p, split, t, m.byTime[t]);
    } else if t in m.byTime {
      SameTime(ps, p, split, m.byTime[t]);
    } else {
      NothingYet(ps, split, t);
      SameTime(ps, p, split, Bucket(t, 0, map[]));
    }
  }

  lemma AddedIsSound(ps: seq<Point>, split: bool, m: Merge, p: Point)
    requires Sound(ps, split, m)
    ensures Sound(ps + [p], split, Added(m, p, split))
  {
    var r := Added(m, p, split);
    AddedTotals(m, p, split);
    AddedOrder(m, p, split);
    forall t ensures t in r.byTime <==> HasPoint(ps + [p], t) {
      PointAdded(ps, p, t);
    }
    forall t | t in r.byTime ensures BucketOk(ps + [p], split, t, r.byTime[t]) {
      AddedBucket(ps, split, m, p, t);
    }
  }

  lemma NoPoints(split: bool)
    ensures Sound([], split, Merge(map[], [], 0))
  {
    assert Totals(map[]) == map[];
  }

  lemma {:induction false} MergeIsSound(ps: seq<Point>, split: bool)
    ensures Sound(ps, split, Merged(ps, split))
  {
    if ps == [] {
      NoPoints(split);
    } else {
      var init, p := ps[..|ps| - 1], ps[|ps| - 1];
      assert ps == init + [p];
      MergeIsSound(init, split);
      AddedIsSound(init, split, Merged(init, split), p);
    }
  }

  lemma TwiceListed(order: seq<Time>, i: nat, j: nat)
    requires i < j < |order| && order[i] == order[j]
    ensures multiset(order)[order[i]] >= 2
  {
    assert order == order[..j] + [order[j]] + order[j + 1..];
    assert order[i] in order[..j];
  }

  lemma {:induction false} TotalsOfListed(order: seq<Time>, byTime: map<Time, Bucket>, buckets: seq<Bucket>)
    requires |order| == |buckets| && forall i :: 0 <= i < |order| ==> order[i] in byTime && buckets[i] == byTime[order[i]]
    ensures BucketTotals(buckets) == SumOf(order, Totals(byTime))
  {
    if order != [] {
      TotalsOfListed(order[..|order| - 1], byTime, buckets[..|order| - 1]);
    }
  }

  lemma SortedAnswers(ps: seq<Point>, split: bool, m: Merge, order: seq<Time>, buckets: seq<Bucket>)
    requires Sound(ps, split, m) && multiset(order) == multiset(m.order) && Ordered(Earlier(), order)
    requires |order| == |buckets| && forall i :: 0 <= i < |order| ==> order[i] in m.byTime && buckets[i] == m.byTime[order[i]]
    ensures Answers(ps, split, buckets, m.total)
  {
    forall i, j | 0 <= i < j < |buckets| ensures buckets[i].t < buckets[j].t {
      assert Earlier()(order[i], order[j]);
      if order[i] == order[j] {
        TwiceListed(order, i, j);
      }
    }
    forall t ensures HasPoint(ps, t) <==> HasBucket(buckets, t) {
      assert t in m.byTime <==> t in multiset(order);
      if t in order {
        var i :| 0 <= i < |order| && order[i] == t;
        assert buckets[i] in buckets;
      }
    }
    assert Totals(m.byTime).Keys == m.byTime.Keys;
    ListedOnce(order, Totals(m.byTime));
    TotalsOfListed(order, m.byTime, buckets);
  }
}
