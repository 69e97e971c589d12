/** Chart buckets: the step a range gets, its aligned grid, and counts added into it. */
module Charts {
  import opened Clock

  const LADDER: seq<int> := [
    SECOND, 5 * SECOND, 10 * SECOND, 30 * SECOND,
    MINUTE, 5 * MINUTE, 10 * MINUTE, 15 * MINUTE, 30 * MINUTE,
    HOUR, 3 * HOUR, 6 * HOUR, 12 * HOUR, DAY, 7 * DAY]

  lemma LadderRises()
    ensures forall i :: 0 <= i < |LADDER| ==> LADDER[i] > 0
    ensures forall i, j :: 0 <= i < j < |LADDER| ==> LADDER[i] < LADDER[j]
  {
  }

  predicate Fits(span: int, maxBuckets: int, step: int) { step > 0 && Quotient(span, step) < maxBuckets }

  /** The least step of the ladder that fits, or the last one when none does. */
  predicate Chosen(span: int, maxBuckets: int, step: int) {
    && step in LADDER
    && (Fits(span, maxBuckets, step) || step == 7 * DAY)
    && forall s :: s in LADDER && s < step ==> !Fits(span, maxBuckets, s)
  }

  method ChooseStep(start: Time, end: Time, maxBuckets: int) returns (step: int)
    ensures step > 0 && Chosen(end - start, maxBuckets, step)
  {
    var span := end - start;
    LadderRises();
    for i := 0 to |LADDER|
      invariant forall j :: 0 <= j < i ==> !Fits(span, maxBuckets, LADDER[j])
    {
      if Quotient(span, LADDER[i]) < maxBuckets {
        step := LADDER[i];
        return;
      }
    }
    step := LADDER[|LADDER| - 1];
  }

  // ---- the grid ----------------------------------------------------------------------

  /** Buckets from the one holding start up to end. */
  function GridSize(start: Time, end: Time, step: int): nat
    requires step > 0
  {
    var first := Truncate(start, step);
    if end <= first then 0 else (end - first - 1) / step + 1
  }

  lemma FewerSteps(i: int, n: int, step: int)
    requires step > 0
    ensures i * step < n * step <==> i < n
    ensures i < n <==> i * step + step <= n * step
  {
    if i < n {
      Scaled(n - i, step);
      assert (n - i) * step == n * step - i * step;
    } else {
      assert (i - n) * step >= 0;
      assert (i - n) * step == i * step - n * step;
    }
  }

  /**
   The grid keeps to n buckets if and only if the range, together with what
   precedes it in its first bucket, is no longer than n steps.
   */
  lemma GridSizeAtMost(start: Time, end: Time, step: int, n: nat)
    requires step > 0
    ensures GridSize(start, end, step) <= n <==> end - Truncate(start, step) <= n * step
  {
    var rest := end - Truncate(start, step) - 1;
    if rest >= 0 {
      DivMod(rest, step);
      FewerSteps(rest / step, n, step);
    } else {
      assert n * step >= 0;
    }
  }

  /** With a step that fits, the grid has at most one bucket more than asked for. */
  lemma GridIsBounded(start: Time, end: Time, maxBuckets: nat, step: int)
    requires start <= end && Fits(end - start, maxBuckets, step)
    ensures GridSize(start, end, step) <= maxBuckets + 1
  {
    var span := end - start;
    DivMod(span, step);
    Scaled(maxBuckets - span / step, step);
    assert (maxBuckets - span / step) * step == maxBuckets * step - (span / step) * step;
    assert (maxBuckets + 1) * step == maxBuckets * step + step;
    GridSizeAtMost(start, end, step, maxBuckets + 1);
  }

  /** A range of 9.9 seconds asked for in 10 buckets gets 11. */
  lemma OneBucketTooMany()
    ensures var start, end := SECOND / 2, 10 * SECOND + 2 * SECOND / 5;
      Chosen(end - start, 10, SECOND) && Fits(end - start, 10, SECOND) && GridSize(start, end, SECOND) == 11
  {
    LadderRises();
    assert LADDER[0] == SECOND;
    TruncateUnique(SECOND / 2, 0, SECOND);
  }

  /** The buckets of a chart and where each is found. */
  method Grid(start: Time, end: Time, step: int) returns (timestamps: seq<Time>, index: map<Time, nat>)
    requires step > 0
    ensures IsGrid(start, end, step, timestamps, index)
  {
    timestamps, index := [], map[];
    var t := Truncate(start, step);
    while t < end
      invariant t == Truncate(start, step) + |timestamps| * step && Aligned(t, step)
      invariant Listed(start, step, timestamps, index)
      invariant timestamps != [] ==> timestamps[|timestamps| - 1] < end
      decreases end - t
    {
      ListOne(start, step, timestamps, index);
      AlignedAdd(t, 1, step);
      index := index[t := |timestamps|];
      timestamps := timestamps + [t];
      assert |timestamps| * step == (|timestamps| - 1) * step + step;
      t := t + step;
    }
    GridCovers(start, end, step, timestamps, index);
  }

  /** Consecutive aligned instants from the first bucket on, each found at its own position. */
  predicate Listed(start: Time, step: int, timestamps: seq<Time>, index: map<Time, nat>)
    requires step > 0
  {
    && (forall i :: 0 <= i < |timestamps| ==> timestamps[i] == Truncate(start, step) + i * step)
    && (forall i :: 0 <= i < |timestamps| ==> timestamps[i] in index && index[timestamps[i]] == i)
    && (forall t :: t in index ==> index[t] < |timestamps| && timestamps[index[t]] == t)
  }

  lemma ListOne(start: Time, step: int, timestamps: seq<Time>, index: map<Time, nat>)
    requires step > 0 && Listed(start, step, timestamps, index)
    ensures var t := Truncate(start, step) + |timestamps| * step;
      Listed(start, step, timestamps + [t], index[t := |timestamps|])
  {
    var t := Truncate(start, step) + |timestamps| * step;
    forall i | 0 <= i < |timestamps| ensures timestamps[i] != t {
      Scaled(|timestamps| - i, step);
      assert |timestamps| * step == i * step + (|timestamps| - i) * step;
    }
  }

  /** From the start of the first bucket to the end of the last of n. */
  predicate InSpan(start: Time, step: int, n: nat, t: Time)
    requires step > 0
  {
    Truncate(start, step) <= t < Truncate(start, step) + n * step
  }

  /** The grid has its size, and an instant truncates to a bucket if and only if it lies in the span of them all. */
  ghost predicate IsGrid(start: Time, end: Time, step: int, timestamps: seq<Time>, index: map<Time, nat>)
    requires step > 0
  {
    && Listed(start, step, timestamps, index)
    && |timestamps| == GridSize(start, end, step)
    && forall t :: Truncate(t, step) in index <==> InSpan(start, step, |timestamps|, t)
  }

  /** Aligned instants are whole steps apart. */
  lemma WholeSteps(a: Time, b: Time, step: int) returns (i: nat)
    requires step > 0 && Aligned(a, step) && Aligned(b, step) && a <= b
    ensures b == a + i * step
  {
    var p, q := a / step, b / step;
    assert a == p * step && b == q * step;
    assert (q - p) * step == b - a;
    if q < p {
      Scaled(q - p, step);
    }
    i := q - p;
  }

  lemma InGrid(start: Time, step: int, timestamps: seq<Time>, index: map<Time, nat>, t: Time)
    requires step > 0 && Listed(start, step, timestamps, index) && InSpan(start, step, |timestamps|, t)
    ensures Truncate(t, step) in index
  {
    var first := Truncate(start, step);
    TruncateUnique(first, first, step);
    TruncateMonotone(first, t, step);
    var i := WholeSteps(first, Truncate(t, step), step);
    FewerSteps(i, |timestamps|, step);
    assert timestamps[i] == Truncate(t, step);
  }

  /** An instant has a bucket if and only if it lies in their span. */
  lemma HasBucket(start: Time, step: int, timestamps: seq<Time>, index: map<Time, nat>, t: Time)
    requires step > 0 && Listed(start, step, timestamps, index)
    ensures Truncate(t, step) in index <==> InSpan(start, step, |timestamps|, t)
  {
    if Truncate(t, step) in index {
      var i := index[Truncate(t, step)];
      assert timestamps[i] == Truncate(start, step) + i * step;
      FewerSteps(i, |timestamps|, step);
      assert i * step >= 0;
    } else if InSpan(start, step, |timestamps|, t) {
      InGrid(start, step, timestamps, index, t);
    }
  }

  lemma GridCovers(start: Time, end: Time, step: int, timestamps: seq<Time>, index: map<Time, nat>)
    requires step > 0 && Listed(start, step, timestamps, index)
    requires end <= Truncate(start, step) + |timestamps| * step
    requires timestamps != [] ==> timestamps[|timestamps| - 1] < end
    ensures IsGrid(start, end, step, timestamps, index)
  {
    forall t ensures Truncate(t, step) in index <==> InSpan(start, step, |timestamps|, t) {
      HasBucket(start, step, timestamps, index, t);
    }
    GridSizeAtMost(start, end, step, |timestamps|);
    if timestamps != [] {
      assert timestamps[|timestamps| - 1] == Truncate(start, step) + (|timestamps| - 1) * step;
      GridSizeAtMost(start, end, step, |timestamps| - 1);
    }
  }

  // ---- counts added into the grid ----------------------------------------------------------

  datatype Row = Row(time: Time, group: string, value: int)

  function SumPoints(points: seq<int>): int { if points == [] then 0 else SumPoints(points[..|points| - 1]) + points[|points| - 1] }

  lemma {:induction false} SumAfterAdding(points: seq<int>, i: nat, n: int)
    requires i < |points|
    ensures SumPoints(points[i := points[i] + n]) == SumPoints(points) + n
  {
    var more := points[i := points[i] + n];
    if i == |points| - 1 {
      assert more[..i] == points[..i];
    } else {
      assert more[..|points| - 1] == points[..|points| - 1][i := points[i] + n];
      SumAfterAdding(points[..|points| - 1], i, n);
    }
  }

  lemma {:induction false} ZerosSum(n: nat)
    ensures SumPoints(seq(n, _ => 0)) == 0
  {
    if n > 0 {
      assert seq(n, _ => 0)[..n - 1] == seq(n - 1, _ => 0);
      ZerosSum(n - 1);
    }
  }

  /** What the rows of a group that fall into one bucket add up to. */
  function CellSum(rows: seq<Row>, step: int, group: string, slot: Time): int {
    if rows == [] then 0
    else
      var r := rows[|rows| - 1];
      CellSum(rows[..|rows| - 1], step, group, slot) + if r.group == group && Truncate(r.time, step) == slot then r.value else 0
  }

  /** What the rows of a group that fall into any bucket add up to. */
  function GroupSum(rows: seq<Row>, step: int, index: map<Time, nat>, group: string): int {
    if rows == [] then 0
    else
      var r := rows[|rows| - 1];
      GroupSum(rows[..|rows| - 1], step, index, group)
        + if r.group == group && Truncate(r.time, step) in index then r.value else 0
  }

  /** A group's points are the sums of its buckets, and lose no row that has one. */
  predicate PointsOk(rows: seq<Row>, step: int, timestamps: seq<Time>, index: map<Time, nat>, group: string, points: seq<int>) {
    && |points| == |timestamps|
    && (forall i :: 0 <= i < |points| ==> points[i] == CellSum(rows, step, group, timestamps[i]))
    && SumPoints(points) == GroupSum(rows, step, index, group)
  }

  /** A group that has no points yet has zeros. */
  function PointsFor(series: map<string, seq<int>>, group: string, n: nat): seq<int> {
    if group in series then series[group] else seq(n, _ => 0)
  }

  lemma AddRow(rows: seq<Row>, r: Row, step: int, timestamps: seq<Time>, index: map<Time, nat>, start: Time, group: string,
               points: seq<int>)
    requires step > 0 && Listed(start, step, timestamps, index) && PointsOk(rows, step, timestamps, index, group, points)
    ensures var slot := Truncate(r.time, step);
      PointsOk(rows + [r], step, timestamps, index, group,
               if r.group == group && slot in index then points[index[slot] := points[index[slot]] + r.value] else points)
  {
    var slot := Truncate(r.time, step);
    assert (rows + [r])[..|rows|] == rows;
    if r.group == group && slot in index {
      SumAfterAdding(points, index[slot], r.value);
    }
  }

  /** Every group has one point per bucket, and they are right. */
  ghost predicate SeriesOk(rows: seq<Row>, step: int, timestamps: seq<Time>, index: map<Time, nat>, series: map<string, seq<int>>) {
    forall group :: PointsOk(rows, step, timestamps, index, group, PointsFor(series, group, |timestamps|))
  }

  /** One row added to its bucket; a row outside the grid is skipped. */
  method AddToBucket(ghost rows: seq<Row>, r: Row, ghost start: Time, step: int, timestamps: seq<Time>, index: map<Time, nat>,
                     before: map<string, seq<int>>)
    returns (series: map<string, seq<int>>)
    requires step > 0 && Listed(start, step, timestamps, index) && SeriesOk(rows, step, timestamps, index, before)
    ensures SeriesOk(rows + [r], step, timestamps, index, series)
  {
    var slot := Truncate(r.time, step);
    var points := PointsFor(before, r.group, |timestamps|);
    assert PointsOk(rows, step, timestamps, index, r.group, points);
    if slot !in index {
      series := before;
    } else {
      series := before[r.group := points[index[slot] := points[index[slot]] + r.value]];
    }
    forall group ensures PointsOk(rows + [r], step, timestamps, index, group, PointsFor(series, group, |timestamps|)) {
      assert PointsOk(rows, step, timestamps, index, group, PointsFor(before, group, |timestamps|));
      AddRow(rows, r, step, timestamps, index, start, group, PointsFor(before, group, |timestamps|));
    }
  }

  lemma NoRows(step: int, timestamps: seq<Time>, index: map<Time, nat>)
    ensures SeriesOk([], step, timestamps, index, map[])
  {
    ZerosSum(|timestamps|);
  }

  /** Each point is the sum of the rows in its bucket, and a group's points hold every row that has a bucket. */
  method Series(rows: seq<Row>, start: Time, step: int, timestamps: seq<Time>, index: map<Time, nat>)
    returns (series: map<string, seq<int>>)
    requires step > 0 && Listed(start, step, timestamps, index)
    ensures SeriesOk(rows, step, timestamps, index, series)
  {
    series := map[];
    NoRows(step, timestamps, index);
    for k := 0 to |rows|
      invariant SeriesOk(rows[..k], step, timestamps, index, series)
    {
      series := AddToBucket(rows[..k], rows[k], start, step, timestamps, index, series);
      assert rows[..k + 1] == rows[..k] + [rows[k]];
    }
    assert rows[..|rows|] == rows;
  }

  function GroupTotal(rows: seq<Row>, group: string): int {
    if rows == [] then 0
    else GroupTotal(rows[..|rows| - 1], group) + if rows[|rows| - 1].group == group then rows[|rows| - 1].value else 0
  }

  /** What the rows of a group within the span of the buckets add up to. */
  function SpanTotal(rows: seq<Row>, start: Time, step: int, n: nat, group: string): int
    requires step > 0
  {
    if rows == [] then 0
    else
      var r := rows[|rows| - 1];
      SpanTotal(rows[..|rows| - 1], start, step, n, group) + if r.group == group && InSpan(start, step, n, r.time) then r.value else 0
  }

  /** A row is added if and only if it lies in the span of the buckets, whichever rows there are. */
  lemma {:induction false} RowsInSpanAreAdded(rows: seq<Row>, start: Time, end: Time, step: int, timestamps: seq<Time>,
                                              index: map<Time, nat>, group: string)
    requires step > 0 && IsGrid(start, end, step, timestamps, index)
    ensures GroupSum(rows, step, index, group) == SpanTotal(rows, start, step, GridSize(start, end, step), group)
  {
    if rows != [] {
      RowsInSpanAreAdded(rows[..|rows| - 1], start, end, step, timestamps, index, group);
    }
  }

  /** From the start of the bucket that holds start, which usually lies before the range, to the end of the range. */
  predicate InBuckets(start: Time, end: Time, step: int, r: Row)
    requires step > 0
  {
    Truncate(start, step) <= r.time < end
  }

  /** No row of the range is lost, nor one whose bucket starts before it: a group's points add up to all of its rows. */
  lemma {:induction false} NoRowIsLost(rows: seq<Row>, start: Time, end: Time, step: int, timestamps: seq<Time>,
                                       index: map<Time, nat>, group: string)
    requires step > 0 && IsGrid(start, end, step, timestamps, index)
    requires forall r :: r in rows ==> InBuckets(start, end, step, r)
    ensures GroupSum(rows, step, index, group) == GroupTotal(rows, group)
  {
    if rows != [] {
      var r := rows[|rows| - 1];
      assert r in rows;
      GridSizeAtMost(start, end, step, |timestamps|);
      assert InSpan(start, step, |timestamps|, r.time);
      NoRowIsLost(rows[..|rows| - 1], start, end, step, timestamps, index, group);
    }
  }

  // ---- which row times are enough ----------------------------------------------------------------

  /** A row stands for a bucket of the log store that starts at its time and holds an instant of the range. */
  predicate HoldsInstant(start: Time, end: Time, step: int, r: Row, u: Time) {
    start <= u < end && r.time <= u < r.time + step
  }

  /** Buckets of the log store that start on multiples of the step since the zero time. */
  lemma AlignedRowIsInBuckets(start: Time, end: Time, step: int, r: Row, u: Time)
    requires step > 0 && Aligned(r.time, step) && HoldsInstant(start, end, step, r, u)
    ensures InBuckets(start, end, step, r)
  {
    TruncateUnique(u, r.time, step);
    TruncateMonotone(start, u, step);
  }

  /** The Unix epoch is 719162 days after the zero time. */
  const EPOCH: Time := 719_162 * DAY

  /** The start of a bucket counted from the epoch. */
  predicate FromEpoch(t: Time, step: int)
    requires step > 0
  {
    Aligned(t - EPOCH, step)
  }

  /** Every step of the ladder but the last divides a day. */
  lemma StepsDivideDays(step: int)
    requires step in LADDER
    ensures step > 0 && (step != 7 * DAY ==> DAY % step == 0)
  {
    LadderRises();
  }

  lemma EpochIsAligned(step: int)
    requires step > 0 && DAY % step == 0
    ensures Aligned(EPOCH, step)
  {
    var k := DAY / step;
    assert DAY == k * step;
    assert EPOCH == (719_162 * k) * step;
    MultipleIsAligned(719_162 * k, step);
  }

  /** For the steps of the ladder, buckets counted from the epoch are those counted from the zero time unless the step is a week. */
  lemma EpochBucketsAgree(step: int, t: Time)
    requires step in LADDER && step > 0
    ensures step != 7 * DAY ==> (FromEpoch(t, step) <==> Aligned(t, step))
    ensures step == 7 * DAY ==> !(FromEpoch(t, step) && Aligned(t, step))
  {
    StepsDivideDays(step);
    if step != 7 * DAY {
      EpochIsAligned(step);
      var e := EPOCH / step;
      assert EPOCH == e * step;
      if FromEpoch(t, step) {
        AlignedAdd(t - EPOCH, e, step);
      }
      if Aligned(t, step) {
        AlignedAdd(t, -e, step);
        assert (-e) * step == -EPOCH;
      }
    } else if FromEpoch(t, step) && Aligned(t, step) {
      WeeksDiffer(t);
    }
  }

  lemma WeeksDiffer(t: Time)
    ensures !(Aligned(t - EPOCH, 7 * DAY) && Aligned(t, 7 * DAY))
  {
    assert EPOCH == 102_737 * (7 * DAY) + 3 * DAY;
  }

  /**
   With a log store whose buckets are counted from the epoch: a row of the range
   is in a chart's buckets, for every range, if the step is not a week.
   */
  lemma EpochRowIsInBuckets(start: Time, end: Time, step: int, r: Row, u: Time)
    requires step in LADDER && step > 0 && step != 7 * DAY && FromEpoch(r.time, step) && HoldsInstant(start, end, step, r, u)
    ensures InBuckets(start, end, step, r)
  {
    EpochBucketsAgree(step, r.time);
    AlignedRowIsInBuckets(start, end, step, r, u);
  }

  /** With weeks it is not: the range that is any one week of the chart loses a row that holds its start. */
  lemma WeekRowIsLost(n: nat) returns (start: Time, end: Time, r: Row)
    ensures start == n * (7 * DAY) && end == start + 7 * DAY
    ensures FromEpoch(r.time, 7 * DAY) && HoldsInstant(start, end, 7 * DAY, r, start) && !InBuckets(start, end, 7 * DAY, r)
  {
    var week := 7 * DAY;
    start := n * week;
    end := start + week;
    r := Row(start - 4 * DAY, "", 1);
    MultipleIsAligned(n, week);
    TruncateUnique(start, start, week);
    assert EPOCH == 102_737 * week + 3 * DAY;
    assert r.time - EPOCH == (n - 102_738) * week;
    MultipleIsAligned(n - 102_738, week);
  }
}
