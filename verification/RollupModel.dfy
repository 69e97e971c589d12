/**
 What one rollup query answers, which samples a window should leave in the
 metrics store, and how far back a run reaches.
 */
module RollupModel {
  import opened Clock
  import opened Wrappers

  // ---- the log store --------------------------------------------------------

  /** A named group of phrases counted together. */
  datatype Category = Category(name: string, phrases: seq<string>)

  datatype Count = Count(distinct: nat, messages: nat)

  /**
   The answers the log store holds: whether bucket [t, t + step) has any row
   of the selection, and what each category counts there.
   */
  datatype LogStore = LogStore(
    active: (Time, int) -> bool,
    count: (Category, Time, int) -> Count)

  datatype Row = Row(at: Time, category: string, count: Count)

  datatype Query = Query(start: Time, stop: Time, categories: seq<Category>, step: int)

  /** One category's rows over [start, stop): one per bucket that has any log. */
  function BucketRows(logs: LogStore, c: Category, start: Time, stop: Time, step: int): seq<Row>
    requires step > 0
    decreases stop - start
  {
    if stop <= start then []
    else
      (if logs.active(start, step) then [Row(start, c.name, logs.count(c, start, step))] else [])
      + BucketRows(logs, c, start + step, stop, step)
  }

  /** The rows of one unsplit query: every category over the whole range. */
  function AnswerRows(logs: LogStore, q: Query): seq<Row>
    requires q.step > 0
    decreases |q.categories|
  {
    if q.categories == [] then []
    else
      BucketRows(logs, q.categories[0], q.start, q.stop, q.step)
      + AnswerRows(logs, q.(categories := q.categories[1..]))
  }

  /** The rows whose bucket starts inside [start, stop). */
  function Inside(rows: seq<Row>, start: Time, stop: Time): seq<Row> {
    if rows == [] then []
    else (if start <= rows[0].at < stop then [rows[0]] else []) + Inside(rows[1..], start, stop)
  }

  /**
   The log store's contract: inside the range the rows are those of the query,
   in any order; a bucket that starts outside the range may come with them.
   */
  ghost predicate Answers(logs: LogStore, q: Query, rows: seq<Row>)
    requires q.step > 0
  {
    multiset(Inside(rows, q.start, q.stop)) == multiset(AnswerRows(logs, q))
  }

  lemma {:induction false} InsideJoin(a: seq<Row>, b: seq<Row>, start: Time, stop: Time)
    ensures Inside(a + b, start, stop) == Inside(a, start, stop) + Inside(b, start, stop)
  {
    if a == [] {
      assert a + b == b;
    } else {
      assert (a + b)[1..] == a[1..] + b;
      InsideJoin(a[1..], b, start, stop);
    }
  }

  lemma {:induction false} InsideMember(rows: seq<Row>, start: Time, stop: Time, r: Row)
    ensures r in Inside(rows, start, stop) <==> r in rows && start <= r.at < stop
  {
    if rows != [] {
      assert rows == [rows[0]] + rows[1..];
      InsideMember(rows[1..], start, stop, r);
    }
  }

  /** Counting the categories in groups joins to counting them together. */
  lemma {:induction false} AnswerRowsJoin(logs: LogStore, a: seq<Category>, b: seq<Category>, start: Time, stop: Time, step: int)
    requires step > 0
    ensures AnswerRows(logs, Query(start, stop, a + b, step))
         == AnswerRows(logs, Query(start, stop, a, step)) + AnswerRows(logs, Query(start, stop, b, step))
    decreases |a|
  {
    if a == [] {
      assert a + b == b;
    } else {
      assert (a + b)[1..] == a[1..] + b;
      AnswerRowsJoin(logs, a[1..], b, start, stop, step);
    }
  }

  lemma {:induction false} BucketRowsSplit(logs: LogStore, c: Category, start: Time, mid: Time, stop: Time, step: int)
    requires step > 0 && start <= mid <= stop && Aligned(start, step) && Aligned(mid, step)
    ensures BucketRows(logs, c, start, stop, step)
         == BucketRows(logs, c, start, mid, step) + BucketRows(logs, c, mid, stop, step)
    decreases mid - start
  {
    if start < mid {
      AlignedGap(start, mid, step);
      AlignedAdd(start, 1, step);
      BucketRowsSplit(logs, c, start + step, mid, stop, step);
    }
  }

  /** Counting a span in two parts gives the rows of counting it whole. */
  lemma {:induction false} AnswerRowsSplit(logs: LogStore, cats: seq<Category>, start: Time, mid: Time, stop: Time, step: int)
    requires step > 0 && start <= mid <= stop && Aligned(start, step) && Aligned(mid, step)
    ensures multiset(AnswerRows(logs, Query(start, stop, cats, step)))
         == multiset(AnswerRows(logs, Query(start, mid, cats, step)))
          + multiset(AnswerRows(logs, Query(mid, stop, cats, step)))
    ensures |AnswerRows(logs, Query(start, stop, cats, step))|
         == |AnswerRows(logs, Query(start, mid, cats, step))| + |AnswerRows(logs, Query(mid, stop, cats, step))|
    decreases |cats|
  {
    if cats != [] {
      BucketRowsSplit(logs, cats[0], start, mid, stop, step);
      AnswerRowsSplit(logs, cats[1..], start, mid, stop, step);
    }
  }

  lemma {:induction false} BucketRowsMember(logs: LogStore, c: Category, start: Time, stop: Time, step: int, r: Row)
    requires step > 0 && Aligned(start, step)
    ensures r in BucketRows(logs, c, start, stop, step)
       <==> start <= r.at < stop && Aligned(r.at, step) && logs.active(r.at, step)
            && r.category == c.name && r.count == logs.count(c, r.at, step)
    decreases stop - start
  {
    if start < stop {
      AlignedAdd(start, 1, step);
      BucketRowsMember(logs, c, start + step, stop, step, r);
      if start < r.at && Aligned(r.at, step) {
        AlignedGap(start, r.at, step);
      }
    }
  }

  ghost predicate CountedBy(logs: LogStore, c: Category, step: int, r: Row) {
    r.category == c.name && r.count == logs.count(c, r.at, step)
  }

  /** Which rows an unsplit query over an aligned range has. */
  lemma {:induction false} AnswerRowsMember(logs: LogStore, q: Query, r: Row)
    requires q.step > 0 && Aligned(q.start, q.step)
    ensures r in AnswerRows(logs, q)
       <==> q.start <= r.at < q.stop && Aligned(r.at, q.step) && logs.active(r.at, q.step)
            && exists c :: c in q.categories && CountedBy(logs, c, q.step, r)
    decreases |q.categories|
  {
    if q.categories != [] {
      var rest := q.(categories := q.categories[1..]);
      BucketRowsMember(logs, q.categories[0], q.start, q.stop, q.step, r);
      AnswerRowsMember(logs, rest, r);
      assert q.categories == [q.categories[0]] + rest.categories;
      assert forall c :: c in q.categories <==> c == q.categories[0] || c in rest.categories;
      assert CountedBy(logs, q.categories[0], q.step, r)
        <==> r.category == q.categories[0].name && r.count == logs.count(q.categories[0], r.at, q.step);
    }
  }

  // ---- the metrics store ------------------------------------------------------

  /** The label a resolution is stored under: "1d", "1h" or "5m". */
  datatype Window = Days(n: int) | Hours(n: int) | Minutes(n: int)

  function WindowName(d: int): Window {
    if d >= DAY && d % DAY == 0 then Days(d / DAY)
    else if d >= HOUR && d % HOUR == 0 then Hours(d / HOUR)
    else Minutes(d / MINUTE)
  }

  datatype Metric = UniqueClients | Queries
  datatype Scope = All | Main
  datatype Key = Key(metric: Metric, service: string, window: Window, scope: Scope, at: Time)
  datatype Sample = Sample(key: Key, value: nat)
  type Samples = map<Key, nat>

  /** Writing replaces: the same series and timestamp holds the last value. */
  function Overwrite(m: Samples, batch: seq<Sample>): Samples
    decreases |batch|
  {
    if batch == [] then m else Overwrite(m[batch[0].key := batch[0].value], batch[1..])
  }

  ghost predicate DistinctNames(cats: seq<Category>) {
    forall i, j :: 0 <= i < j < |cats| ==> cats[i].name != cats[j].name
  }

  function Find(cats: seq<Category>, name: string): Option<Category> {
    if cats == [] then None
    else if cats[0].name == name then Some(cats[0])
    else Find(cats[1..], name)
  }

  lemma {:induction false} FindMember(cats: seq<Category>, name: string)
    ensures Find(cats, name).Some? ==> Find(cats, name).value in cats && Find(cats, name).value.name == name
    ensures Find(cats, name).None? ==> forall c :: c in cats ==> c.name != name
    ensures DistinctNames(cats) ==> forall c :: c in cats && c.name == name ==> Find(cats, name) == Some(c)
  {
    if cats != [] {
      assert cats == [cats[0]] + cats[1..];
      FindMember(cats[1..], name);
    }
  }

  /**
   The value one query over the single window [k.at, k.at + step), counting
   every category at once, gives the series of k; None when it gives none.
   */
  function Expected(logs: LogStore, cats: seq<Category>, scope: Scope, step: int, k: Key): Option<nat>
    requires step > 0
  {
    if k.window == WindowName(step) && k.scope == scope && Aligned(k.at, step) && logs.active(k.at, step) then
      match Find(cats, k.service)
      case None => None
      case Some(c) =>
        var n := logs.count(c, k.at, step);
        Some(if k.metric == UniqueClients then n.distinct else n.messages)
    else None
  }

  /** The samples of one unsplit query over one window. */
  function WindowSamples(logs: LogStore, cats: seq<Category>, scope: Scope, step: int, at: Time): seq<Sample>
    requires step > 0
  {
    SamplesOf(AnswerRows(logs, Query(at, at + step, cats, step)), scope, step)
  }

  function SamplesOf(rows: seq<Row>, scope: Scope, step: int): seq<Sample> {
    if rows == [] then [] else RowSamples(rows[0], scope, step) + SamplesOf(rows[1..], scope, step)
  }

  function RowSamples(r: Row, scope: Scope, step: int): seq<Sample> {
    [ Sample(Key(UniqueClients, r.category, WindowName(step), scope, r.at), r.count.distinct),
      Sample(Key(Queries, r.category, WindowName(step), scope, r.at), r.count.messages) ]
  }

  lemma {:induction false} SamplesOfMember(rows: seq<Row>, scope: Scope, step: int, s: Sample)
    ensures s in SamplesOf(rows, scope, step) <==> exists r :: r in rows && s in RowSamples(r, scope, step)
  {
    if rows != [] {
      assert rows == [rows[0]] + rows[1..];
      SamplesOfMember(rows[1..], scope, step, s);
      if s in SamplesOf(rows, scope, step) {
        if s in RowSamples(rows[0], scope, step) {
          assert rows[0] in rows;
        } else {
          var r :| r in rows[1..] && s in RowSamples(r, scope, step);
          assert r in rows;
        }
      }
    }
  }

  /** Expected is exactly what the unsplit one-window query writes. */
  lemma ExpectedIsWindowSample(logs: LogStore, cats: seq<Category>, scope: Scope, step: int, k: Key, v: nat)
    requires step > 0 && DistinctNames(cats) && Aligned(k.at, step)
    ensures Expected(logs, cats, scope, step, k) == Some(v)
       <==> Sample(k, v) in WindowSamples(logs, cats, scope, step, k.at)
  {
    var q := Query(k.at, k.at + step, cats, step);
    var s := Sample(k, v);
    SamplesOfMember(AnswerRows(logs, q), scope, step, s);
    FindMember(cats, k.service);
    if Expected(logs, cats, scope, step, k) == Some(v) {
      var c := Find(cats, k.service).value;
      var r := Row(k.at, c.name, logs.count(c, k.at, step));
      AnswerRowsMember(logs, q, r);
      assert CountedBy(logs, c, step, r);
      assert r in AnswerRows(logs, q);
      assert s == RowSamples(r, scope, step)[0] || s == RowSamples(r, scope, step)[1];
    }
    if s in WindowSamples(logs, cats, scope, step, k.at) {
      var r :| r in AnswerRows(logs, q) && s in RowSamples(r, scope, step);
      RowIsExpected(logs, q, scope, r, s);
    }
  }

  /** Every sample made from a row of a query carries its expected value. */
  lemma RowIsExpected(logs: LogStore, q: Query, scope: Scope, r: Row, s: Sample)
    requires q.step > 0 && DistinctNames(q.categories) && Aligned(q.start, q.step)
    requires r in AnswerRows(logs, q) && s in RowSamples(r, scope, q.step)
    ensures Expected(logs, q.categories, scope, q.step, s.key) == Some(s.value)
    ensures q.start <= s.key.at < q.stop
  {
    AnswerRowsMember(logs, q, r);
    var c :| c in q.categories && CountedBy(logs, c, q.step, r);
    FindMember(q.categories, r.category);
  }

  /** Every expected sample of a query's range comes from one of its rows. */
  lemma ExpectedHasRow(logs: LogStore, q: Query, scope: Scope, k: Key) returns (r: Row)
    requires q.step > 0 && Aligned(q.start, q.step) && q.start <= k.at < q.stop
    requires Expected(logs, q.categories, scope, q.step, k).Some?
    ensures r in AnswerRows(logs, q)
    ensures Sample(k, Expected(logs, q.categories, scope, q.step, k).value) in RowSamples(r, scope, q.step)
  {
    FindMember(q.categories, k.service);
    var c := Find(q.categories, k.service).value;
    r := Row(k.at, c.name, logs.count(c, k.at, q.step));
    AnswerRowsMember(logs, q, r);
    assert CountedBy(logs, c, q.step, r);
    var s := Sample(k, Expected(logs, q.categories, scope, q.step, k).value);
    assert s == RowSamples(r, scope, q.step)[0] || s == RowSamples(r, scope, q.step)[1];
  }

  // ---- what a recording may change, and what it must leave --------------------

  /** Every expected sample of the windows in [lo, hi) is in the store. */
  ghost predicate Covered(logs: LogStore, cats: seq<Category>, scope: Scope, step: int, lo: Time, hi: Time, m: Samples)
    requires step > 0
  {
    forall k: Key {:trigger k in m} {:trigger Expected(logs, cats, scope, step, k)} ::
      lo <= k.at < hi && Expected(logs, cats, scope, step, k).Some? ==>
        k in m && m[k] == Expected(logs, cats, scope, step, k).value
  }

  /** Nothing changed except to expected values of windows in [lo, hi). */
  ghost predicate OnlyExpected(logs: LogStore, cats: seq<Category>, scope: Scope, step: int, lo: Time, hi: Time,
                               before: Samples, after: Samples)
    requires step > 0
  {
    && before.Keys <= after.Keys
    && forall k :: k in after && !(k in before && before[k] == after[k]) ==>
         lo <= k.at < hi && Expected(logs, cats, scope, step, k) == Some(after[k])
  }

  ghost predicate AllExpected(logs: LogStore, cats: seq<Category>, scope: Scope, step: int, lo: Time, hi: Time,
                              batch: seq<Sample>)
    requires step > 0
  {
    forall s :: s in batch ==> lo <= s.key.at < hi && Expected(logs, cats, scope, step, s.key) == Some(s.value)
  }

  /** Writing expected samples keeps what is covered, adds themselves and touches nothing else. */
  lemma {:induction false} OverwriteExpected(logs: LogStore, cats: seq<Category>, scope: Scope, step: int, lo: Time, hi: Time,
                          m0: Samples, m: Samples, batch: seq<Sample>)
    requires step > 0 && AllExpected(logs, cats, scope, step, lo, hi, batch)
    requires OnlyExpected(logs, cats, scope, step, lo, hi, m0, m)
    ensures OnlyExpected(logs, cats, scope, step, lo, hi, m0, Overwrite(m, batch))
    ensures OnlyExpected(logs, cats, scope, step, lo, hi, m, Overwrite(m, batch))
    ensures forall s :: s in batch ==> s.key in Overwrite(m, batch) && Overwrite(m, batch)[s.key] == s.value
    decreases |batch|
  {
    if batch != [] {
      var m1 := m[batch[0].key := batch[0].value];
      assert batch == [batch[0]] + batch[1..];
      assert batch[0] in batch;
      assert AllExpected(logs, cats, scope, step, lo, hi, batch[1..]) by {
        forall s | s in batch[1..]
          ensures lo <= s.key.at < hi && Expected(logs, cats, scope, step, s.key) == Some(s.value)
        {
          assert s in batch;
        }
      }
      OverwriteExpected(logs, cats, scope, step, lo, hi, m0, m1, batch[1..]);
    }
  }

  /** A covered range stays covered when only expected values are written. */
  lemma CoveredStays(logs: LogStore, cats: seq<Category>, scope: Scope, step: int, lo: Time, mid: Time,
                     a: Time, b: Time, m: Samples, m': Samples)
    requires step > 0 && Covered(logs, cats, scope, step, lo, mid, m)
    requires OnlyExpected(logs, cats, scope, step, a, b, m, m')
    ensures Covered(logs, cats, scope, step, lo, mid, m')
  {
  }

  // ---- progress -----------------------------------------------------------------

  /** How far each resolution has been recorded. */
  type State = map<Window, Time>

  function Get(s: State, w: Window): Time { if w in s then s[w] else ZERO }

  /** Progress as the settings hold it: in RFC 3339 text without fractions of a second. */
  function Stored(s: State): State { map w | w in s :: Truncate(s[w], SECOND) }

  ghost predicate Whole(s: State) { forall w :: w in s ==> Aligned(s[w], SECOND) }

  /** What was stored is whole, and storing loses nothing exactly when there is no fraction to lose. */
  lemma StoredIsWhole(s: State)
    ensures Whole(Stored(s)) && (Stored(s) == s <==> Whole(s))
  {
    if Whole(s) {
      forall w | w in s ensures Truncate(s[w], SECOND) == s[w] {
        TruncateUnique(s[w], s[w], SECOND);
      }
    }
    if Stored(s) == s {
      forall w | w in s ensures Aligned(s[w], SECOND) {
        assert Stored(s)[w] == s[w];
      }
    }
  }

  // ---- how the size of a query shrinks ----------------------------------------

  const MAX_BUCKETS_PER_QUERY: int := 288
  const MAX_SHRINK_ATTEMPTS: nat := 12
  const MAX_QUERY_SPAN: int := 2 * HOUR
  const MAX_SAMPLES_PER_WRITE: nat := 10000

  datatype Size = Size(buckets: int, chunk: int)

  /** Both levers move together; neither goes below one. */
  function Halved(s: Size): Size {
    Size(if s.buckets > 1 then s.buckets / 2 else s.buckets, if s.chunk > 1 then (s.chunk + 1) / 2 else s.chunk)
  }

  function Shrunk(s: Size, times: nat): Size {
    if times == 0 then s else Halved(Shrunk(s, times - 1))
  }

  predicate AtFloor(s: Size) { s.buckets <= 1 && s.chunk <= 1 }

  function Pow2(n: nat): (r: nat)
    ensures r >= 1
  {
    if n == 0 then 1 else 2 * Pow2(n - 1)
  }

  lemma {:induction false} ShrunkBounds(s: Size, times: nat)
    requires s.buckets >= 1 && s.chunk >= 1
    ensures var t := Shrunk(s, times);
      && 1 <= t.buckets <= s.buckets && 1 <= t.chunk <= s.chunk
      && (t.buckets > 1 ==> t.buckets * Pow2(times) <= s.buckets)
      && s.buckets < (t.buckets + 1) * Pow2(times)
      && (t.chunk - 1) * Pow2(times) <= s.chunk - 1
      && s.chunk <= t.chunk * Pow2(times)
  {
    if times > 0 {
      var p := Pow2(times - 1);
      var t := Shrunk(s, times - 1);
      ShrunkBounds(s, times - 1);
      ShrunkBuckets(s.buckets, t.buckets, p);
      ShrunkChunk(s.chunk, t.chunk, p);
    }
  }

  lemma ShrunkBuckets(b: int, t: int, p: int)
    requires p >= 1 && t >= 1 && b < (t + 1) * p && (t > 1 ==> t * p <= b)
    ensures t > 1 ==> (t / 2) * (2 * p) <= b && b < (t / 2 + 1) * (2 * p)
    ensures t == 1 ==> b < 2 * (2 * p)
  {
    var h := t / 2;
    assert 2 * h <= t <= 2 * h + 1;
    assert (t - 2 * h) * p >= 0;
    assert (2 * h + 2 - (t + 1)) * p >= 0;
  }

  lemma ShrunkChunk(c: int, t: int, p: int)
    requires p >= 1 && t >= 1 && (t - 1) * p <= c - 1 && c <= t * p
    ensures t > 1 ==> ((t + 1) / 2 - 1) * (2 * p) <= c - 1 && c <= ((t + 1) / 2) * (2 * p)
    ensures t == 1 ==> c <= 2 * p
  {
    var h := (t + 1) / 2;
    assert 2 * h - 1 <= t <= 2 * h;
    assert (2 * h - t) * p >= 0;
    assert (t - 1 - 2 * (h - 1)) * p >= 0;
  }

  /**
   Twelve joint halvings reach one bucket and one service exactly when the
   starting size is below 8192 buckets and at most 4096 services.
   */
  lemma ShrinkBudgetReachesFloor(s: Size)
    requires s.buckets >= 1 && s.chunk >= 1
    ensures AtFloor(Shrunk(s, MAX_SHRINK_ATTEMPTS)) <==> s.buckets < 8192 && s.chunk <= 4096
  {
    ShrunkBounds(s, 12);
    Pow2Twelve();
    var t := Shrunk(s, 12);
    assert t.buckets > 1 ==> t.buckets * 4096 <= s.buckets;
    assert s.buckets < (t.buckets + 1) * 4096;
    assert (t.chunk - 1) * 4096 <= s.chunk - 1;
    assert s.chunk <= t.chunk * 4096;
  }

  lemma Pow2Twelve()
    ensures Pow2(12) == 4096
  {
    assert Pow2(4) == 16;
    assert Pow2(6) == 64;
    assert Pow2(8) == 256;
    assert Pow2(10) == 1024;
  }

  // ---- how far back a run reaches -----------------------------------------------

  /** What the recorder is configured with; an empty `windows` records every resolution. */
  datatype Options = Options(base: int, backfill: int, maxAge: int, windows: set<Window>)

  function AllResolutions(o: Options): seq<int> { [o.base, HOUR, DAY] }

  function Wanted(o: Options, steps: seq<int>): (r: seq<int>)
    ensures forall s :: s in r <==> s in steps && (o.windows == {} || WindowName(s) in o.windows)
  {
    if steps == [] then []
    else
      assert steps == [steps[0]] + steps[1..];
      (if o.windows == {} || WindowName(steps[0]) in o.windows then [steps[0]] else []) + Wanted(o, steps[1..])
  }

  function Resolutions(o: Options): seq<int> { Wanted(o, AllResolutions(o)) }

  /** A label names one resolution: no two different steps share it. */
  lemma WindowNamesOneStep(o: Options, a: int, b: int)
    requires o.base > 0 && a in Resolutions(o) && b in Resolutions(o) && WindowName(a) == WindowName(b)
    ensures a == b
  {
    assert WindowName(HOUR) == Hours(1) && WindowName(DAY) == Days(1);
    assert a in AllResolutions(o) && b in AllResolutions(o);
    NamedHourOrDay(a);
    NamedHourOrDay(b);
  }

  lemma NamedHourOrDay(d: int)
    requires d > 0
    ensures WindowName(d) == Hours(1) ==> d == HOUR
    ensures WindowName(d) == Days(1) ==> d == DAY
  {
    assert d == (d / HOUR) * HOUR + d % HOUR;
    assert d == (d / DAY) * DAY + d % DAY;
  }

  /** The oldest history a resolution reaches for; zero is no bound. */
  function Horizon(o: Options, step: int): int {
    var h := if 0 < o.backfill < 2 * step then 2 * step else o.backfill;
    if o.maxAge > 0 && (h == 0 || o.maxAge < h) then o.maxAge else h
  }

  /** Where a run starts counting, given how far the resolution had been recorded. */
  function StartOf(o: Options, step: int, from: Time, now: Time): (r: Time)
    requires step > 0
    ensures Aligned(r, step)
    ensures from != ZERO && Aligned(from, step) ==> from <= r
  {
    var end := Truncate(now, step);
    if from == ZERO && o.backfill <= 0 then
      AlignedAdd(end, -1, step);
      end - step
    else
      var wanted := Truncate(if from == ZERO then Truncate(now - o.backfill, step) else from, step);
      var h := Horizon(o, step);
      assert from != ZERO && Aligned(from, step) ==> wanted == from by {
        if from != ZERO && Aligned(from, step) { TruncateUnique(from, from, step); }
      }
      if h > 0 && wanted < Truncate(now - h, step) then Truncate(now - h, step) else wanted
  }

  /** Without a choice of windows the base, the hour and the day are all recorded; with one, those of them that are chosen. */
  lemma ResolutionsAre(o: Options, step: int)
    ensures o.windows == {} ==> Resolutions(o) == [o.base, HOUR, DAY]
    ensures step in Resolutions(o) <==>
      (step == o.base || step == HOUR || step == DAY) && (o.windows == {} || WindowName(step) in o.windows)
  {
    if o.windows == {} {
      assert Wanted(o, [DAY]) == [DAY];
      assert Wanted(o, [HOUR, DAY]) == [HOUR, DAY];
    }
  }

  /** Counting from `from` on does not reach behind what is kept. */
  ghost predicate KeptInReach(o: Options, step: int, from: Time, now: Time)
    requires step > 0
  {
    from != ZERO || o.backfill > 0 ==> Truncate(now - o.maxAge, step) <= StartOf(o, step, from, now)
  }

  lemma StartWithinAge(o: Options, step: int, from: Time, now: Time)
    requires step > 0 && o.maxAge > 0 && o.backfill >= 0
    ensures KeptInReach(o, step, from, now)
  {
    TruncateMonotone(now - o.maxAge, now - Horizon(o, step), step);
  }

  /** With a negative backfill a resolution that fell behind goes on from where it was, however long ago. */
  lemma StartBeforeAge(o: Options, step: int)
    requires step > 0 && o.maxAge > 0 && o.backfill < 0
    ensures !KeptInReach(o, step, step, o.maxAge + 2 * step)
  {
    TruncateUnique(step, step, step);
    TruncateUnique(2 * step, 2 * step, step);
    MultipleIsAligned(2, step);
    MultipleIsAligned(1, step);
  }

  /**
   Whatever was recorded and whenever a run comes, it never counts logs older than
   what is kept, if and only if the backfill is not negative.
   */
  lemma RetentionIffNoNegativeBackfill(o: Options, step: int)
    requires step > 0 && o.maxAge > 0
    ensures (forall from, now :: KeptInReach(o, step, from, now)) <==> o.backfill >= 0
  {
    if o.backfill >= 0 {
      forall from, now ensures KeptInReach(o, step, from, now) {
        StartWithinAge(o, step, from, now);
      }
    } else {
      StartBeforeAge(o, step);
    }
  }
}
