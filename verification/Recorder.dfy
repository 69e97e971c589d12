/**
 The rollup recorder: it counts every complete window not recorded yet, asks
 for less when the log store refuses, and keeps the progress it made.
 */
module Recorder {
  import opened Clock
  import opened RollupModel
  import opened RollupRuns
  import Catalog
  import opened Wrappers

  // ---- the systems a run talks to ------------------------------------------------

  /** A run's budget: once used up it stays used up. */
  class Context {
    var cancelled: bool
  }

  /** The log store. It may refuse any query, and time may run out meanwhile. */
  class Querier {
    /** What there is to count now; it changes between runs. */
    var logs: LogStore
    ghost var asked: seq<Query>
    /** The queries that were not answered. */
    ghost var refused: seq<Query>

    constructor (logs: LogStore)
      ensures this.logs == logs && asked == [] && refused == []
    {
      this.logs := logs;
      asked, refused := [], [];
    }

    method CategoryCounts(ctx: Context, q: Query) returns (r: Option<seq<Row>>)
      requires q.step > 0
      modifies this`asked, this`refused, ctx
      ensures asked == old(asked) + [q]
      ensures refused == if r.Some? then old(refused) else old(refused) + [q]
      ensures old(ctx.cancelled) ==> ctx.cancelled
      ensures r.Some? ==> Answers(logs, q, r.value)
    {
      asked := asked + [q];
      if * {
        ctx.cancelled := true;
      }
      if * {
        r := None;
        refused := refused + [q];
      } else {
        r := Some(AnswerRows(logs, q));
        AnswerRowsInside(logs, q);
      }
    }
  }

  lemma {:induction false} BucketRowsInside(logs: LogStore, c: Category, from: Time, start: Time, stop: Time, step: int)
    requires step > 0 && from <= start
    ensures Inside(BucketRows(logs, c, start, stop, step), from, stop) == BucketRows(logs, c, start, stop, step)
    decreases stop - start
  {
    if start < stop {
      BucketRowsInside(logs, c, from, start + step, stop, step);
      var first := if logs.active(start, step) then [Row(start, c.name, logs.count(c, start, step))] else [];
      InsideJoin(first, BucketRows(logs, c, start + step, stop, step), from, stop);
      assert Inside(first, from, stop) == first;
    }
  }

  lemma {:induction false} AnswerRowsInside(logs: LogStore, q: Query)
    requires q.step > 0
    ensures Inside(AnswerRows(logs, q), q.start, q.stop) == AnswerRows(logs, q)
    decreases |q.categories|
  {
    if q.categories != [] {
      var rest := q.(categories := q.categories[1..]);
      AnswerRowsInside(logs, rest);
      BucketRowsInside(logs, q.categories[0], q.start, q.start, q.stop, q.step);
      InsideJoin(BucketRows(logs, q.categories[0], q.start, q.stop, q.step), AnswerRows(logs, rest), q.start, q.stop);
    }
  }

  /** The metrics store. A failed write may have stored some of its samples. */
  class MetricStore {
    var samples: Samples
    /** Samples of the writes that were accepted, and how many writes within the limit failed. */
    ghost var accepted: nat
    ghost var faults: nat

    method Write(batch: seq<Sample>) returns (ok: bool, ghost applied: seq<Sample>)
      modifies this
      ensures samples == Overwrite(old(samples), applied)
      ensures forall s :: s in applied ==> s in batch
      ensures ok ==> applied == batch && |batch| <= MAX_SAMPLES_PER_WRITE
      ensures accepted == old(accepted) + if ok then |batch| else 0
      ensures faults == old(faults) + if ok || |batch| > MAX_SAMPLES_PER_WRITE then 0 else 1
    {
      ok := false;
      applied := [];
      if |batch| <= MAX_SAMPLES_PER_WRITE {
        if * {
          ok := true;
          applied := batch;
          samples := Overwrite(samples, batch);
          accepted := accepted + |batch|;
        } else {
          faults := faults + 1;
        }
      }
    }
  }

  /** Where progress is kept between runs, without fractions of a second. A failed save may still have been stored. */
  class Settings {
    var saved: State
    /** How many loads and saves failed. */
    ghost var faults: nat

    method LoadState() returns (r: Option<State>)
      modifies this`faults
      ensures r.Some? ==> r.value == saved
      ensures faults == old(faults) + if r.Some? then 0 else 1
    {
      if * {
        r := None;
        faults := faults + 1;
      } else {
        r := Some(saved);
      }
    }

    method SaveState(s: State) returns (ok: bool)
      modifies this
      ensures saved == RollupModel.Stored(s) || (!ok && saved == old(saved))
      ensures faults == old(faults) + if ok then 0 else 1
    {
      ok := false;
      if * {
        saved := RollupModel.Stored(s);
        ok := true;
      } else {
        faults := faults + 1;
      }
    }
  }

  // ---- one resolution ---------------------------------------------------------------

  /** How recording one resolution in one scope ended. */
  datatype Outcome = Done | OutOfTime | Refused(query: Query) | WriteFailed

  datatype Attempted = Written(stop: Time, n: nat) | Unanswered(query: Query) | Unwritten(n: nat)

  datatype Counted = Rows(rows: seq<Row>) | RefusedQuery(query: Query)

  ghost predicate Within(q: Query, lo: Time, hi: Time, step: int) {
    lo <= q.start < q.stop <= hi && q.step == step && |q.categories| > 0
  }

  /** Queries were only added, each within [lo, hi). */
  ghost predicate Asked(before: seq<Query>, after: seq<Query>, lo: Time, hi: Time, step: int) {
    before <= after && forall i :: |before| <= i < |after| ==> Within(after[i], lo, hi, step)
  }

  /** Each of the queries added asks for at most this span and this many categories. */
  ghost predicate Sized(before: seq<Query>, after: seq<Query>, span: int, chunk: int) {
    forall i :: |before| <= i < |after| ==> after[i].stop - after[i].start <= span && |after[i].categories| <= chunk
  }

  /** These sizes are no more than those the run began with. */
  ghost predicate AsksFor(size: Size, span: int, asking: int, chunk: int, total: nat, step: int) {
    asking <= size.buckets && span == size.buckets * step && 0 <= chunk <= size.chunk && (total > 0 ==> chunk >= 1)
  }

  lemma SizedOn(before: seq<Query>, mid: seq<Query>, after: seq<Query>, size: Size, span: int, part: int, asking: int, chunk: int,
                total: nat, step: int)
    requires before <= mid <= after && Sized(before, mid, span, size.chunk) && Sized(mid, after, part, ChunkOf(chunk, total))
    requires step > 0 && AsksFor(size, span, asking, chunk, total, step) && part <= asking * step
    ensures Sized(before, after, span, size.chunk)
  {
    SmallerSpan(asking, size.buckets, step);
  }

  lemma SmallerSpan(asking: int, most: int, step: int)
    requires step > 0 && asking <= most
    ensures asking * step <= most * step
  {
    assert (most - asking) * step >= 0;
  }

  /** At most so many categories at once; a number that is not positive means all. */
  function ChunkOf(chunkSize: int, total: nat): nat { if chunkSize <= 0 || chunkSize > total then total else chunkSize }

  lemma AskedOneMore(before: seq<Query>, mid: seq<Query>, q: Query, lo: Time, hi: Time, step: int)
    requires Asked(before, mid, lo, hi, step) && Within(q, lo, hi, step)
    ensures Asked(before, mid + [q], lo, hi, step) && LastAsked(mid + [q], q)
  {
  }

  lemma AskedMore(before: seq<Query>, mid: seq<Query>, after: seq<Query>, start: Time, stop: Time, lo: Time, hi: Time, step: int)
    requires Asked(before, mid, lo, hi, step) && Asked(mid, after, start, stop, step) && lo <= start && stop <= hi
    ensures Asked(before, after, lo, hi, step)
  {
  }

  ghost predicate LastAsked(asked: seq<Query>, q: Query) { |asked| > 0 && asked[|asked| - 1] == q }

  ghost predicate HeldBack(retryAfter: map<Window, Time>, w: Window, now: Time) { w in retryAfter && now < retryAfter[w] }

  /** What is held back at `now` stays held back. */
  ghost predicate StaysHeld(before: map<Window, Time>, after: map<Window, Time>, now: Time) {
    forall w :: HeldBack(before, w, now) ==> HeldBack(after, w, now)
  }

  lemma HoldingOneMore(start: map<Window, Time>, before: map<Window, Time>, after: map<Window, Time>, w: Window, now: Time)
    requires StaysHeld(start, before, now) && !HeldBack(before, w, now)
    requires forall v :: v != w ==> SameAt(before, after, v)
    ensures StaysHeld(start, after, now)
  {
    forall v | HeldBack(start, v, now) ensures HeldBack(after, v, now) {
      assert HeldBack(before, v, now);
      assert SameAt(before, after, v);
    }
  }

  ghost predicate HeldSame(before: map<Window, Time>, after: map<Window, Time>, now: Time) {
    forall w :: HeldBack(before, w, now) <==> HeldBack(after, w, now)
  }

  /** Every resolution that was not held back reached the last complete window. */
  ghost predicate AllCaughtUp(o: Options, held: map<Window, Time>, now: Time, before: State, after: State, steps: seq<int>) {
    forall step :: step in steps && step > 0 && !HeldBack(held, WindowName(step), now) ==> CaughtUp(o, now, before, after, step)
  }

  lemma CatchesUp(o: Options, logs: LogStore, held: map<Window, Time>, run: RunInput, before: Snapshot, mid: Snapshot,
                  steps: seq<int>, step: int, upto: Time)
    requires RunStep(o, logs, run, before, mid) && step in Resolutions(o) && step > 0
    requires forall s :: s in steps ==> s in Resolutions(o)
    requires AllCaughtUp(o, held, run.now, before.saved, mid.saved, steps)
    requires ReachedEnd(o, step, Get(mid.saved, WindowName(step)), run.now, upto)
    requires upto != ZERO ==> upto <= Truncate(run.now, step)
    requires upto != ZERO && Get(mid.saved, WindowName(step)) != ZERO ==> Get(mid.saved, WindowName(step)) < upto
    ensures AllCaughtUp(o, held, run.now, before.saved,
                        if upto != ZERO then mid.saved[WindowName(step) := upto] else mid.saved, steps + [step])
  {
    var after := if upto != ZERO then mid.saved[WindowName(step) := upto] else mid.saved;
    CaughtUpAfter(o, logs, run, before, mid, step, upto);
    forall s | s in steps + [step] && s > 0 && !HeldBack(held, WindowName(s), run.now)
      ensures CaughtUp(o, run.now, before.saved, after, s)
    {
      if s != step && WindowName(s) == WindowName(step) {
        WindowNamesOneStep(o, s, step);
      }
    }
  }

  /** Every query of a run is for one of its resolutions, within reach, and not for one held back. */
  ghost predicate AskedByRun(o: Options, held: map<Window, Time>, now: Time, before: seq<Query>, after: seq<Query>) {
    && before <= after
    && forall i :: |before| <= i < |after| ==>
         var q := after[i];
         q.step in Resolutions(o) && q.step > 0 && InReach(o, q.step, now, q) && !HeldBack(held, WindowName(q.step), now)
  }

  lemma AskedByRunMore(o: Options, held: map<Window, Time>, now: Time, before: seq<Query>, mid: seq<Query>, after: seq<Query>,
                       step: int)
    requires AskedByRun(o, held, now, before, mid)
    requires step in Resolutions(o) && step > 0 && !HeldBack(held, WindowName(step), now)
    requires InReachSince(o, step, now, mid, after)
    ensures AskedByRun(o, held, now, before, after)
  {
  }

  /** No query is for logs older than this. */
  ghost predicate NothingOlder(before: seq<Query>, after: seq<Query>, now: Time, age: int) {
    forall i :: |before| <= i < |after| ==> after[i].step > 0 && Truncate(now - age, after[i].step) <= after[i].start
  }

  lemma RunKeepsWithinAge(o: Options, held: map<Window, Time>, now: Time, before: seq<Query>, after: seq<Query>)
    requires AskedByRun(o, held, now, before, after) && o.maxAge > 0 && o.backfill >= 0
    ensures NothingOlder(before, after, now, o.maxAge)
  {
    forall i | |before| <= i < |after| ensures after[i].step > 0 && Truncate(now - o.maxAge, after[i].step) <= after[i].start {
      var q := after[i];
      TruncateMonotone(now - o.maxAge, now - Horizon(o, q.step), q.step);
    }
  }

  /** Neither a refused query nor another fault of the systems around. */
  ghost predicate NoFault(refused: seq<Query>, refused': seq<Query>, faults: nat, faults': nat) {
    refused' == refused && faults' == faults
  }

  /** Recording ends early exactly with a failed write, or with a query that was refused last. */
  ghost predicate Faulted(outcome: Outcome, refused: seq<Query>, refused': seq<Query>, faults: nat, faults': nat) {
    && refused <= refused' && faults' == faults + (if outcome == WriteFailed then 1 else 0)
    && (outcome == OutOfTime ==> refused < refused')
    && (outcome.Refused? ==> refused < refused' && LastAsked(refused', outcome.query))
  }

  /** A fault other than a refused query is a failure, and without any fault there is none. */
  ghost predicate FailedBy(failed: bool, refused: seq<Query>, refused': seq<Query>, faults: nat, faults': nat) {
    && refused <= refused' && faults <= faults'
    && (faults' > faults ==> failed)
    && (failed ==> !NoFault(refused, refused', faults, faults'))
  }

  /** What is newly held back is held for a quarter of its window, and only after a failure. */
  ghost predicate HeldOnlyAfterFailure(o: Options, before: map<Window, Time>, after: map<Window, Time>, now: Time, failed: bool) {
    forall w :: w in after ==>
      (w in before && after[w] == before[w]) || (failed && HeldForQuarter(o, w, now, after[w]))
  }

  ghost predicate HeldForQuarter(o: Options, w: Window, now: Time, until: Time) {
    exists step :: step in Resolutions(o) && WindowName(step) == w && until == now + step / 4
  }

  /** What was held back stays so, and more only after a failure. */
  ghost predicate Holding(o: Options, start: map<Window, Time>, held: map<Window, Time>, now: Time, failed: bool) {
    && StaysHeld(start, held, now) && (!failed ==> HeldSame(start, held, now))
    && HeldOnlyAfterFailure(o, start, held, now, failed)
  }

  lemma HoldsOn(o: Options, start: map<Window, Time>, before: map<Window, Time>, after: map<Window, Time>, now: Time,
                step: int, failed: bool, bad: bool)
    requires Holding(o, start, before, now, failed) && step in Resolutions(o) && !HeldBack(before, WindowName(step), now)
    requires forall v :: v != WindowName(step) ==> SameAt(before, after, v)
    requires WindowName(step) in after ==>
      if bad then after[WindowName(step)] == now + step / 4
      else WindowName(step) in before && after[WindowName(step)] == before[WindowName(step)]
    ensures Holding(o, start, after, now, failed || bad)
  {
    HoldingOneMore(start, before, after, WindowName(step), now);
    HoldsOnlyAfterFailure(o, start, before, after, now, step, failed, bad);
    if !failed && !bad {
      forall w ensures HeldBack(start, w, now) <==> HeldBack(after, w, now) {
        assert HeldBack(start, w, now) <==> HeldBack(before, w, now);
        assert w != WindowName(step) ==> SameAt(before, after, w);
      }
    }
  }

  lemma HoldsOnlyAfterFailure(o: Options, start: map<Window, Time>, before: map<Window, Time>, after: map<Window, Time>, now: Time,
                              step: int, failed: bool, bad: bool)
    requires HeldOnlyAfterFailure(o, start, before, now, failed) && step in Resolutions(o)
    requires forall v :: v != WindowName(step) ==> SameAt(before, after, v)
    requires WindowName(step) in after ==>
      if bad then after[WindowName(step)] == now + step / 4
      else WindowName(step) in before && after[WindowName(step)] == before[WindowName(step)]
    ensures HeldOnlyAfterFailure(o, start, after, now, failed || bad)
  {
    forall w | w in after
      ensures (w in start && after[w] == start[w]) || ((failed || bad) && HeldForQuarter(o, w, now, after[w]))
    {
      if w != WindowName(step) {
        assert SameAt(before, after, w);
      }
    }
  }

  /** The progress both passes have reached; a pass that made none holds the pair back. */
  function Earliest(a: Time, b: Time): Time {
    if a == ZERO || b == ZERO then ZERO else if b < a then b else a
  }

  /** A query stays between the oldest window still wanted and the last complete one. */
  ghost predicate InReach(o: Options, step: int, now: Time, q: Query)
    requires step > 0
  {
    q.stop <= Truncate(now, step) && (Horizon(o, step) > 0 ==> Truncate(now - Horizon(o, step), step) <= q.start)
  }

  ghost predicate InReachSince(o: Options, step: int, now: Time, before: seq<Query>, after: seq<Query>)
    requires step > 0
  {
    && before <= after
    && forall i :: |before| <= i < |after| ==> after[i].step == step && InReach(o, step, now, after[i])
  }

  /** Whatever there was to count was counted. */
  ghost predicate ReachedEnd(o: Options, step: int, from: Time, now: Time, upto: Time)
    requires step > 0
  {
    (from != ZERO || o.backfill > 0) && StartOf(o, step, from, now) < Truncate(now, step) ==> upto == Truncate(now, step)
  }

  /** The learned size of window w is unchanged or lowered to a positive number. */
  ghost predicate Learned(before: map<Window, int>, after: map<Window, int>, w: Window, bound: int) {
    after == before || (w in after && 1 <= after[w] <= bound && after == before[w := after[w]])
  }

  lemma {:induction false} OverwriteJoin(m: Samples, a: seq<Sample>, b: seq<Sample>)
    ensures Overwrite(Overwrite(m, a), b) == Overwrite(m, a + b)
    decreases |a|
  {
    if a == [] {
      assert a + b == b;
    } else {
      assert (a + b)[1..] == a[1..] + b;
      OverwriteJoin(m[a[0].key := a[0].value], a[1..], b);
    }
  }

  lemma {:induction false} SamplesOfJoin(a: seq<Row>, b: seq<Row>, scope: Scope, step: int)
    ensures SamplesOf(a + b, scope, step) == SamplesOf(a, scope, step) + SamplesOf(b, scope, step)
  {
    if a == [] {
      assert a + b == b;
    } else {
      assert (a + b)[1..] == a[1..] + b;
      SamplesOfJoin(a[1..], b, scope, step);
    }
  }

  lemma {:induction false} SamplesOfSize(rows: seq<Row>, scope: Scope, step: int)
    ensures |SamplesOf(rows, scope, step)| == 2 * |rows|
  {
    if rows != [] {
      SamplesOfSize(rows[1..], scope, step);
    }
  }

  /** The two samples of each row whose bucket starts inside the range. */
  method BuildSamples(rows: seq<Row>, start: Time, stop: Time, scope: Scope, step: int) returns (samples: seq<Sample>)
    ensures samples == SamplesOf(Inside(rows, start, stop), scope, step)
  {
    samples := [];
    var window := WindowName(step);
    for i := 0 to |rows|
      invariant samples == SamplesOf(Inside(rows[..i], start, stop), scope, step)
    {
      var row := rows[i];
      assert rows[..i + 1] == rows[..i] + [row];
      InsideJoin(rows[..i], [row], start, stop);
      assert Inside([row], start, stop) == if start <= row.at < stop then [row] else [];
      SamplesOfJoin(Inside(rows[..i], start, stop), Inside([row], start, stop), scope, step);
      if row.at < start || !(row.at < stop) {
        continue;
      }
      samples := samples + [
        Sample(Key(UniqueClients, row.category, window, scope, row.at), row.count.distinct),
        Sample(Key(Queries, row.category, window, scope, row.at), row.count.messages)];
      assert SamplesOf([row], scope, step) == RowSamples(row, scope, step);
    }
    assert rows[..|rows|] == rows;
  }

  /** Rows that answer a query make samples with the expected values, and all of them. */
  lemma AnswersMakeExpectedSamples(logs: LogStore, q: Query, rows: seq<Row>, scope: Scope, lo: Time, hi: Time)
    requires q.step > 0 && DistinctNames(q.categories) && Aligned(q.start, q.step)
    requires lo <= q.start && q.stop <= hi && Answers(logs, q, rows)
    ensures var batch := SamplesOf(Inside(rows, q.start, q.stop), scope, q.step);
      && AllExpected(logs, q.categories, scope, q.step, lo, hi, batch)
      && |batch| == 2 * |AnswerRows(logs, q)|
      && forall k: Key :: q.start <= k.at < q.stop && Expected(logs, q.categories, scope, q.step, k).Some? ==>
           Sample(k, Expected(logs, q.categories, scope, q.step, k).value) in batch
  {
    var inside := Inside(rows, q.start, q.stop);
    var batch := SamplesOf(inside, scope, q.step);
    SamplesOfSize(inside, scope, q.step);
    assert |inside| == |multiset(inside)| == |multiset(AnswerRows(logs, q))|;
    forall s | s in batch
      ensures lo <= s.key.at < hi && Expected(logs, q.categories, scope, q.step, s.key) == Some(s.value)
    {
      SamplesOfMember(inside, scope, q.step, s);
      var r :| r in inside && s in RowSamples(r, scope, q.step);
      assert r in multiset(inside);
      RowIsExpected(logs, q, scope, r, s);
    }
    forall k: Key | q.start <= k.at < q.stop && Expected(logs, q.categories, scope, q.step, k).Some?
      ensures Sample(k, Expected(logs, q.categories, scope, q.step, k).value) in batch
    {
      var r := ExpectedHasRow(logs, q, scope, k);
      assert r in multiset(inside);
      SamplesOfMember(inside, scope, q.step, Sample(k, Expected(logs, q.categories, scope, q.step, k).value));
    }
  }

  lemma LearnMore(before: map<Window, int>, mid: map<Window, int>, w: Window, bound: int, n: int)
    requires Learned(before, mid, w, bound) && 1 <= n <= bound
    ensures Learned(before, mid[w := n], w, bound)
  {
    assert before[w := n] == mid[w := n];
  }

  lemma AnswersJoin(logs: LogStore, a: seq<Category>, b: seq<Category>, both: seq<Category>, start: Time, stop: Time, step: int,
                    out: seq<Row>, rows: seq<Row>)
    requires step > 0 && both == a + b
    requires Answers(logs, Query(start, stop, a, step), out) && Answers(logs, Query(start, stop, b, step), rows)
    ensures Answers(logs, Query(start, stop, both, step), out + rows)
  {
    AnswerRowsJoin(logs, a, b, start, stop, step);
    InsideJoin(out, rows, start, stop);
  }

  /** The rows answer the query for the first n categories. */
  ghost predicate Joined(logs: LogStore, cats: seq<Category>, n: nat, start: Time, stop: Time, step: int, out: seq<Row>)
    requires step > 0 && n <= |cats|
  {
    Answers(logs, Query(start, stop, cats[..n], step), out)
  }

  lemma NoChunks(logs: LogStore, cats: seq<Category>, start: Time, stop: Time, step: int)
    requires step > 0
    ensures Joined(logs, cats, 0, start, stop, step, [])
  {
  }

  lemma AllChunks(logs: LogStore, cats: seq<Category>, start: Time, stop: Time, step: int, out: seq<Row>)
    requires step > 0 && Joined(logs, cats, |cats|, start, stop, step, out)
    ensures Answers(logs, Query(start, stop, cats, step), out)
  {
    assert cats[..|cats|] == cats;
  }

  lemma ChunkJoins(logs: LogStore, cats: seq<Category>, i: nat, next: nat, start: Time, stop: Time, step: int,
                   out: seq<Row>, rows: seq<Row>)
    requires step > 0 && i <= next <= |cats| && Joined(logs, cats, i, start, stop, step, out)
    requires Answers(logs, Query(start, stop, cats[i..next], step), rows)
    ensures Joined(logs, cats, next, start, stop, step, out + rows)
  {
    assert cats[..i] + cats[i..next] == cats[..next];
    AnswersJoin(logs, cats[..i], cats[i..next], cats[..next], start, stop, step, out, rows);
  }

  class Recorder {
    const opts: Options
    const querier: Querier
    const store: MetricStore
    const settings: Settings
    /** Resolutions that failed are held back until these times. */
    var retryAfter: map<Window, Time>
    /** Query sizes learned from what the log store could answer. */
    var buckets: map<Window, int>
    var chunks: map<Window, int>

    ghost predicate Valid() {
      opts.base > 0
    }

    /** A base resolution that is not positive becomes five minutes. */
    constructor (opts: Options, querier: Querier, store: MetricStore, settings: Settings)
      ensures Valid() && this.querier == querier && this.store == store && this.settings == settings
      ensures this.opts == if opts.base <= 0 then opts.(base := 5 * MINUTE) else opts
      ensures retryAfter == map[] && buckets == map[] && chunks == map[]
    {
      this.opts := if opts.base <= 0 then opts.(base := 5 * MINUTE) else opts;
      this.querier, this.store, this.settings := querier, store, settings;
      retryAfter, buckets, chunks := map[], map[], map[];
    }

    function BucketsPerQuery(step: int): (n: int)
      reads this
      requires step > 0
      ensures n >= 1
      // a size that was learned, or the largest one within both limits
      ensures var w := WindowName(step);
        if w in buckets && buckets[w] > 0 then n == buckets[w]
        else
          && n <= MAX_BUCKETS_PER_QUERY && (n > 1 ==> n * step <= MAX_QUERY_SPAN)
          && (n < MAX_BUCKETS_PER_QUERY ==> MAX_QUERY_SPAN < (n + 1) * step)
    {
      assert MAX_QUERY_SPAN / step * step <= MAX_QUERY_SPAN < (MAX_QUERY_SPAN / step + 1) * step;
      var w := WindowName(step);
      if w in buckets && buckets[w] > 0 then buckets[w]
      else
        var bySpan := MAX_QUERY_SPAN / step;
        var n := if bySpan < MAX_BUCKETS_PER_QUERY then bySpan else MAX_BUCKETS_PER_QUERY;
        if n < 1 then 1 else n
    }

    function CategoriesPerQuery(step: int, total: nat): (n: nat)
      reads this
      ensures n <= total && (total > 0 ==> n >= 1)
      ensures WindowName(step) !in chunks ==> n == total
      ensures WindowName(step) in chunks && 0 < chunks[WindowName(step)] <= total ==> n == chunks[WindowName(step)]
    {
      var w := WindowName(step);
      if w in chunks && 0 < chunks[w] < total then chunks[w] else total
    }

    /**
     Counts the categories in groups of at most `chunk`: the joined rows answer
     the one query that counts them all together.
     */
    method CountInChunks(ctx: Context, categories: seq<Category>, chunkSize: int, start: Time, stop: Time, step: int)
      returns (r: Counted)
      requires step > 0 && start < stop
      modifies querier`asked, querier`refused, ctx
      ensures old(ctx.cancelled) ==> ctx.cancelled
      ensures Asked(old(querier.asked), querier.asked, start, stop, step)
      ensures r.Rows? ==> Answers(querier.logs, Query(start, stop, categories, step), r.rows)
      ensures querier.refused == old(querier.refused) + if r.RefusedQuery? then [r.query] else []
      ensures r.RefusedQuery? ==>
        && r.query.start == start && r.query.stop == stop && r.query.step == step
        && 1 <= |r.query.categories| <= |categories| && (chunkSize >= 1 ==> |r.query.categories| <= chunkSize)
        && LastAsked(querier.asked, r.query)
      ensures Sized(old(querier.asked), querier.asked, stop - start, ChunkOf(chunkSize, |categories|))
    {
      var chunk := chunkSize;
      if chunk <= 0 || chunk > |categories| {
        chunk := |categories|;
      }
      var out: seq<Row> := [];
      var i := 0;
      ghost var logs := querier.logs;
      NoChunks(logs, categories, start, stop, step);
      while i < |categories|
        invariant 0 <= i <= |categories|
        invariant i < |categories| ==> chunk >= 1
        invariant old(ctx.cancelled) ==> ctx.cancelled
        invariant Asked(old(querier.asked), querier.asked, start, stop, step)
        invariant Joined(logs, categories, i, start, stop, step, out)
        invariant querier.refused == old(querier.refused)
        invariant Sized(old(querier.asked), querier.asked, stop - start, chunk) && chunk == ChunkOf(chunkSize, |categories|)
      {
        var next := if i + chunk < |categories| then i + chunk else |categories|;
        var joined := CountChunk(ctx, categories, i, next, start, stop, step, out, old(querier.asked), chunk);
        if joined.None? {
          return RefusedQuery(Query(start, stop, categories[i..next], step));
        }
        out := joined.value;
        i := next;
      }
      AllChunks(logs, categories, start, stop, step, out);
      return Rows(out);
    }

    /** Counts one group, and joins its rows to those of the groups before. */
    method CountChunk(ctx: Context, categories: seq<Category>, i: nat, next: nat, start: Time, stop: Time, step: int,
                      out: seq<Row>, ghost asked: seq<Query>, ghost chunk: int)
      returns (joined: Option<seq<Row>>)
      requires step > 0 && start < stop && i < next <= |categories| && next - i <= chunk
      requires Sized(asked, querier.asked, stop - start, chunk)
      requires Joined(querier.logs, categories, i, start, stop, step, out) && Asked(asked, querier.asked, start, stop, step)
      modifies querier`asked, querier`refused, ctx
      ensures old(ctx.cancelled) ==> ctx.cancelled
      ensures Asked(asked, querier.asked, start, stop, step)
      ensures LastAsked(querier.asked, Query(start, stop, categories[i..next], step))
      ensures Sized(asked, querier.asked, stop - start, chunk)
      ensures joined.Some? ==> Joined(querier.logs, categories, next, start, stop, step, joined.value)
      ensures querier.refused ==
        old(querier.refused) + if joined.Some? then [] else [Query(start, stop, categories[i..next], step)]
    {
      var q := Query(start, stop, categories[i..next], step);
      AskedOneMore(asked, querier.asked, q, start, stop, step);
      var rows := querier.CategoryCounts(ctx, q);
      if rows.None? {
        return None;
      }
      ChunkJoins(querier.logs, categories, i, next, start, stop, step, out, rows.value);
      return Some(out + rows.value);
    }

    /** Splits a write that is over the metrics store's limit. */
    method WriteAll(samples: seq<Sample>) returns (written: nat, ok: bool, ghost applied: seq<Sample>)
      modifies store
      ensures store.samples == Overwrite(old(store.samples), applied)
      ensures forall s :: s in applied ==> s in samples
      ensures ok ==> applied == samples && written == |samples|
      ensures !ok ==> written < |samples| && written <= |applied| && applied[..written] == samples[..written]
      ensures store.accepted == old(store.accepted) + written
      ensures store.faults == old(store.faults) + if ok then 0 else 1
    {
      var left := samples;
      written := 0;
      applied := [];
      while |left| > 0
        invariant samples == applied + left
        invariant written == |applied|
        invariant store.accepted == old(store.accepted) + written && store.faults == old(store.faults)
        invariant store.samples == Overwrite(old(store.samples), applied)
        decreases |left|
      {
        var n := if |left| < MAX_SAMPLES_PER_WRITE then |left| else MAX_SAMPLES_PER_WRITE;
        ghost var part;
        ok, part := store.Write(left[..n]);
        OverwriteJoin(old(store.samples), applied, part);
        if !ok {
          applied := applied + part;
          return;
        }
        applied := applied + part;
        written := written + n;
        left := left[n..];
      }
      ok := true;
      assert applied == samples;
    }

    /** Writes the samples of an answered query. */
    method WriteRows(rows: seq<Row>, q: Query, scope: Scope, ghost lo: Time, ghost end: Time, ghost before: Samples)
      returns (written: nat, ok: bool)
      requires q.step > 0 && DistinctNames(q.categories) && Aligned(q.start, q.step) && lo <= q.start && q.stop <= end
      requires Answers(querier.logs, q, rows)
      requires Progress(querier.logs, q.categories, scope, q.step, lo, end, q.start, before, store.samples)
      modifies store
      ensures Progress(querier.logs, q.categories, scope, q.step, lo, end, q.start, before, store.samples)
      ensures ok ==>
        && Progress(querier.logs, q.categories, scope, q.step, lo, end, q.stop, before, store.samples)
        && written == 2 * |AnswerRows(querier.logs, q)|
      ensures store.accepted == old(store.accepted) + written
      ensures store.faults == old(store.faults) + if ok then 0 else 1
    {
      var samples := BuildSamples(rows, q.start, q.stop, scope, q.step);
      ghost var logs := querier.logs;
      AnswersMakeExpectedSamples(logs, q, rows, scope, lo, end);
      ghost var was := store.samples;
      ghost var applied;
      written, ok, applied := WriteAll(samples);
      assert AllExpected(logs, q.categories, scope, q.step, lo, end, applied);
      OverwriteExpected(logs, q.categories, scope, q.step, lo, end, before, was, applied);
      CoveredStays(logs, q.categories, scope, q.step, lo, q.start, lo, end, was, store.samples);
      if ok {
        CoveredExtends(logs, q.categories, scope, q.step, lo, q.start, q.stop, samples, store.samples);
      }
    }

    /** Asks for half as much at once, and remembers it. */
    method Shrink(w: Window, asking: int, chunk: int, ghost buckets0: map<Window, int>, ghost chunks0: map<Window, int>,
                  ghost size: Size)
      returns (asking': int, chunk': int)
      requires 1 <= asking <= size.buckets && 0 <= chunk <= size.chunk
      requires Learned(buckets0, buckets, w, size.buckets) && Learned(chunks0, chunks, w, size.chunk)
      modifies this`buckets, this`chunks
      ensures Learned(buckets0, buckets, w, size.buckets) && Learned(chunks0, chunks, w, size.chunk)
      ensures Size(asking', chunk') == Halved(Size(asking, chunk))
      ensures 1 <= asking' <= asking && 0 <= chunk' <= chunk && (chunk >= 1 ==> chunk' >= 1)
      ensures buckets == if asking > 1 then old(buckets)[w := asking'] else old(buckets)
      ensures chunks == if chunk > 1 then old(chunks)[w := chunk'] else old(chunks)
    {
      asking', chunk' := asking, chunk;
      if asking > 1 {
        asking' := asking / 2;
        LearnMore(buckets0, buckets, w, size.buckets, asking');
        buckets := buckets[w := if asking' > 1 then asking' else 1];
      }
      if chunk > 1 {
        chunk' := (chunk + 1) / 2;
        LearnMore(chunks0, chunks, w, size.chunk, chunk');
        chunks := chunks[w := if chunk' > 1 then chunk' else 1];
      }
    }

    /** What to do about a refused query: stop when the run is out of time, shrink, or give up. Done means ask again. */
    method AskForLess(ctx: Context, w: Window, asking: int, chunk: int, shrinks: nat, query: Query, ghost end: Time,
                      ghost buckets0: map<Window, int>, ghost chunks0: map<Window, int>, ghost size: Size, ghost total: nat)
      returns (asking': int, chunk': int, outcome: Outcome)
      requires Sizes(size, asking, chunk, shrinks, total) && RefusedAt(query, end, asking, chunk, total)
      requires Learned(buckets0, buckets, w, size.buckets) && Learned(chunks0, chunks, w, size.chunk)
      modifies this`buckets, this`chunks
      ensures Learned(buckets0, buckets, w, size.buckets) && Learned(chunks0, chunks, w, size.chunk)
      ensures outcome == Done ==> shrinks < MAX_SHRINK_ATTEMPTS && Sizes(size, asking', chunk', shrinks + 1, total)
      ensures outcome == Done ==> asking > 1 || chunk > 1
      ensures outcome != Done ==> outcome == if ctx.cancelled then OutOfTime else Refused(query)
      ensures outcome.Refused? ==> RefusedSmall(size, query)
    {
      asking', chunk' := asking, chunk;
      if ctx.cancelled {
        outcome := OutOfTime;
      } else if (asking > 1 || chunk > 1) && shrinks < MAX_SHRINK_ATTEMPTS {
        asking', chunk' := Shrink(w, asking, chunk, buckets0, chunks0, size);
        outcome := Done;
      } else {
        RefusedAtFloor(size, shrinks, Size(asking, chunk), end, query);
        outcome := Refused(query);
      }
    }

    /** One query for the windows from `start` on, and the write of its samples. */
    method Attempt(ctx: Context, categories: seq<Category>, scope: Scope, step: int, start: Time, end: Time,
                   asking: int, chunk: int, ghost lo: Time, ghost before: Samples, ghost asked: seq<Query>, ghost size: Size,
                   ghost span: int)
      returns (r: Attempted)
      requires step > 0 && DistinctNames(categories) && lo <= start < end && Aligned(start, step) && Aligned(end, step)
      requires asking >= 1 && AsksFor(size, span, asking, chunk, |categories|, step)
      requires Asked(asked, querier.asked, lo, end, step) && Sized(asked, querier.asked, span, size.chunk)
      requires Progress(querier.logs, categories, scope, step, lo, end, start, before, store.samples)
      modifies querier`asked, querier`refused, store, ctx
      ensures Progress(querier.logs, categories, scope, step, lo, end, start, before, store.samples)
      ensures Asked(asked, querier.asked, lo, end, step) && Sized(asked, querier.asked, span, size.chunk)
      ensures old(ctx.cancelled) ==> ctx.cancelled
      ensures r.Unanswered? ==>
        RefusedAt(r.query, end, asking, chunk, |categories|) && LastAsked(querier.asked, r.query)
      ensures r.Written? ==>
        && r.stop == StopOf(start, end, asking, step) && start + step <= r.stop <= end && Aligned(r.stop, step)
        && Wrote(querier.logs, categories, start, r.stop, step, r.n)
        && Progress(querier.logs, categories, scope, step, lo, end, r.stop, before, store.samples)
      // only what did not answer or did not write stops it
      ensures querier.refused == old(querier.refused) + if r.Unanswered? then [r.query] else []
      ensures store.faults == old(store.faults) + if r.Unwritten? then 1 else 0
      ensures store.accepted == old(store.accepted) + if r.Unanswered? then 0 else r.n
    {
      var stop := start + step * asking;
      if stop > end {
        stop := end;
      }
      StopIsLater(start, end, asking, step);
      var counted := CountInChunks(ctx, categories, chunk, start, stop, step);
      AskedMore(asked, old(querier.asked), querier.asked, start, stop, lo, end, step);
      SizedOn(asked, old(querier.asked), querier.asked, size, span, stop - start, asking, chunk, |categories|, step);
      if counted.RefusedQuery? {
        return Unanswered(counted.query);
      }
      var n, ok := WriteRows(counted.rows, Query(start, stop, categories, step), scope, lo, end, before);
      return if ok then Written(stop, n) else Unwritten(n);
    }

    /** Records the windows in [lo, end), asking for less whenever a query is refused. */
    method RecordRange(ctx: Context, categories: seq<Category>, scope: Scope, step: int, lo: Time, end: Time)
      returns (written: nat, recorded: Time, outcome: Outcome)
      requires step > 0 && DistinctNames(categories) && lo < end && Aligned(lo, step) && Aligned(end, step)
      modifies this`buckets, this`chunks, querier`asked, querier`refused, store, ctx
      ensures OnlyExpected(querier.logs, categories, scope, step, lo, end, old(store.samples), store.samples)
      ensures recorded != ZERO ==>
        && Covered(querier.logs, categories, scope, step, lo, recorded, store.samples)
        && Aligned(recorded, step) && lo + step <= recorded <= end
      ensures outcome == Done ==> recorded == end && Wrote(querier.logs, categories, lo, end, step, written)
      ensures Asked(old(querier.asked), querier.asked, lo, end, step)
      ensures old(ctx.cancelled) ==> ctx.cancelled
      ensures outcome == OutOfTime ==> ctx.cancelled
      ensures outcome.Refused? ==>
        && !ctx.cancelled && LastAsked(querier.asked, outcome.query)
        && RefusedSmall(Size(old(BucketsPerQuery(step)), old(CategoriesPerQuery(step, |categories|))), outcome.query)
      ensures Faulted(outcome, old(querier.refused), querier.refused, old(store.faults), store.faults)
      ensures store.accepted == old(store.accepted) + written
      ensures Sized(old(querier.asked), querier.asked, old(BucketsPerQuery(step)) * step, old(CategoriesPerQuery(step, |categories|)))
      ensures Learned(old(buckets), buckets, WindowName(step), old(BucketsPerQuery(step)))
      ensures Learned(old(chunks), chunks, WindowName(step), old(CategoriesPerQuery(step, |categories|)))
    {
      written, recorded, outcome := 0, ZERO, Done;
      var w := WindowName(step);
      var asking := BucketsPerQuery(step);
      var chunk: int := CategoriesPerQuery(step, |categories|);
      var shrinks := 0;
      var start := lo;
      ghost var size := Size(asking, chunk);
      ghost var span := asking * step;
      ghost var logs := querier.logs;
      ghost var before := store.samples;
      NothingToCount(logs, categories, lo, step);
      while start < end
        invariant outcome == Done && lo <= start <= end && Aligned(start, step)
        invariant recorded == (if start == lo then ZERO else start) && (start != lo ==> start >= lo + step)
        invariant Sizes(size, asking, chunk, shrinks, |categories|)
        invariant Wrote(logs, categories, lo, start, step, written)
        invariant Progress(logs, categories, scope, step, lo, end, start, before, store.samples)
        invariant Asked(old(querier.asked), querier.asked, lo, end, step)
        invariant old(ctx.cancelled) ==> ctx.cancelled
        invariant Learned(old(buckets), buckets, w, size.buckets)
        invariant Learned(old(chunks), chunks, w, size.chunk)
        invariant old(querier.refused) <= querier.refused
        invariant Sized(old(querier.asked), querier.asked, span, size.chunk)
        invariant store.faults == old(store.faults) && store.accepted == old(store.accepted) + written
        decreases end - start, MAX_SHRINK_ATTEMPTS - shrinks
      {
        var r := Attempt(ctx, categories, scope, step, start, end, asking, chunk, lo, before, old(querier.asked), size, span);
        match r {
          case Unanswered(query) =>
            asking, chunk, outcome := AskForLess(ctx, w, asking, chunk, shrinks, query, end, old(buckets), old(chunks), size, |categories|);
            if outcome != Done {
              break;
            }
            shrinks := shrinks + 1;
            continue;
          case Unwritten(n) =>
            written := written + n;
            outcome := WriteFailed;
            break;
          case Written(stop, n) =>
            WroteMore(logs, categories, lo, start, stop, step, written, n);
            written := written + n;
            recorded := stop;
            start := stop;
        }
      }
    }

    /** Never reaches further back than asked for, or than the logs go. */
    method EffectiveStart(step: int, from: Time, now: Time) returns (lo: Time)
      requires step > 0 && !(from == ZERO && opts.backfill <= 0)
      ensures lo == StartOf(opts, step, from, now)
      ensures from != ZERO ==> from < lo + step
      ensures Horizon(opts, step) > 0 ==> Truncate(now - Horizon(opts, step), step) <= lo
    {
      lo := from;
      if lo == ZERO {
        lo := Truncate(now - opts.backfill, step);
      }
      lo := Truncate(lo, step);
      var horizon := Horizon(opts, step);
      if horizon > 0 {
        var oldest := Truncate(now - horizon, step);
        if lo < oldest {
          lo := oldest;
        }
      }
    }

    /**
     Records every complete window of one resolution between `from` and now in
     one scope, and reports the end of the last window recorded (ZERO when none).
     */
    method Record(ctx: Context, categories: seq<Category>, scope: Scope, step: int, from: Time, now: Time)
      returns (written: nat, recorded: Time, outcome: Outcome)
      requires Valid() && step > 0 && DistinctNames(categories)
      modifies this`buckets, this`chunks, querier`asked, querier`refused, store, ctx
      // what it leaves in the metrics store
      ensures OnlyExpected(querier.logs, categories, scope, step, StartOf(opts, step, from, now), Truncate(now, step),
                           old(store.samples), store.samples)
      ensures recorded != ZERO ==>
        Covered(querier.logs, categories, scope, step, StartOf(opts, step, from, now), recorded, store.samples)
      // how far it got
      ensures recorded != ZERO ==>
        && Aligned(recorded, step)
        && StartOf(opts, step, from, now) <= recorded <= Truncate(now, step)
        && (from != ZERO || opts.backfill > 0 ==> StartOf(opts, step, from, now) + step <= recorded)
        && (from != ZERO ==> from < recorded)
      ensures from == ZERO && opts.backfill <= 0 ==>
        outcome == Done && written == 0 && recorded == Truncate(now, step) - step && store.samples == old(store.samples)
      ensures outcome == Done && !(from == ZERO && opts.backfill <= 0) ==>
        var lo, hi := StartOf(opts, step, from, now), Truncate(now, step);
        if lo < hi then
          recorded == hi && written == 2 * |AnswerRows(querier.logs, Query(lo, hi, categories, step))|
        else
          recorded == ZERO && written == 0 && store.samples == old(store.samples)
      // what it asked for
      ensures Asked(old(querier.asked), querier.asked, StartOf(opts, step, from, now), Truncate(now, step), step)
      ensures InReachSince(opts, step, now, old(querier.asked), querier.asked)
      // when it gives up on a query
      ensures old(ctx.cancelled) ==> ctx.cancelled
      ensures outcome == OutOfTime ==> ctx.cancelled
      ensures outcome.Refused? ==>
        && !ctx.cancelled && LastAsked(querier.asked, outcome.query)
        && RefusedSmall(Size(old(BucketsPerQuery(step)), old(CategoriesPerQuery(step, |categories|))), outcome.query)
      ensures Faulted(outcome, old(querier.refused), querier.refused, old(store.faults), store.faults)
      ensures store.accepted == old(store.accepted) + written
      // no query asks for more at once than the sizes it began with
      ensures Sized(old(querier.asked), querier.asked, old(BucketsPerQuery(step)) * step, old(CategoriesPerQuery(step, |categories|)))
      // what it learned
      ensures Learned(old(buckets), buckets, WindowName(step), old(BucketsPerQuery(step)))
      ensures Learned(old(chunks), chunks, WindowName(step), old(CategoriesPerQuery(step, |categories|)))
    {
      var end := Truncate(now, step);
      if from == ZERO && opts.backfill <= 0 {
        return 0, end - step, Done;
      }
      var lo := EffectiveStart(step, from, now);
      if !(lo < end) {
        return 0, ZERO, Done;
      }
      written, recorded, outcome := RecordRange(ctx, categories, scope, step, lo, end);
    }

    /** Holds a failing resolution back for a quarter of its window. */
    method BackOff(w: Window, step: int, now: Time)
      modifies this`retryAfter
      ensures retryAfter == old(retryAfter)[w := now + step / 4]
    {
      retryAfter := retryAfter[w := now + step / 4];
    }

    /** Records one resolution in one scope, and leaves the other scope alone. */
    method RecordScope(ctx: Context, run: RunInput, scope: Scope, step: int, from: Time)
      returns (written: nat, upto: Time, outcome: Outcome)
      requires Valid() && step > 0 && DistinctNames(InScope(run, scope))
      modifies this`buckets, this`chunks, querier`asked, querier`refused, store, ctx
      ensures scope == All ==>
        RecordedPair(opts, querier.logs, run.(main := []), step, from, upto, old(store.samples), store.samples, store.samples)
      ensures scope == Main ==>
        RecordedPair(opts, querier.logs, run.(all := []), step, from, upto, old(store.samples), old(store.samples), store.samples)
      ensures outcome == Done ==> ReachedEnd(opts, step, from, run.now, upto)
      ensures InReachSince(opts, step, run.now, old(querier.asked), querier.asked)
      ensures Faulted(outcome, old(querier.refused), querier.refused, old(store.faults), store.faults)
      ensures store.accepted == old(store.accepted) + written
    {
      written, upto, outcome := Record(ctx, InScope(run, scope), scope, step, from, run.now);
      ScopeIsPair(opts, querier.logs, run, scope, step, from, upto, old(store.samples), store.samples);
    }

    /**
     Records one resolution in both scopes. A window counts as recorded once
     both scopes have covered it.
     */
    method RecordScopes(ctx: Context, run: RunInput, step: int, from: Time)
      returns (written: nat, upto: Time, outcome: Outcome, outcomeMain: Outcome, ghost between: Samples)
      requires Valid() && step > 0 && DistinctNames(run.all) && DistinctNames(run.main)
      modifies this`buckets, this`chunks, querier`asked, querier`refused, store, ctx
      ensures RecordedPair(opts, querier.logs, run, step, from, upto, old(store.samples), between, store.samples)
      ensures run.main == [] ==> outcomeMain == Done
      ensures outcome == Done && outcomeMain == Done ==> ReachedEnd(opts, step, from, run.now, upto)
      ensures InReachSince(opts, step, run.now, old(querier.asked), querier.asked)
      ensures FailedBy(outcome != Done || outcomeMain != Done, old(querier.refused), querier.refused, old(store.faults), store.faults)
      ensures store.accepted == old(store.accepted) + written
    {
      written, upto, outcome := RecordScope(ctx, run, All, step, from);
      outcomeMain := Done;
      between := store.samples;
      ghost var reached := upto;
      if |run.main| > 0 {
        var n, uptoMain;
        n, uptoMain, outcomeMain := RecordScope(ctx, run, Main, step, from);
        written := written + n;
        upto := Earliest(upto, uptoMain);
        BothReached(opts, querier.logs, run, step, from, reached, uptoMain, old(store.samples), between, store.samples);
      }
    }

    method RecordBoth(ctx: Context, run: RunInput, step: int, from: Time)
      returns (written: nat, upto: Time, failed: bool, ghost between: Samples)
      requires Valid() && step > 0 && DistinctNames(run.all) && DistinctNames(run.main)
      modifies this, querier`asked, querier`refused, store, ctx
      ensures RecordedPair(opts, querier.logs, run, step, from, upto, old(store.samples), between, store.samples)
      ensures InReachSince(opts, step, run.now, old(querier.asked), querier.asked)
      ensures !failed ==> ReachedEnd(opts, step, from, run.now, upto)
      ensures FailedBy(failed, old(querier.refused), querier.refused, old(store.faults), store.faults)
      ensures store.accepted == old(store.accepted) + written
      ensures if failed then retryAfter == old(retryAfter)[WindowName(step) := run.now + step / 4]
              else if run.main == [] then retryAfter == old(retryAfter) - {WindowName(step)}
              else retryAfter == old(retryAfter)
      ensures forall v :: v != WindowName(step) ==> SameAt(old(retryAfter), retryAfter, v)
    {
      var w := WindowName(step);
      var outcome, outcomeMain;
      written, upto, outcome, outcomeMain, between := RecordScopes(ctx, run, step, from);
      failed := outcome != Done || outcomeMain != Done;
      if outcomeMain != Done {
        BackOff(w, step, run.now);
      }
      if outcome != Done {
        BackOff(w, step, run.now);
      } else if |run.main| == 0 {
        retryAfter := retryAfter - {w};
      }
    }

    /** Records one resolution that is not held back, after those in `steps`. */
    method RecordNext(ctx: Context, run: RunInput, step: int, state: State, ghost before: Snapshot, ghost start: map<Window, Time>,
                      ghost asked: seq<Query>, ghost steps: seq<int>, ghost failed: bool)
      returns (written: nat, bad: bool, state': State, advanced: bool)
      requires Valid() && DistinctNames(run.all) && DistinctNames(run.main) && step in Resolutions(opts) && step > 0
      requires !HeldBack(retryAfter, WindowName(step), run.now) && Holding(opts, start, retryAfter, run.now, failed)
      requires RunStep(opts, querier.logs, run, before, Snapshot(state, store.samples))
      requires AskedByRun(opts, start, run.now, asked, querier.asked)
      requires forall s :: s in steps ==> s in Resolutions(opts)
      requires !failed ==> AllCaughtUp(opts, start, run.now, before.saved, state, steps)
      modifies this, querier`asked, querier`refused, store, ctx
      ensures RunStep(opts, querier.logs, run, before, Snapshot(state', store.samples))
      ensures !advanced ==> state' == state
      ensures AskedByRun(opts, start, run.now, asked, querier.asked)
      ensures Holding(opts, start, retryAfter, run.now, failed || bad)
      ensures !failed && !bad ==> AllCaughtUp(opts, start, run.now, before.saved, state', steps + [step])
      ensures FailedBy(bad, old(querier.refused), querier.refused, old(store.faults), store.faults)
      ensures store.accepted == old(store.accepted) + written
    {
      var w := WindowName(step);
      ghost var was, asked1, held := store.samples, querier.asked, retryAfter;
      var upto;
      ghost var between;
      if !failed {
        assert !HeldBack(start, w, run.now);
      }
      written, upto, bad, between := RecordBoth(ctx, run, step, Get(state, w));
      HoldsOn(opts, start, held, retryAfter, run.now, step, failed, bad);
      AskedByRunMore(opts, start, run.now, asked, asked1, querier.asked, step);
      RunExtends(opts, querier.logs, run, before, Snapshot(state, was), step, between, store.samples, upto);
      if !failed && !bad {
        CatchesUp(opts, querier.logs, start, run, before, Snapshot(state, was), steps, step, upto);
      }
      state', advanced := state, false;
      if upto != ZERO {
        state', advanced := state[w := upto], true;
      }
    }

    /** Records every resolution that is not held back, and returns the progress made. */
    method RecordResolutions(ctx: Context, run: RunInput, saved: State)
      returns (written: nat, failed: bool, state: State, advanced: bool)
      requires Valid() && DistinctNames(run.all) && DistinctNames(run.main)
      modifies this, querier`asked, querier`refused, store, ctx
      ensures RunStep(opts, querier.logs, run, Snapshot(saved, old(store.samples)), Snapshot(state, store.samples))
      ensures !advanced ==> state == saved
      ensures !failed ==> AllCaughtUp(opts, old(retryAfter), run.now, saved, state, Resolutions(opts))
      ensures AskedByRun(opts, old(retryAfter), run.now, old(querier.asked), querier.asked)
      ensures FailedBy(failed, old(querier.refused), querier.refused, old(store.faults), store.faults)
      ensures store.accepted == old(store.accepted) + written
      ensures HeldOnlyAfterFailure(opts, old(retryAfter), retryAfter, run.now, failed)
    {
      written, failed, state, advanced := 0, false, saved, false;
      var steps := Resolutions(opts);
      ghost var before := Snapshot(saved, store.samples);
      for i := 0 to |steps|
        invariant RunStep(opts, querier.logs, run, before, Snapshot(state, store.samples))
        invariant !advanced ==> state == saved
        invariant AskedByRun(opts, old(retryAfter), run.now, old(querier.asked), querier.asked)
        invariant Holding(opts, old(retryAfter), retryAfter, run.now, failed)
        invariant !failed ==> AllCaughtUp(opts, old(retryAfter), run.now, saved, state, steps[..i])
        invariant FailedBy(failed, old(querier.refused), querier.refused, old(store.faults), store.faults)
        invariant store.accepted == old(store.accepted) + written
      {
        var step := steps[i];
        var w := WindowName(step);
        assert step in steps;
        assert steps[..i + 1] == steps[..i] + [step];
        if w in retryAfter && run.now < retryAfter[w] {
          continue;
        }
        var n, bad, moved;
        n, bad, state, moved := RecordNext(ctx, run, step, state, before, old(retryAfter), old(querier.asked), steps[..i], failed);
        written := written + n;
        failed, advanced := failed || bad, advanced || moved;
      }
      assert steps[..|steps|] == steps;
    }

    /**
     Records every complete window not recorded yet, for every resolution, and
     keeps the progress even when a later window failed. The progress made is what
     a later run finds, less fractions of a second, unless it could not be saved.
     */
    method Run(ctx: Context, stored: CatalogSetting, builtin: seq<Catalog.Service>, now: Time)
      returns (written: nat, failed: bool, ghost progress: State)
      requires Valid() && Catalog.Valid(builtin)
      modifies this, querier`asked, querier`refused, store, settings, ctx
      ensures var c := CatalogOf(stored, builtin);
        && (c.None? || Catalog.Categories(c.value) == [] ==>
              settings.saved == old(settings.saved) && store.samples == old(store.samples) && querier.asked == old(querier.asked))
        && (c.None? ==> failed)
      ensures var c := CatalogOf(stored, builtin);
        c.Some? ==>
          RunStep(opts, querier.logs, RunInput(Catalog.Categories(c.value), Catalog.MainCategories(c.value), now),
                  Snapshot(old(settings.saved), old(store.samples)), Snapshot(progress, store.samples))
      ensures settings.saved == Stored(progress) || settings.saved == old(settings.saved)
      ensures !failed && progress != old(settings.saved) ==> settings.saved == Stored(progress)
      ensures var c := CatalogOf(stored, builtin);
        c.Some? && Catalog.Categories(c.value) != [] && !failed ==>
          AllCaughtUp(opts, old(retryAfter), now, old(settings.saved), progress, Resolutions(opts))
      ensures AskedByRun(opts, old(retryAfter), now, old(querier.asked), querier.asked)
      ensures opts.maxAge > 0 && opts.backfill >= 0 ==> NothingOlder(old(querier.asked), querier.asked, now, opts.maxAge)
      // it fails when there is no catalog, a write, load or save failed, or a query was refused; and for nothing else
      ensures CatalogOf(stored, builtin).Some? ==>
        FailedBy(failed, old(querier.refused), querier.refused, old(store.faults + settings.faults), store.faults + settings.faults)
      ensures HeldOnlyAfterFailure(opts, old(retryAfter), retryAfter, now, failed)
      ensures store.accepted == old(store.accepted) + written
      // so without such a fault everything is caught up, and saved
      ensures var c := CatalogOf(stored, builtin);
        && c.Some? && Catalog.Categories(c.value) != []
        && NoFault(old(querier.refused), querier.refused, old(store.faults + settings.faults), store.faults + settings.faults) ==>
          && !failed && (progress != old(settings.saved) ==> settings.saved == Stored(progress))
          && AllCaughtUp(opts, old(retryAfter), now, old(settings.saved), progress, Resolutions(opts))
    {
      var catalog := LoadCatalog(stored, builtin);
      progress := settings.saved;
      if catalog.None? {
        return 0, true, progress;
      }
      written, failed, progress := RunCatalog(ctx, catalog.value, now);
      if opts.maxAge > 0 && opts.backfill >= 0 {
        RunKeepsWithinAge(opts, old(retryAfter), now, old(querier.asked), querier.asked);
      }
    }

    method RunCatalog(ctx: Context, services: seq<Catalog.Service>, now: Time)
      returns (written: nat, failed: bool, ghost progress: State)
      requires Valid() && Catalog.Valid(services)
      modifies this, querier`asked, querier`refused, store, settings, ctx
      ensures Catalog.Categories(services) == [] ==>
        settings.saved == old(settings.saved) && store.samples == old(store.samples) && querier.asked == old(querier.asked)
      ensures RunStep(opts, querier.logs, RunInput(Catalog.Categories(services), Catalog.MainCategories(services), now),
                      Snapshot(old(settings.saved), old(store.samples)), Snapshot(progress, store.samples))
      ensures settings.saved == Stored(progress) || settings.saved == old(settings.saved)
      ensures !failed && progress != old(settings.saved) ==> settings.saved == Stored(progress)
      ensures Catalog.Categories(services) != [] && !failed ==>
        AllCaughtUp(opts, old(retryAfter), now, old(settings.saved), progress, Resolutions(opts))
      ensures AskedByRun(opts, old(retryAfter), now, old(querier.asked), querier.asked)
      ensures FailedBy(failed, old(querier.refused), querier.refused, old(store.faults + settings.faults), store.faults + settings.faults)
      ensures HeldOnlyAfterFailure(opts, old(retryAfter), retryAfter, now, failed)
      ensures store.accepted == old(store.accepted) + written
    {
      progress := settings.saved;
      var all := Catalog.ComputeCategories(services);
      if |all| == 0 {
        return 0, false, progress;
      }
      var loaded := settings.LoadState();
      if loaded.None? {
        return 0, true, progress;
      }
      var main := Catalog.ComputeMainCategories(services);
      Catalog.ValidCatalogHasDistinctCategories(services);
      var run := RunInput(all, main, now);
      var state, advanced;
      written, failed, state, advanced := RecordResolutions(ctx, run, loaded.value);
      progress := state;
      if advanced {
        var ok := settings.SaveState(state);
        failed := failed || !ok;
      }
    }
  }

  /** What the settings hold for the catalog. */
  datatype CatalogSetting = Missing | Unreadable | Found(services: seq<Catalog.Service>)

  /** The catalog a run uses: the built-in one when none is stored, none when the stored one is not valid. */
  ghost function CatalogOf(stored: CatalogSetting, builtin: seq<Catalog.Service>): Option<seq<Catalog.Service>> {
    match stored
    case Missing => Some(builtin)
    case Unreadable => None
    case Found(services) => if Catalog.Valid(services) then Some(services) else None
  }

  method LoadCatalog(stored: CatalogSetting, builtin: seq<Catalog.Service>) returns (r: Option<seq<Catalog.Service>>)
    ensures r == CatalogOf(stored, builtin)
    ensures stored.Missing? ==> r == Some(builtin)
    ensures stored.Found? && Catalog.Valid(stored.services) ==> r == Some(stored.services)
    ensures r.None? <==> stored.Unreadable? || (stored.Found? && !Catalog.Valid(stored.services))
    ensures Catalog.Valid(builtin) && r.Some? ==> Catalog.Valid(r.value)
  {
    match stored {
      case Missing => return Some(builtin);
      case Unreadable => return None;
      case Found(services) =>
        var problems := Catalog.Validate(services);
        return if problems == [] then Some(services) else None;
    }
  }

  /** Up to `start` every window is covered, and nothing else was touched. */
  ghost predicate Progress(logs: LogStore, cats: seq<Category>, scope: Scope, step: int, lo: Time, end: Time, start: Time,
                           before: Samples, now: Samples)
    requires step > 0
  {
    OnlyExpected(logs, cats, scope, step, lo, end, before, now) && Covered(logs, cats, scope, step, lo, start, now)
  }

  /** A query refused for good was for one window of one service, unless the run began with an enormous size. */
  ghost predicate RefusedSmall(size: Size, q: Query) {
    size.buckets < 8192 && size.chunk <= 4096 ==> q.stop == q.start + q.step && |q.categories| == 1
  }

  /** Two samples were written for every row of the range. */
  ghost predicate Wrote(logs: LogStore, cats: seq<Category>, lo: Time, hi: Time, step: int, n: nat)
    requires step > 0
  {
    n == 2 * |AnswerRows(logs, Query(lo, hi, cats, step))|
  }

  lemma WroteMore(logs: LogStore, cats: seq<Category>, lo: Time, mid: Time, hi: Time, step: int, n: nat, more: nat)
    requires step > 0 && lo <= mid <= hi && Aligned(lo, step) && Aligned(mid, step)
    requires Wrote(logs, cats, lo, mid, step, n) && Wrote(logs, cats, mid, hi, step, more)
    ensures Wrote(logs, cats, lo, hi, step, n + more)
  {
    AnswerRowsSplit(logs, cats, lo, mid, hi, step);
  }

  /** A query asked at these sizes. */
  ghost predicate RefusedAt(q: Query, end: Time, asking: int, chunk: int, total: nat) {
    && q.step > 0 && q.start < end && Aligned(q.start, q.step) && Aligned(end, q.step)
    && q.stop == StopOf(q.start, end, asking, q.step)
    && 1 <= |q.categories| <= total && (chunk >= 1 ==> |q.categories| <= chunk)
  }

  /** Where a query that asks for so many windows ends. */
  function StopOf(start: Time, end: Time, buckets: int, step: int): Time {
    if start + step * buckets > end then end else start + step * buckets
  }

  /** The sizes in use are those the run began with, halved once per refusal. */
  ghost predicate Sizes(size: Size, asking: int, chunk: int, shrinks: nat, total: nat) {
    && shrinks <= MAX_SHRINK_ATTEMPTS && Size(asking, chunk) == Shrunk(size, shrinks)
    && 1 <= asking <= size.buckets && 0 <= chunk <= size.chunk && (total > 0 ==> chunk >= 1)
  }

  /** A query covers at least one window, and ends on a window boundary. */
  lemma StopIsLater(start: Time, end: Time, buckets: int, step: int)
    requires step > 0 && buckets >= 1 && start < end && Aligned(start, step) && Aligned(end, step)
    ensures var stop := StopOf(start, end, buckets, step);
      && start + step <= stop <= end && Aligned(stop, step) && (buckets == 1 ==> stop == start + step)
      && stop - start <= buckets * step
  {
    AlignedGap(start, end, step);
    AlignedAdd(start, buckets, step);
    Scaled(buckets, step);
    assert step * buckets == buckets * step;
  }

  lemma NothingToCount(logs: LogStore, cats: seq<Category>, at: Time, step: int)
    requires step > 0 && Aligned(at, step)
    ensures |AnswerRows(logs, Query(at, at, cats, step))| == 0
  {
    AnswerRowsSplit(logs, cats, at, at, at, step);
  }

  lemma RefusedAtFloor(size: Size, shrinks: nat, now: Size, end: Time, q: Query)
    requires size.buckets >= 1 && size.chunk >= 1 && now.buckets >= 1 && now == Shrunk(size, shrinks)
    requires shrinks <= MAX_SHRINK_ATTEMPTS && !((now.buckets > 1 || now.chunk > 1) && shrinks < MAX_SHRINK_ATTEMPTS)
    requires q.step > 0 && q.start < end && Aligned(q.start, q.step) && Aligned(end, q.step)
    requires q.stop == StopOf(q.start, end, now.buckets, q.step)
    requires 1 <= |q.categories| <= now.chunk
    ensures RefusedSmall(size, q)
  {
    ShrinkBudgetReachesFloor(size);
    StopIsLater(q.start, end, now.buckets, q.step);
  }

  /** Writing the main scope's samples keeps the full scope covered. */
  lemma CoveredStaysAcross(logs: LogStore, run: RunInput, step: int, lo: Time, hi: Time, a: Time, b: Time, m: Samples, m': Samples)
    requires step > 0 && Covered(logs, run.all, All, step, lo, hi, m)
    requires OnlyExpected(logs, run.main, Main, step, a, b, m, m')
    ensures Covered(logs, run.all, All, step, lo, hi, m')
  {
  }

  /** How far recording one scope got. */
  ghost predicate Reached(o: Options, run: RunInput, step: int, from: Time, upto: Time)
    requires step > 0
  {
    var lo := StartOf(o, step, from, run.now);
    && Aligned(upto, step) && lo <= upto <= Truncate(run.now, step)
    && (from != ZERO || o.backfill > 0 ==> lo + step <= upto) && (from != ZERO ==> from < upto)
  }

  /** Recording one scope is recording both when the other is empty. */
  lemma ScopeIsPair(o: Options, logs: LogStore, run: RunInput, scope: Scope, step: int, from: Time, upto: Time,
                    m0: Samples, m1: Samples)
    requires step > 0
    requires OnlyExpected(logs, InScope(run, scope), scope, step, StartOf(o, step, from, run.now), Truncate(run.now, step), m0, m1)
    requires upto != ZERO ==>
      && Reached(o, run, step, from, upto)
      && Covered(logs, InScope(run, scope), scope, step, StartOf(o, step, from, run.now), upto, m1)
    ensures scope == All ==> RecordedPair(o, logs, run.(main := []), step, from, upto, m0, m1, m1)
    ensures scope == Main ==> RecordedPair(o, logs, run.(all := []), step, from, upto, m0, m0, m1)
  {
    var alone := if scope == All then run.(main := []) else run.(all := []);
    if upto != ZERO {
      forall other ensures Covered(logs, InScope(alone, other), other, step, StartOf(o, step, from, run.now), upto, m1) {
        if other != scope {
          assert InScope(alone, other) == [];
        }
      }
    }
  }

  lemma BothReached(o: Options, logs: LogStore, run: RunInput, step: int, from: Time, reached: Time, reachedMain: Time,
                    m0: Samples, m1: Samples, m2: Samples)
    requires step > 0
    requires RecordedPair(o, logs, run.(main := []), step, from, reached, m0, m1, m1)
    requires RecordedPair(o, logs, run.(all := []), step, from, reachedMain, m1, m1, m2)
    ensures RecordedPair(o, logs, run, step, from, Earliest(reached, reachedMain), m0, m1, m2)
  {
    var upto := Earliest(reached, reachedMain);
    if upto != ZERO {
      var lo, hi := StartOf(o, step, from, run.now), Truncate(run.now, step);
      assert Covered(logs, InScope(run.(main := []), All), All, step, lo, reached, m1);
      assert Covered(logs, InScope(run.(all := []), Main), Main, step, lo, reachedMain, m2);
      CoveredStaysAcross(logs, run, step, lo, reached, lo, hi, m1, m2);
    }
  }

  lemma CoveredExtends(logs: LogStore, cats: seq<Category>, scope: Scope, step: int, lo: Time, start: Time, stop: Time,
                       batch: seq<Sample>, m: Samples)
    requires step > 0 && Covered(logs, cats, scope, step, lo, start, m)
    requires forall k: Key :: start <= k.at < stop && Expected(logs, cats, scope, step, k).Some? ==>
      Sample(k, Expected(logs, cats, scope, step, k).value) in batch
    requires forall s :: s in batch ==> s.key in m && m[s.key] == s.value
    ensures Covered(logs, cats, scope, step, lo, stop, m)
  {
    forall k: Key | lo <= k.at < stop && Expected(logs, cats, scope, step, k).Some?
      ensures k in m && m[k] == Expected(logs, cats, scope, step, k).value
    {
      if start <= k.at {
        assert Sample(k, Expected(logs, cats, scope, step, k).value) in batch;
      }
    }
  }
}
