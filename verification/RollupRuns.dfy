/**
 What every sequence of rollup runs keeps, whatever fails in between.
 */
module RollupRuns {
  import opened Clock
  import opened RollupModel
  import opened Wrappers

  datatype Snapshot = Snapshot(saved: State, samples: Samples)

  /** The categories a run counted in each scope, and its clock. */
  datatype RunInput = RunInput(all: seq<Category>, main: seq<Category>, now: Time)

  function InScope(run: RunInput, scope: Scope): seq<Category> {
    if scope == All then run.all else run.main
  }

  /** Both scopes cover the resolution's windows from `lo` to `hi`. */
  ghost predicate BothCovered(logs: LogStore, run: RunInput, step: int, lo: Time, hi: Time, m: Samples)
    requires step > 0
  {
    forall scope :: Covered(logs, InScope(run, scope), scope, step, lo, hi, m)
  }

  /** The saved progress of one resolution moved forward, and the windows it passed are in the store. */
  ghost predicate Advanced(o: Options, logs: LogStore, run: RunInput, step: int, before: State, after: Snapshot)
    requires step > 0
  {
    var w := WindowName(step);
    && w in after.saved
    && after.saved[w] != ZERO && Aligned(after.saved[w], step)
    && (Get(before, w) != ZERO ==> Get(before, w) < after.saved[w])
    && StartOf(o, step, Get(before, w), run.now) <= after.saved[w] <= Truncate(run.now, step)
    && BothCovered(logs, run, step, StartOf(o, step, Get(before, w), run.now), after.saved[w], after.samples)
  }

  /** A sample that a run may have written, with the value it must have. */
  ghost predicate MayWrite(o: Options, logs: LogStore, run: RunInput, step: int, before: State, k: Key, v: nat)
    requires step > 0
  {
    && k.window == WindowName(step)
    && StartOf(o, step, Get(before, k.window), run.now) <= k.at < Truncate(run.now, step)
    && Expected(logs, InScope(run, k.scope), k.scope, step, k) == Some(v)
  }

  ghost predicate SameAt<K, V>(a: map<K, V>, b: map<K, V>, k: K) {
    (k in a <==> k in b) && (k in a && k in b ==> a[k] == b[k])
  }

  /** What one run does to the saved progress and to the metrics store. */
  ghost predicate RunStep(o: Options, logs: LogStore, run: RunInput, before: Snapshot, after: Snapshot) {
    && o.base > 0
    && (forall w :: !SameAt(before.saved, after.saved, w) ==>
          exists step :: step in Resolutions(o) && step > 0 && WindowName(step) == w
                      && Advanced(o, logs, run, step, before.saved, after))
    && (forall k :: !SameAt(before.samples, after.samples, k) ==>
          k in after.samples
          && exists step :: step in Resolutions(o) && step > 0
                         && MayWrite(o, logs, run, step, before.saved, k, after.samples[k]))
  }

  /** Recording one resolution in both scopes, as part of a run. */
  ghost predicate RecordedPair(o: Options, logs: LogStore, run: RunInput, step: int, from: Time, upto: Time,
                               m0: Samples, m1: Samples, m2: Samples)
    requires step > 0
  {
    var lo, hi := StartOf(o, step, from, run.now), Truncate(run.now, step);
    && OnlyExpected(logs, run.all, All, step, lo, hi, m0, m1)
    && OnlyExpected(logs, run.main, Main, step, lo, hi, m1, m2)
    && (upto != ZERO ==>
          && Aligned(upto, step) && lo <= upto <= hi
          && (from != ZERO || o.backfill > 0 ==> lo + step <= upto)
          && (from != ZERO ==> from < upto)
          && BothCovered(logs, run, step, lo, upto, m2))
  }

  /** A later start within the same run neither goes back nor leaves a gap. */
  lemma StartAfterProgress(o: Options, step: int, from: Time, reached: Time, now: Time, upto: Time)
    requires step > 0 && reached != ZERO && Aligned(reached, step)
    requires StartOf(o, step, from, now) <= reached <= Truncate(now, step)
    ensures StartOf(o, step, from, now) <= StartOf(o, step, reached, now)
    ensures upto <= Truncate(now, step) && StartOf(o, step, reached, now) + step <= upto ==>
      StartOf(o, step, reached, now) <= reached
  {
    TruncateUnique(reached, reached, step);
    var h := Horizon(o, step);
    if h > 0 && reached < Truncate(now - h, step) {
      AlignedGap(reached, Truncate(now - h, step), step);
    }
  }

  lemma CoveredJoins(logs: LogStore, run: RunInput, step: int, lo: Time, mid: Time, from: Time, hi: Time, m: Samples)
    requires step > 0 && from <= mid
    requires BothCovered(logs, run, step, lo, mid, m) && BothCovered(logs, run, step, from, hi, m)
    ensures BothCovered(logs, run, step, lo, hi, m)
  {
    forall scope ensures Covered(logs, InScope(run, scope), scope, step, lo, hi, m) {
      assert Covered(logs, InScope(run, scope), scope, step, lo, mid, m);
      assert Covered(logs, InScope(run, scope), scope, step, from, hi, m);
    }
  }

  /** Recording one resolution changes only its own series. */
  lemma PairChangesOnlyItsSeries(o: Options, logs: LogStore, run: RunInput, step: int, from: Time, upto: Time,
                                 m0: Samples, m1: Samples, m2: Samples, k: Key)
    requires step > 0 && RecordedPair(o, logs, run, step, from, upto, m0, m1, m2)
    requires !SameAt(m0, m2, k)
    ensures k in m2 && k.window == WindowName(step)
    ensures StartOf(o, step, from, run.now) <= k.at < Truncate(run.now, step)
    ensures Expected(logs, InScope(run, k.scope), k.scope, step, k) == Some(m2[k])
  {
    if !SameAt(m1, m2, k) {
      assert k in m2;
    } else {
      assert !SameAt(m0, m1, k);
      assert k in m1;
    }
  }

  lemma PairKeepsCovered(o: Options, logs: LogStore, run: RunInput, step: int, from: Time, upto: Time,
                         m0: Samples, m1: Samples, m2: Samples, s: int, lo: Time, hi: Time)
    requires step > 0 && s > 0 && RecordedPair(o, logs, run, step, from, upto, m0, m1, m2)
    requires s == step || WindowName(s) != WindowName(step)
    requires BothCovered(logs, run, s, lo, hi, m0)
    ensures BothCovered(logs, run, s, lo, hi, m2)
  {
    forall scope ensures Covered(logs, InScope(run, scope), scope, s, lo, hi, m2) {
      assert Covered(logs, InScope(run, scope), scope, s, lo, hi, m0);
      forall k: Key | lo <= k.at < hi && Expected(logs, InScope(run, scope), scope, s, k).Some?
        ensures k in m2 && m2[k] == Expected(logs, InScope(run, scope), scope, s, k).value
      {
        assert k in m0;
        if !SameAt(m0, m2, k) {
          PairChangesOnlyItsSeries(o, logs, run, step, from, upto, m0, m1, m2, k);
        }
      }
    }
  }

  /** The resolutions of a run compose: recording one more keeps what the run has done so far. */
  lemma RunExtends(o: Options, logs: LogStore, run: RunInput, before: Snapshot, mid: Snapshot, step: int,
                   m1: Samples, m2: Samples, upto: Time)
    requires RunStep(o, logs, run, before, mid) && step in Resolutions(o) && step > 0
    requires RecordedPair(o, logs, run, step, Get(mid.saved, WindowName(step)), upto, mid.samples, m1, m2)
    ensures RunStep(o, logs, run, before,
              Snapshot(if upto != ZERO then mid.saved[WindowName(step) := upto] else mid.saved, m2))
  {
    var w := WindowName(step);
    var from := Get(mid.saved, w);
    var after := Snapshot(if upto != ZERO then mid.saved[w := upto] else mid.saved, m2);
    ProgressOfWindow(o, logs, run, before, mid, step);
    forall v | !SameAt(before.saved, after.saved, v)
      ensures exists s :: s in Resolutions(o) && s > 0 && WindowName(s) == v && Advanced(o, logs, run, s, before.saved, after)
    {
      if v == w && upto != ZERO {
        WindowAdvances(o, logs, run, before, mid, step, m1, m2, upto);
        assert Advanced(o, logs, run, step, before.saved, after);
      } else {
        assert !SameAt(before.saved, mid.saved, v);
        var s :| s in Resolutions(o) && s > 0 && WindowName(s) == v && Advanced(o, logs, run, s, before.saved, mid);
        if v == w {
          WindowNamesOneStep(o, s, step);
        }
        PairKeepsCovered(o, logs, run, step, from, upto, mid.samples, m1, m2, s,
                         StartOf(o, s, Get(before.saved, v), run.now), mid.saved[v]);
        assert Advanced(o, logs, run, s, before.saved, after);
      }
    }
    forall k | !SameAt(before.samples, m2, k)
      ensures k in m2 && exists s :: s in Resolutions(o) && s > 0 && MayWrite(o, logs, run, s, before.saved, k, m2[k])
    {
      if SameAt(mid.samples, m2, k) {
        assert !SameAt(before.samples, mid.samples, k);
        var s :| s in Resolutions(o) && s > 0 && MayWrite(o, logs, run, s, before.saved, k, mid.samples[k]);
        assert MayWrite(o, logs, run, s, before.saved, k, m2[k]);
      } else {
        PairChangesOnlyItsSeries(o, logs, run, step, from, upto, mid.samples, m1, m2, k);
        assert MayWrite(o, logs, run, step, before.saved, k, m2[k]);
      }
    }
  }

  /** Within a run, a resolution's progress is what the run began with or what it advanced to. */
  lemma ProgressOfWindow(o: Options, logs: LogStore, run: RunInput, before: Snapshot, mid: Snapshot, step: int)
    requires RunStep(o, logs, run, before, mid) && step in Resolutions(o) && step > 0
    ensures var w := WindowName(step);
      && (SameAt(before.saved, mid.saved, w) || Advanced(o, logs, run, step, before.saved, mid))
      && StartOf(o, step, Get(before.saved, w), run.now) <= StartOf(o, step, Get(mid.saved, w), run.now)
  {
    var w := WindowName(step);
    if !SameAt(before.saved, mid.saved, w) {
      var s :| s in Resolutions(o) && s > 0 && WindowName(s) == w && Advanced(o, logs, run, s, before.saved, mid);
      WindowNamesOneStep(o, s, step);
      StartAfterProgress(o, step, Get(before.saved, w), mid.saved[w], run.now, ZERO);
    }
  }

  lemma WindowAdvances(o: Options, logs: LogStore, run: RunInput, before: Snapshot, mid: Snapshot, step: int,
                       m1: Samples, m2: Samples, upto: Time)
    requires RunStep(o, logs, run, before, mid) && step in Resolutions(o) && step > 0 && upto != ZERO
    requires RecordedPair(o, logs, run, step, Get(mid.saved, WindowName(step)), upto, mid.samples, m1, m2)
    ensures Advanced(o, logs, run, step, before.saved, Snapshot(mid.saved[WindowName(step) := upto], m2))
  {
    var w := WindowName(step);
    var from := Get(mid.saved, w);
    ProgressOfWindow(o, logs, run, before, mid, step);
    if !SameAt(before.saved, mid.saved, w) {
      var lo := StartOf(o, step, Get(before.saved, w), run.now);
      StartAfterProgress(o, step, Get(before.saved, w), from, run.now, upto);
      PairKeepsCovered(o, logs, run, step, from, upto, mid.samples, m1, m2, step, lo, from);
      CoveredJoins(logs, run, step, lo, from, StartOf(o, step, from, run.now), upto, m2);
    }
  }

  /** A run whose progress could not be saved is still a run. */
  lemma UnsavedRun(o: Options, logs: LogStore, run: RunInput, before: Snapshot, after: Snapshot)
    requires RunStep(o, logs, run, before, after)
    ensures RunStep(o, logs, run, before, Snapshot(before.saved, after.samples))
  {
  }

  /** The resolution reached the last complete window, if it had anything to count. */
  ghost predicate CaughtUp(o: Options, now: Time, before: State, after: State, step: int)
    requires step > 0
  {
    var w, from, hi := WindowName(step), Get(before, WindowName(step)), Truncate(now, step);
    hi != ZERO && (from != ZERO || o.backfill > 0) && StartOf(o, step, from, now) < hi ==> w in after && after[w] == hi
  }

  /** A resolution recorded without a failure has caught up, also when an earlier pass of the run advanced it. */
  lemma CaughtUpAfter(o: Options, logs: LogStore, run: RunInput, before: Snapshot, mid: Snapshot, step: int, upto: Time)
    requires RunStep(o, logs, run, before, mid) && step in Resolutions(o) && step > 0
    requires CaughtUp(o, run.now, mid.saved, if upto != ZERO then mid.saved[WindowName(step) := upto] else mid.saved, step)
    requires upto != ZERO ==> upto <= Truncate(run.now, step)
    requires upto != ZERO && Get(mid.saved, WindowName(step)) != ZERO ==> Get(mid.saved, WindowName(step)) < upto
    ensures CaughtUp(o, run.now, before.saved, if upto != ZERO then mid.saved[WindowName(step) := upto] else mid.saved, step)
  {
    var w := WindowName(step);
    ProgressOfWindow(o, logs, run, before, mid, step);
    if !SameAt(before.saved, mid.saved, w) {
      TruncateUnique(mid.saved[w], mid.saved[w], step);
    }
  }

  // ---- sequences of runs ------------------------------------------------------------

  /**
   What a run leaves behind: the progress it made is stored without fractions of
   a second, or not at all.
   */
  ghost predicate SavedStep(o: Options, logs: LogStore, run: RunInput, before: Snapshot, after: Snapshot) {
    exists progress ::
      && RunStep(o, logs, run, before, Snapshot(progress, after.samples))
      && (after.saved == Stored(progress) || after.saved == before.saved)
  }

  /**
   Snapshots taken before the first run and after each. Every run has a log store
   of its own: between runs logs arrive and old ones are deleted.
   */
  ghost predicate Runs(o: Options, logs: seq<LogStore>, runs: seq<RunInput>, snaps: seq<Snapshot>) {
    && |snaps| == |runs| + 1 && |logs| == |runs|
    && forall i :: 0 <= i < |runs| ==> IsRun(o, logs, runs, snaps, i)
  }

  /** Run i leads from the snapshot before it to the one after it. */
  ghost predicate IsRun(o: Options, logs: seq<LogStore>, runs: seq<RunInput>, snaps: seq<Snapshot>, i: nat)
    requires |snaps| == |runs| + 1 && |logs| == |runs| && i < |runs|
  {
    SavedStep(o, logs[i], runs[i], snaps[i], snaps[i + 1])
  }

  /** Saved progress is never the zero time and lies on window boundaries. */
  ghost predicate AlignedState(o: Options, s: State) {
    forall step :: step in Resolutions(o) && step > 0 && WindowName(step) in s ==>
      s[WindowName(step)] != ZERO && Aligned(s[WindowName(step)], step)
  }

  /** Every resolution is a whole number of seconds. */
  predicate WholeSeconds(o: Options) { forall step :: step in Resolutions(o) ==> step % SECOND == 0 }

  /** Hours and days are whole, so only the base can have a fraction. */
  lemma OnlyTheBaseMatters(o: Options)
    ensures o.base % SECOND == 0 ==> WholeSeconds(o)
    ensures o.base in Resolutions(o) && WholeSeconds(o) ==> o.base % SECOND == 0
  {
  }

  lemma WholeSecondWindows(t: Time, step: int)
    requires step > 0 && step % SECOND == 0 && Aligned(t, step)
    ensures Aligned(t, SECOND)
  {
    var k, n := step / SECOND, t / step;
    assert step == k * SECOND && t == n * step;
    assert t == (n * k) * SECOND;
    MultipleIsAligned(n * k, SECOND);
  }

  /** With resolutions of whole seconds a run's progress has no fraction. */
  lemma ProgressIsWhole(o: Options, logs: LogStore, run: RunInput, before: Snapshot, after: Snapshot)
    requires RunStep(o, logs, run, before, after) && WholeSeconds(o) && Whole(before.saved)
    ensures Whole(after.saved)
  {
    forall w | w in after.saved ensures Aligned(after.saved[w], SECOND) {
      if !SameAt(before.saved, after.saved, w) {
        var step :| step in Resolutions(o) && step > 0 && WindowName(step) == w && Advanced(o, logs, run, step, before.saved, after);
        WholeSecondWindows(after.saved[w], step);
      }
    }
  }

  /** So nothing is lost when it is stored. */
  lemma SavingLosesNothing(o: Options, logs: LogStore, run: RunInput, before: Snapshot, after: Snapshot)
    requires SavedStep(o, logs, run, before, after) && WholeSeconds(o) && Whole(before.saved)
    ensures RunStep(o, logs, run, before, after) && Whole(after.saved)
  {
    var progress :| RunStep(o, logs, run, before, Snapshot(progress, after.samples))
                 && (after.saved == Stored(progress) || after.saved == before.saved);
    UnsavedRun(o, logs, run, before, Snapshot(progress, after.samples));
    ProgressIsWhole(o, logs, run, before, Snapshot(progress, after.samples));
    StoredIsWhole(progress);
  }

  /** Runs of a recorder whose resolutions are whole seconds, from progress on window boundaries. */
  ghost predicate WholeRuns(o: Options, logs: seq<LogStore>, runs: seq<RunInput>, snaps: seq<Snapshot>) {
    Runs(o, logs, runs, snaps) && WholeSeconds(o) && AlignedState(o, snaps[0].saved) && Whole(snaps[0].saved)
  }

  lemma AlignedStep(o: Options, logs: LogStore, run: RunInput, before: Snapshot, after: Snapshot)
    requires RunStep(o, logs, run, before, after) && AlignedState(o, before.saved)
    ensures AlignedState(o, after.saved)
  {
    forall step | step in Resolutions(o) && step > 0 && WindowName(step) in after.saved
      ensures after.saved[WindowName(step)] != ZERO && Aligned(after.saved[WindowName(step)], step)
    {
      ProgressOfWindow(o, logs, run, before, after, step);
    }
  }

  lemma StepAt(o: Options, logs: seq<LogStore>, runs: seq<RunInput>, snaps: seq<Snapshot>, i: nat)
    requires Runs(o, logs, runs, snaps) && WholeSeconds(o) && i < |runs| && Whole(snaps[i].saved)
    ensures RunStep(o, logs[i], runs[i], snaps[i], snaps[i + 1]) && Whole(snaps[i + 1].saved)
  {
    assert IsRun(o, logs, runs, snaps, i);
    SavingLosesNothing(o, logs[i], runs[i], snaps[i], snaps[i + 1]);
  }

  /** Progress stays on window boundaries, whatever fails, and every run picks it up as it was made. */
  lemma {:induction false} ProgressIsAligned(o: Options, logs: seq<LogStore>, runs: seq<RunInput>, snaps: seq<Snapshot>, j: nat)
    requires WholeRuns(o, logs, runs, snaps) && j < |snaps|
    ensures AlignedState(o, snaps[j].saved) && Whole(snaps[j].saved)
    ensures j < |runs| ==> RunStep(o, logs[j], runs[j], snaps[j], snaps[j + 1])
  {
    if j > 0 {
      ProgressIsAligned(o, logs, runs, snaps, j - 1);
      StepAt(o, logs, runs, snaps, j - 1);
      AlignedStep(o, logs[j - 1], runs[j - 1], snaps[j - 1], snaps[j]);
    }
    if j < |runs| {
      StepAt(o, logs, runs, snaps, j);
    }
  }

  /** Progress is never lost and never goes back, even when the clock does. */
  lemma {:induction false} ProgressOnlyMovesForward(o: Options, logs: seq<LogStore>, runs: seq<RunInput>, snaps: seq<Snapshot>,
                                                    i: nat, j: nat, w: Window)
    requires WholeRuns(o, logs, runs, snaps)
    requires i <= j < |snaps| && w in snaps[i].saved
    ensures w in snaps[j].saved && snaps[i].saved[w] <= snaps[j].saved[w]
    decreases j - i
  {
    if i < j {
      ProgressOnlyMovesForward(o, logs, runs, snaps, i, j - 1, w);
      ProgressIsAligned(o, logs, runs, snaps, j - 1);
      if !SameAt(snaps[j - 1].saved, snaps[j].saved, w) {
        var s :| s in Resolutions(o) && s > 0 && WindowName(s) == w
              && Advanced(o, logs[j - 1], runs[j - 1], s, snaps[j - 1].saved, snaps[j]);
      }
    }
  }

  lemma StepNeverGoesBack(o: Options, logs: LogStore, run: RunInput, before: Snapshot, after: Snapshot, w: Window)
    requires SavedStep(o, logs, run, before, after) && Whole(before.saved) && w in before.saved && before.saved[w] > ZERO
    ensures w in after.saved && before.saved[w] <= after.saved[w] && Whole(after.saved)
  {
    var progress :| RunStep(o, logs, run, before, Snapshot(progress, after.samples))
                 && (after.saved == Stored(progress) || after.saved == before.saved);
    StoredIsWhole(progress);
    if !SameAt(before.saved, progress, w) {
      var s :| s in Resolutions(o) && s > 0 && WindowName(s) == w
            && Advanced(o, logs, run, s, before.saved, Snapshot(progress, after.samples));
    }
    TruncateUnique(before.saved[w], before.saved[w], SECOND);
    if w in progress {
      TruncateMonotone(before.saved[w], progress[w], SECOND);
    }
  }

  /** At every resolution, whole seconds or not, stored progress after the zero time is never lost and never goes back. */
  lemma {:induction false} ProgressNeverGoesBack(o: Options, logs: seq<LogStore>, runs: seq<RunInput>, snaps: seq<Snapshot>,
                                                 i: nat, j: nat, w: Window)
    requires Runs(o, logs, runs, snaps) && i <= j < |snaps|
    requires Whole(snaps[i].saved) && w in snaps[i].saved && snaps[i].saved[w] > ZERO
    ensures Whole(snaps[j].saved) && w in snaps[j].saved && snaps[i].saved[w] <= snaps[j].saved[w]
    decreases j - i
  {
    if i < j {
      ProgressNeverGoesBack(o, logs, runs, snaps, i, j - 1, w);
      assert IsRun(o, logs, runs, snaps, j - 1);
      StepNeverGoesBack(o, logs[j - 1], runs[j - 1], snaps[j - 1], snaps[j], w);
    }
  }

  /** One run does not touch a window before the saved progress. */
  lemma RunKeepsHistory(o: Options, logs: LogStore, run: RunInput, before: Snapshot, after: Snapshot, k: Key)
    requires RunStep(o, logs, run, before, after) && AlignedState(o, before.saved)
    requires k.window in before.saved && k.at < before.saved[k.window]
    ensures SameAt(before.samples, after.samples, k)
  {
  }

  lemma LaterRunKeeps(o: Options, logs: seq<LogStore>, runs: seq<RunInput>, snaps: seq<Snapshot>, i: nat, j: nat, k: Key)
    requires WholeRuns(o, logs, runs, snaps)
    requires i < j < |snaps| && k.window in snaps[i].saved && k.at < snaps[i].saved[k.window]
    ensures SameAt(snaps[j - 1].samples, snaps[j].samples, k)
  {
    ProgressOnlyMovesForward(o, logs, runs, snaps, i, j - 1, k.window);
    ProgressIsAligned(o, logs, runs, snaps, j - 1);
    RunKeepsHistory(o, logs[j - 1], runs[j - 1], snaps[j - 1], snaps[j], k);
  }

  /**
   Recorded history is frozen: no later run changes, adds or removes a sample
   of a window that lies before the saved progress of its resolution.
   */
  lemma {:induction false} RecordedHistoryIsFrozen(o: Options, logs: seq<LogStore>, runs: seq<RunInput>, snaps: seq<Snapshot>,
                                                   i: nat, j: nat, k: Key)
    requires WholeRuns(o, logs, runs, snaps)
    requires i <= j < |snaps| && k.window in snaps[i].saved && k.at < snaps[i].saved[k.window]
    ensures SameAt(snaps[i].samples, snaps[j].samples, k)
    decreases j - i
  {
    if i < j {
      RecordedHistoryIsFrozen(o, logs, runs, snaps, i, j - 1, k);
      LaterRunKeeps(o, logs, runs, snaps, i, j, k);
    }
  }

  /**
   The windows a run moved a resolution's progress past hold, after that run
   and after every later one, exactly what one unsplit query per window gives
   for that run's catalog and log store in both scopes; any other sample of those windows
   was there before the run.
   */
  lemma RecordedForGood(o: Options, logs: seq<LogStore>, runs: seq<RunInput>, snaps: seq<Snapshot>, i: nat, j: nat, step: int, k: Key)
    requires WholeRuns(o, logs, runs, snaps)
    requires i < j < |snaps| && step in Resolutions(o) && step > 0 && k.window == WindowName(step)
    requires !SameAt(snaps[i].saved, snaps[i + 1].saved, k.window)
    ensures k.window in snaps[i + 1].saved
    ensures
      var expected := Expected(logs[i], InScope(runs[i], k.scope), k.scope, step, k);
      StartOf(o, step, Get(snaps[i].saved, k.window), runs[i].now) <= k.at < snaps[i + 1].saved[k.window] ==>
        if expected.Some? then k in snaps[j].samples && snaps[j].samples[k] == expected.value
        else SameAt(snaps[i].samples, snaps[j].samples, k)
  {
    ProgressIsAligned(o, logs, runs, snaps, i);
    ProgressOfWindow(o, logs[i], runs[i], snaps[i], snaps[i + 1], step);
    var expected := Expected(logs[i], InScope(runs[i], k.scope), k.scope, step, k);
    if StartOf(o, step, Get(snaps[i].saved, k.window), runs[i].now) <= k.at < snaps[i + 1].saved[k.window] {
      RecordedHistoryIsFrozen(o, logs, runs, snaps, i + 1, j, k);
      assert Covered(logs[i], InScope(runs[i], k.scope), k.scope, step,
                     StartOf(o, step, Get(snaps[i].saved, k.window), runs[i].now), snaps[i + 1].saved[k.window],
                     snaps[i + 1].samples);
      if expected.None? && !SameAt(snaps[i].samples, snaps[i + 1].samples, k) {
        var s :| s in Resolutions(o) && s > 0
              && MayWrite(o, logs[i], runs[i], s, snaps[i].saved, k, snaps[i + 1].samples[k]);
        WindowNamesOneStep(o, s, step);
      }
    }
  }

  /** Each run picks up where the saved progress ends, without skipping forward. */
  ghost predicate NoSkip(o: Options, step: int, runs: seq<RunInput>, snaps: seq<Snapshot>)
    requires step > 0 && |snaps| == |runs| + 1
  {
    forall i :: 0 <= i < |runs| && WindowName(step) in snaps[i].saved ==>
      StartOf(o, step, snaps[i].saved[WindowName(step)], runs[i].now) <= snaps[i].saved[WindowName(step)]
  }

  /** Run i recorded this window: it moved the resolution's progress past it. */
  ghost predicate RecordedBy(o: Options, step: int, runs: seq<RunInput>, snaps: seq<Snapshot>, i: nat, at: Time)
    requires step > 0 && |snaps| == |runs| + 1 && i < |runs|
  {
    var w := WindowName(step);
    && !SameAt(snaps[i].saved, snaps[i + 1].saved, w) && w in snaps[i + 1].saved
    && StartOf(o, step, Get(snaps[i].saved, w), runs[i].now) <= at < snaps[i + 1].saved[w]
  }

  /**
   Without skipping forward no window is left out: every window between where
   progress began and where it is now was recorded by some run.
   */
  lemma {:induction false} EveryWindowWasRecorded(o: Options, logs: seq<LogStore>, runs: seq<RunInput>, snaps: seq<Snapshot>,
                                                  step: int, at: Time, j: nat) returns (i: nat)
    requires WholeRuns(o, logs, runs, snaps)
    requires step in Resolutions(o) && step > 0 && NoSkip(o, step, runs, snaps) && j < |snaps|
    requires WindowName(step) in snaps[0].saved && WindowName(step) in snaps[j].saved
    requires snaps[0].saved[WindowName(step)] <= at < snaps[j].saved[WindowName(step)]
    ensures i < j && RecordedBy(o, step, runs, snaps, i, at)
    decreases j
  {
    var w := WindowName(step);
    ProgressOnlyMovesForward(o, logs, runs, snaps, 0, j - 1, w);
    ProgressIsAligned(o, logs, runs, snaps, j - 1);
    if at < snaps[j - 1].saved[w] {
      i := EveryWindowWasRecorded(o, logs, runs, snaps, step, at, j - 1);
    } else {
      i := j - 1;
    }
  }

  /** What each run counts in the windows it may record is what `truth` has there. */
  ghost predicate CountsAgree(o: Options, truth: LogStore, cats: seq<Category>, logs: seq<LogStore>, runs: seq<RunInput>,
                              snaps: seq<Snapshot>, step: int, scope: Scope)
    requires step > 0 && |snaps| == |runs| + 1 && |logs| == |runs|
  {
    forall i, k: Key {:trigger Expected(logs[i], InScope(runs[i], scope), scope, step, k)} ::
      0 <= i < |runs| && StartOf(o, step, Get(snaps[i].saved, WindowName(step)), runs[i].now) <= k.at < Truncate(runs[i].now, step)
      ==> Expected(logs[i], InScope(runs[i], scope), scope, step, k) == Expected(truth, cats, scope, step, k)
  }

  /**
   When every run counts what is true of the windows it records, and none skips
   forward, the covered range grows without a gap from where it began to the
   saved progress.
   */
  lemma {:induction false} CoverageHasNoGap(o: Options, truth: LogStore, logs: seq<LogStore>, runs: seq<RunInput>,
                                            snaps: seq<Snapshot>, step: int, scope: Scope, cats: seq<Category>, lo: Time, j: nat)
    requires WholeRuns(o, logs, runs, snaps)
    requires step in Resolutions(o) && step > 0 && NoSkip(o, step, runs, snaps) && j < |snaps|
    requires CountsAgree(o, truth, cats, logs, runs, snaps, step, scope)
    requires WindowName(step) in snaps[0].saved
    requires Covered(truth, cats, scope, step, lo, snaps[0].saved[WindowName(step)], snaps[0].samples)
    ensures WindowName(step) in snaps[j].saved
    ensures Covered(truth, cats, scope, step, lo, snaps[j].saved[WindowName(step)], snaps[j].samples)
  {
    if j > 0 {
      var w := WindowName(step);
      CoverageHasNoGap(o, truth, logs, runs, snaps, step, scope, cats, lo, j - 1);
      ProgressOnlyMovesForward(o, logs, runs, snaps, j - 1, j, w);
      forall k: Key | lo <= k.at < snaps[j].saved[w] && Expected(truth, cats, scope, step, k).Some?
        ensures k in snaps[j].samples && snaps[j].samples[k] == Expected(truth, cats, scope, step, k).value
      {
        if k.at < snaps[j - 1].saved[w] {
          RecordedHistoryIsFrozen(o, logs, runs, snaps, j - 1, j, k);
          assert k in snaps[j - 1].samples;
        } else {
          NewlyCovered(o, truth, logs, runs, snaps, step, scope, cats, j, k);
        }
      }
    }
  }

  lemma NewlyCovered(o: Options, truth: LogStore, logs: seq<LogStore>, runs: seq<RunInput>, snaps: seq<Snapshot>, step: int,
                     scope: Scope, cats: seq<Category>, j: nat, k: Key)
    requires WholeRuns(o, logs, runs, snaps) && step in Resolutions(o) && step > 0 && NoSkip(o, step, runs, snaps) && 0 < j < |snaps|
    requires CountsAgree(o, truth, cats, logs, runs, snaps, step, scope) && Expected(truth, cats, scope, step, k).Some?
    requires WindowName(step) in snaps[j - 1].saved && WindowName(step) in snaps[j].saved
    requires snaps[j - 1].saved[WindowName(step)] <= k.at < snaps[j].saved[WindowName(step)]
    ensures k in snaps[j].samples && snaps[j].samples[k] == Expected(truth, cats, scope, step, k).value
  {
    var w, a, b := WindowName(step), snaps[j - 1], snaps[j];
    ProgressIsAligned(o, logs, runs, snaps, j - 1);
    ProgressOfWindow(o, logs[j - 1], runs[j - 1], a, b, step);
    assert Covered(logs[j - 1], InScope(runs[j - 1], scope), scope, step,
                   StartOf(o, step, a.saved[w], runs[j - 1].now), b.saved[w], b.samples);
    assert Expected(logs[j - 1], InScope(runs[j - 1], scope), scope, step, k) == Expected(truth, cats, scope, step, k);
  }
}
