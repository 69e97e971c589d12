/**
 Progress is stored without fractions of a second. This is harmless if and only
 if every resolution is a whole number of seconds.
 */
module RollupFractions {
  import opened Clock
  import opened RollupModel
  import opened RollupRuns
  import opened Wrappers

  /** No run, whatever it counts and whatever fails, makes progress that storing would change. */
  ghost predicate StoresExactly(o: Options, logs: LogStore, run: RunInput, before: Snapshot, after: Snapshot) {
    RunStep(o, logs, run, before, after) && Whole(before.saved) ==> Stored(after.saved) == after.saved
  }

  /** No later run of the sequence changes a sample before saved progress. */
  ghost predicate Frozen(o: Options, logs: seq<LogStore>, runs: seq<RunInput>, snaps: seq<Snapshot>) {
    Runs(o, logs, runs, snaps) && AlignedState(o, snaps[0].saved) && Whole(snaps[0].saved) ==>
      forall i, j, k: Key :: 0 <= i <= j < |snaps| ==> FrozenAt(snaps[i], snaps[j], k)
  }

  ghost predicate FrozenAt(before: Snapshot, after: Snapshot, k: Key) {
    k.window in before.saved && k.at < before.saved[k.window] ==> SameAt(before.samples, after.samples, k)
  }

  /** Saved progress of the sequence stays on window boundaries. */
  ghost predicate StaysAligned(o: Options, logs: seq<LogStore>, runs: seq<RunInput>, snaps: seq<Snapshot>) {
    Runs(o, logs, runs, snaps) && AlignedState(o, snaps[0].saved) && Whole(snaps[0].saved) ==>
      forall j :: 0 <= j < |snaps| ==> AlignedState(o, snaps[j].saved)
  }

  // ---- a window counted twice -----------------------------------------------------------------

  /** A window boundary that is also a whole second. */
  function Start(o: Options): Time { o.base * SECOND }

  /** One service that is active in the window after that, with n clients and messages. */
  function Logs(o: Options, n: nat): LogStore {
    LogStore((t, step) => t == Start(o) && step == o.base, (c: Category, t, step) => Count(n, n))
  }

  function Samples(o: Options, n: nat): Samples {
    var w := WindowName(o.base);
    map[Key(UniqueClients, "s", w, All, Start(o)) := n, Key(Queries, "s", w, All, Start(o)) := n]
  }

  function Now(o: Options): Time { Start(o) + o.base }

  function Input(o: Options): RunInput { RunInput([Category("s", [])], [], Now(o)) }

  function At(o: Options, t: Time): State { map[WindowName(o.base) := t] }

  predicate Fractional(o: Options) { o.base > SECOND && o.base in Resolutions(o) && o.base % SECOND != 0 }

  lemma StartIsWhole(o: Options)
    requires Fractional(o)
    ensures Aligned(Start(o), SECOND) && Aligned(Start(o), o.base) && Aligned(Now(o), o.base) && Start(o) > ZERO
  {
    MultipleIsAligned(o.base, SECOND);
    MultipleIsAligned(SECOND, o.base);
    assert SECOND * o.base == o.base * SECOND;
    AlignedAdd(Start(o), 1, o.base);
    Scaled(o.base, SECOND);
  }

  /** The progress behind the window is stored as an instant within it. */
  lemma StoredWithinWindow(o: Options)
    requires Fractional(o)
    ensures Start(o) < Truncate(Now(o), SECOND) < Now(o)
    ensures !Aligned(Truncate(Now(o), SECOND), o.base) && !Aligned(Now(o), SECOND)
  {
    StartIsWhole(o);
    var y := Truncate(Now(o), SECOND);
    assert Now(o) % SECOND != 0 by {
      if Aligned(Now(o), SECOND) {
        AlignedAdd(Now(o), -o.base, SECOND);
        assert Now(o) == (Now(o) / SECOND) * SECOND && Start(o) == o.base * SECOND;
        assert o.base == (Now(o) / SECOND - o.base) * SECOND;
        MultipleIsAligned(Now(o) / SECOND - o.base, SECOND);
      }
    }
    if Aligned(y, o.base) {
      AlignedGap(Start(o), y, o.base);
    }
  }

  lemma StartsAgain(o: Options, from: Time)
    requires Fractional(o) && Start(o) <= from < Now(o)
    ensures StartOf(o, o.base, from, Now(o)) == Start(o) && Truncate(Now(o), o.base) == Now(o)
  {
    StartIsWhole(o);
    TruncateUnique(from, Start(o), o.base);
    TruncateUnique(Now(o), Now(o), o.base);
    var h := Horizon(o, o.base);
    if h > 0 && Start(o) < Truncate(Now(o) - h, o.base) {
      AlignedGap(Start(o), Truncate(Now(o) - h, o.base), o.base);
    }
  }

  lemma OnlyTheseExpected(o: Options, n: nat, scope: Scope, k: Key)
    requires Fractional(o)
    ensures Expected(Logs(o, n), InScope(Input(o), scope), scope, o.base, k)
         == if scope == All && k in Samples(o, n) then Some(n) else None
  {
    StartIsWhole(o);
    KeysOf(o, n, k);
    FindOnly(Category("s", []), k.service);
    if scope == Main {
      assert Find([], k.service) == None;
    }
  }

  lemma FindOnly(c: Category, name: string)
    ensures Find([c], name) == if name == c.name then Some(c) else None
  {
    assert [c][1..] == [];
  }

  lemma KeysOf(o: Options, n: nat, k: Key)
    ensures k in Samples(o, n) <==> k.service == "s" && k.window == WindowName(o.base) && k.scope == All && k.at == Start(o)
    ensures k in Samples(o, n) ==> Samples(o, n)[k] == n
  {
    if k.service == "s" && k.window == WindowName(o.base) && k.scope == All && k.at == Start(o) {
      match k.metric
      case UniqueClients => assert k == Key(UniqueClients, "s", WindowName(o.base), All, Start(o));
      case Queries => assert k == Key(Queries, "s", WindowName(o.base), All, Start(o));
    }
  }

  /** A run at that time counts the window, from any progress that truncates to its start. */
  lemma CountsTheWindow(o: Options, n: nat, from: Time, m: Samples)
    requires Fractional(o) && Start(o) <= from < Now(o) && m.Keys <= Samples(o, n).Keys
    ensures RunStep(o, Logs(o, n), Input(o), Snapshot(At(o, from), m), Snapshot(At(o, Now(o)), Samples(o, n)))
  {
    var w, run, logs := WindowName(o.base), Input(o), Logs(o, n);
    var before, after := Snapshot(At(o, from), m), Snapshot(At(o, Now(o)), Samples(o, n));
    StartIsWhole(o);
    StartsAgain(o, from);
    forall scope, k: Key
      ensures Expected(logs, InScope(run, scope), scope, o.base, k) == if scope == All && k in after.samples then Some(n) else None
    {
      OnlyTheseExpected(o, n, scope, k);
    }
    assert BothCovered(logs, run, o.base, Start(o), Now(o), after.samples) by {
      forall scope ensures Covered(logs, InScope(run, scope), scope, o.base, Start(o), Now(o), after.samples) {
      }
    }
    assert Advanced(o, logs, run, o.base, before.saved, after);
    forall k | !SameAt(before.samples, after.samples, k)
      ensures k in after.samples && MayWrite(o, logs, run, o.base, before.saved, k, after.samples[k])
    {
    }
  }

  function TwoRuns(o: Options, a: nat, b: nat): seq<Snapshot> {
    var saved := Stored(At(o, Now(o)));
    [Snapshot(At(o, Start(o)), map[]), Snapshot(saved, Samples(o, a)), Snapshot(saved, Samples(o, b))]
  }

  lemma StoredAt(o: Options)
    ensures Stored(At(o, Now(o))) == At(o, Truncate(Now(o), SECOND))
  {
  }

  lemma IsSaved(o: Options, logs: LogStore, run: RunInput, before: Snapshot, progress: State, after: Snapshot)
    requires RunStep(o, logs, run, before, Snapshot(progress, after.samples)) && after.saved == Stored(progress)
    ensures SavedStep(o, logs, run, before, after)
  {
  }

  lemma BeginsAligned(o: Options)
    requires Fractional(o)
    ensures AlignedState(o, At(o, Start(o))) && Whole(At(o, Start(o)))
  {
    StartIsWhole(o);
    forall step | step in Resolutions(o) && step > 0 && WindowName(step) == WindowName(o.base) ensures step == o.base {
      WindowNamesOneStep(o, step, o.base);
    }
  }

  function TwoLogs(o: Options, a: nat, b: nat): seq<LogStore> { [Logs(o, a), Logs(o, b)] }

  function TwoInputs(o: Options): seq<RunInput> { [Input(o), Input(o)] }

  lemma FirstRun(o: Options, a: nat, b: nat)
    requires Fractional(o)
    ensures IsRun(o, TwoLogs(o, a, b), TwoInputs(o), TwoRuns(o, a, b), 0)
  {
    StartIsWhole(o);
    CountsTheWindow(o, a, Start(o), map[]);
    var snaps := TwoRuns(o, a, b);
    IsSaved(o, Logs(o, a), Input(o), snaps[0], At(o, Now(o)), snaps[1]);
  }

  lemma SecondRun(o: Options, a: nat, b: nat)
    requires Fractional(o)
    ensures IsRun(o, TwoLogs(o, a, b), TwoInputs(o), TwoRuns(o, a, b), 1)
  {
    StoredAt(o);
    StoredWithinWindow(o);
    CountsTheWindow(o, b, Truncate(Now(o), SECOND), Samples(o, a));
    var snaps := TwoRuns(o, a, b);
    IsSaved(o, Logs(o, b), Input(o), snaps[1], At(o, Now(o)), snaps[2]);
  }

  lemma BothAreRuns(o: Options, a: nat, b: nat)
    requires Fractional(o)
    ensures Runs(o, TwoLogs(o, a, b), TwoInputs(o), TwoRuns(o, a, b))
  {
    FirstRun(o, a, b);
    SecondRun(o, a, b);
  }

  lemma SavedOffBoundary(o: Options)
    requires Fractional(o)
    ensures !AlignedState(o, Stored(At(o, Now(o)))) && Start(o) < Stored(At(o, Now(o)))[WindowName(o.base)]
  {
    StoredAt(o);
    StoredWithinWindow(o);
  }

  /**
   Two runs within one window after the other, between which the logs change: the
   second starts over where the first one had recorded already, overwrites its
   samples, and the saved progress lies on no boundary.
   */
  lemma WindowIsCountedTwice(o: Options, a: nat, b: nat)
    requires Fractional(o)
    ensures Runs(o, TwoLogs(o, a, b), TwoInputs(o), TwoRuns(o, a, b))
    ensures AlignedState(o, TwoRuns(o, a, b)[0].saved) && Whole(TwoRuns(o, a, b)[0].saved)
    ensures !AlignedState(o, TwoRuns(o, a, b)[1].saved)
    ensures a != b ==> !FrozenAt(TwoRuns(o, a, b)[1], TwoRuns(o, a, b)[2], Key(Queries, "s", WindowName(o.base), All, Start(o)))
  {
    BeginsAligned(o);
    SavedOffBoundary(o);
    BothAreRuns(o, a, b);
  }

  // ---- exactly when fractions do no harm ---------------------------------------------------------

  lemma WholeRunsAreFrozen(o: Options, logs: seq<LogStore>, runs: seq<RunInput>, snaps: seq<Snapshot>)
    requires WholeSeconds(o)
    ensures Frozen(o, logs, runs, snaps) && StaysAligned(o, logs, runs, snaps)
  {
    if Runs(o, logs, runs, snaps) && AlignedState(o, snaps[0].saved) && Whole(snaps[0].saved) {
      forall i, j, k: Key | 0 <= i <= j < |snaps| ensures FrozenAt(snaps[i], snaps[j], k) {
        if k.window in snaps[i].saved && k.at < snaps[i].saved[k.window] {
          RecordedHistoryIsFrozen(o, logs, runs, snaps, i, j, k);
        }
      }
      forall j | 0 <= j < |snaps| ensures AlignedState(o, snaps[j].saved) {
        ProgressIsAligned(o, logs, runs, snaps, j);
      }
    }
  }

  lemma NotWholeIsFractional(o: Options)
    requires o.base >= SECOND && !WholeSeconds(o)
    ensures Fractional(o)
  {
    OnlyTheBaseMatters(o);
    assert HOUR % SECOND == 0 && DAY % SECOND == 0;
  }

  /**
   For a base of at least a second: recorded history is never overwritten, in any
   sequence of runs, if and only if every resolution is a whole number of seconds.
   */
  lemma FrozenIffWholeSeconds(o: Options)
    requires o.base >= SECOND
    ensures (forall logs, runs, snaps :: Frozen(o, logs, runs, snaps)) <==> WholeSeconds(o)
  {
    if WholeSeconds(o) {
      forall logs, runs, snaps ensures Frozen(o, logs, runs, snaps) {
        WholeRunsAreFrozen(o, logs, runs, snaps);
      }
    } else {
      NotWholeIsFractional(o);
      WindowIsCountedTwice(o, 0, 1);
      assert !Frozen(o, TwoLogs(o, 0, 1), TwoInputs(o), TwoRuns(o, 0, 1));
    }
  }

  /** And saved progress stays on window boundaries under the same condition. */
  lemma AlignedIffWholeSeconds(o: Options)
    requires o.base >= SECOND
    ensures (forall logs, runs, snaps :: StaysAligned(o, logs, runs, snaps)) <==> WholeSeconds(o)
  {
    if WholeSeconds(o) {
      forall logs, runs, snaps ensures StaysAligned(o, logs, runs, snaps) {
        WholeRunsAreFrozen(o, logs, runs, snaps);
      }
    } else {
      NotWholeIsFractional(o);
      WindowIsCountedTwice(o, 0, 1);
      assert !StaysAligned(o, TwoLogs(o, 0, 1), TwoInputs(o), TwoRuns(o, 0, 1));
    }
  }

  /** Storing loses nothing of any run's progress under the same condition. */
  lemma ExactIffWholeSeconds(o: Options)
    requires o.base >= SECOND
    ensures (forall logs, run, before, after :: StoresExactly(o, logs, run, before, after)) <==> WholeSeconds(o)
  {
    if WholeSeconds(o) {
      forall logs, run, before, after ensures StoresExactly(o, logs, run, before, after) {
        if RunStep(o, logs, run, before, after) && Whole(before.saved) {
          ProgressIsWhole(o, logs, run, before, after);
          StoredIsWhole(after.saved);
        }
      }
    } else {
      NotWholeIsFractional(o);
      BeginsAligned(o);
      StoredAt(o);
      StartIsWhole(o);
      StoredWithinWindow(o);
      CountsTheWindow(o, 0, Start(o), map[]);
      assert At(o, Now(o))[WindowName(o.base)] != Stored(At(o, Now(o)))[WindowName(o.base)];
      assert !StoresExactly(o, Logs(o, 0), Input(o), Snapshot(At(o, Start(o)), map[]), Snapshot(At(o, Now(o)), Samples(o, 0)));
    }
  }

  /** What the configuration asks of the base: from a minute to an hour, and a divisor of the hour. */
  predicate Accepted(base: int) { MINUTE <= base <= HOUR && HOUR % base == 0 }

  /** It accepts 112.5 seconds, and so does the condition fail. */
  lemma AcceptedWithFraction(backfill: int, maxAge: int)
    ensures var o := Options(112_500_000_000, backfill, maxAge, {});
      Accepted(o.base) && !WholeSeconds(o) && Fractional(o)
  {
    var o := Options(112_500_000_000, backfill, maxAge, {});
    assert o.base in AllResolutions(o) && o.base in Resolutions(o);
    assert 3600 * SECOND == 32 * o.base;
  }
}
