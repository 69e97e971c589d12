/**
 The overshoot of a forwarder's limits is reached: any number of producers that
 take each step of Forward together all pass the checks.
 */
module ForwarderOvershoot {
  import opened LogEntry
  import opened Forwarder
  import opened ForwarderSafety
  import opened ForwarderLimits
  import opened Wrappers

  /**
   From the state `base`, in which no call is in progress, each of the first
   `crowd` producers forwards the same entries, of which `group` is kept.
   */
  datatype Plan = Plan(base: State, crowd: nat, tenant: string, entries: seq<Entry>, group: seq<Entry>, size: nat)

  function PlanOf(o: Options, base: State, crowd: nat, tenant: string, entries: seq<Entry>): Plan {
    Plan(base, crowd, tenant, entries, Retenanted(tenant, Kept(o, entries)), SizeOf(Kept(o, entries)))
  }

  /** One more group fits both limits, and the channel has room for one from every producer. */
  predicate Fits(o: Options, plan: Plan)
    requires o.batchMaxRows > 0
  {
    && plan == PlanOf(o, plan.base, plan.crowd, plan.tenant, plan.entries)
    && plan.group != [] && plan.base.queued + |plan.group| <= o.queueMaxMessages
    && (o.queueMaxBytes > 0 ==> plan.base.bytes + plan.size <= o.queueMaxBytes)
    && |plan.base.queue| + plan.crowd <= Capacity(o)
    && plan.crowd <= |plan.base.producers| && AllIdle(plan.base.producers) && !plan.base.closed
  }

  datatype Phase = Entering | CheckingMessages | CheckingBytes | Pushing | CountingMessages | CountingBytes

  function From(ph: Phase, plan: Plan): Producer {
    match ph
    case Entering => Idle
    case CheckingMessages => Entered(plan.group, plan.size)
    case CheckingBytes => FitsMessages(plan.group, plan.size)
    case Pushing => FitsBytes(plan.group, plan.size)
    case CountingMessages => Pushed(plan.group, plan.size)
    case CountingBytes => CountedMessages(plan.group, plan.size)
  }

  function To(ph: Phase, plan: Plan): Producer { if ph.CountingBytes? then Idle else From(Next(ph), plan) }

  function Next(ph: Phase): Phase {
    match ph
    case Entering => CheckingMessages
    case CheckingMessages => CheckingBytes
    case CheckingBytes => Pushing
    case Pushing => CountingMessages
    case CountingMessages => CountingBytes
    case CountingBytes => Entering
  }

  function EventOf(ph: Phase, plan: Plan, p: nat): Event {
    match ph
    case Entering => Enter(p, plan.tenant, plan.entries)
    case CheckingMessages => CheckMessages(p)
    case CheckingBytes => CheckBytes(p)
    case Pushing => Push(p)
    case CountingMessages => AddMessages(p)
    case CountingBytes => AddBytes(p)
  }

  /** Of the first `crowd` of n producers j have taken the step; the others do nothing. */
  function Line(n: nat, crowd: nat, j: nat, before: Producer, after: Producer): seq<Producer> {
    seq(n, i => if i < j then after else if i < crowd then before else Idle)
  }

  function Repeat(g: seq<Entry>, n: nat): seq<Entry> { if n == 0 then [] else Repeat(g, n - 1) + g }

  /** How many of n producers are past a phase, when j of them are past phase ph. */
  function Past(ph: Phase, j: nat, n: nat, what: Phase): nat {
    if Rank(ph) < Rank(what) then 0 else if ph == what then j else n
  }

  function Rank(ph: Phase): nat {
    match ph
    case Entering => 0 case CheckingMessages => 1 case CheckingBytes => 2
    case Pushing => 3 case CountingMessages => 4 case CountingBytes => 5
  }

  function Stage(plan: Plan, ph: Phase, j: nat): State {
    var n := plan.crowd;
    plan.base.(
      producers := Line(|plan.base.producers|, n, j, From(ph, plan), To(ph, plan)),
      accepted := plan.base.accepted + Repeat(plan.group, Past(ph, j, n, Entering)),
      queue := plan.base.queue + seq(Past(ph, j, n, Pushing), _ => plan.group),
      queued := plan.base.queued + Past(ph, j, n, CountingMessages) * |plan.group|,
      bytes := plan.base.bytes + Past(ph, j, n, CountingBytes) * plan.size)
  }

  // ---- one producer takes a step -----------------------------------------------------------------

  lemma LineMoves(n: nat, crowd: nat, j: nat, before: Producer, after: Producer)
    requires j < crowd <= n
    ensures Line(n, crowd, j, before, after)[j] == before
    ensures Line(n, crowd, j, before, after)[j := after] == Line(n, crowd, j + 1, before, after)
  {
  }

  /** The event is possible, and takes the stage one producer further. */
  ghost predicate Moves(o: Options, plan: Plan, ph: Phase, j: nat)
    requires o.batchMaxRows > 0
  {
    var s, e := Stage(plan, ph, j), EventOf(ph, plan, j);
    Enabled(o, s, e) && Step(o, s, e) == Stage(plan, ph, j + 1)
  }

  lemma EnterMoves(o: Options, plan: Plan, j: nat)
    requires o.batchMaxRows > 0 && Fits(o, plan) && j < plan.crowd
    ensures Moves(o, plan, Entering, j)
  {
    LineMoves(|plan.base.producers|, plan.crowd, j, From(Entering, plan), To(Entering, plan));
    assert plan.base.accepted + Repeat(plan.group, j) + plan.group == plan.base.accepted + Repeat(plan.group, j + 1);
  }

  lemma MessageCheckMoves(o: Options, plan: Plan, j: nat)
    requires o.batchMaxRows > 0 && Fits(o, plan) && j < plan.crowd
    ensures Moves(o, plan, CheckingMessages, j)
  {
    LineMoves(|plan.base.producers|, plan.crowd, j, From(CheckingMessages, plan), To(CheckingMessages, plan));
  }

  lemma ByteCheckMoves(o: Options, plan: Plan, j: nat)
    requires o.batchMaxRows > 0 && Fits(o, plan) && j < plan.crowd
    ensures Moves(o, plan, CheckingBytes, j)
  {
    LineMoves(|plan.base.producers|, plan.crowd, j, From(CheckingBytes, plan), To(CheckingBytes, plan));
  }

  lemma PushMoves(o: Options, plan: Plan, j: nat)
    requires o.batchMaxRows > 0 && Fits(o, plan) && j < plan.crowd
    ensures Moves(o, plan, Pushing, j)
  {
    LineMoves(|plan.base.producers|, plan.crowd, j, From(Pushing, plan), To(Pushing, plan));
    assert plan.base.queue + seq(j, _ => plan.group) + [plan.group] == plan.base.queue + seq(j + 1, _ => plan.group);
  }

  lemma MessageCountMoves(o: Options, plan: Plan, j: nat)
    requires o.batchMaxRows > 0 && Fits(o, plan) && j < plan.crowd
    ensures Moves(o, plan, CountingMessages, j)
  {
    LineMoves(|plan.base.producers|, plan.crowd, j, From(CountingMessages, plan), To(CountingMessages, plan));
    OneGroupMore(j, |plan.group|);
  }

  lemma ByteCountMoves(o: Options, plan: Plan, j: nat)
    requires o.batchMaxRows > 0 && Fits(o, plan) && j < plan.crowd
    ensures Moves(o, plan, CountingBytes, j)
  {
    LineMoves(|plan.base.producers|, plan.crowd, j, From(CountingBytes, plan), To(CountingBytes, plan));
    OneGroupMore(j, plan.size);
  }

  lemma EachMoves(o: Options, plan: Plan, ph: Phase, j: nat)
    requires o.batchMaxRows > 0 && Fits(o, plan) && j < plan.crowd
    ensures Moves(o, plan, ph, j)
  {
    match ph
    case Entering => EnterMoves(o, plan, j);
    case CheckingMessages => MessageCheckMoves(o, plan, j);
    case CheckingBytes => ByteCheckMoves(o, plan, j);
    case Pushing => PushMoves(o, plan, j);
    case CountingMessages => MessageCountMoves(o, plan, j);
    case CountingBytes => ByteCountMoves(o, plan, j);
  }

  /** When every producer has taken the step, the next phase begins. */
  lemma PhaseEnds(plan: Plan, ph: Phase)
    requires !ph.CountingBytes?
    ensures Stage(plan, ph, plan.crowd) == Stage(plan, Next(ph), 0)
  {
    var n, c := |plan.base.producers|, plan.crowd;
    assert Line(n, c, c, From(ph, plan), To(ph, plan)) == Line(n, c, 0, From(Next(ph), plan), To(Next(ph), plan));
  }

  // ---- all of them do ------------------------------------------------------------------------------

  lemma {:induction false} ActiveAtMost(ps: seq<Producer>)
    ensures Active(ps) <= |ps|
  {
    if ps != [] {
      ActiveAtMost(ps[1..]);
    }
  }

  /** A crowded run that reached this state. */
  ghost predicate Crowded(w: Weight, largest: nat, o: Options, n: nat, es: seq<Event>, s: State)
    requires o.batchMaxRows > 0
  {
    Execute(o, n, es) == Some(s) && CrowdedRun(w, n, largest, o, n, es)
  }

  lemma CrowdedMore(w: Weight, largest: nat, o: Options, n: nat, es: seq<Event>, s: State, e: Event, t: State)
    requires o.batchMaxRows > 0 && Crowded(w, largest, o, n, es, s) && Enabled(o, s, e) && Step(o, s, e) == t
    requires |t.producers| == n && GroupsWithin(w, largest, t.producers)
    ensures Crowded(w, largest, o, n, es + [e], t)
  {
    assert (es + [e])[..|es|] == es;
    ActiveAtMost(t.producers);
  }

  lemma GroupsOfStage(w: Weight, largest: nat, plan: Plan, ph: Phase, j: nat)
    requires w(plan.group) <= largest
    ensures |Stage(plan, ph, j).producers| == |plan.base.producers| && GroupsWithin(w, largest, Stage(plan, ph, j).producers)
  {
  }

  /** The events that, after es, bring the crowd through the phases before ph, and the first j through it. */
  function Script(es: seq<Event>, plan: Plan, ph: Phase, j: nat): seq<Event>
    decreases Rank(ph), j
  {
    if j > 0 then Script(es, plan, ph, j - 1) + [EventOf(ph, plan, j - 1)]
    else if ph.Entering? then es
    else Script(es, plan, Previous(ph), plan.crowd)
  }

  function Previous(ph: Phase): (r: Phase)
    requires !ph.Entering?
    ensures Next(r) == ph && Rank(r) < Rank(ph)
  {
    match ph
    case CheckingMessages => Entering
    case CheckingBytes => CheckingMessages
    case Pushing => CheckingBytes
    case CountingMessages => Pushing
    case CountingBytes => CountingMessages
  }

  lemma Begins(plan: Plan)
    requires AllIdle(plan.base.producers)
    ensures Stage(plan, Entering, 0) == plan.base
  {
    var s := plan.base;
    assert s.producers == Line(|s.producers|, plan.crowd, 0, Idle, To(Entering, plan));
    assert s.accepted + [] == s.accepted && s.queue + [] == s.queue;
  }

  lemma OneMore(w: Weight, largest: nat, o: Options, plan: Plan, ph: Phase, j: nat, es: seq<Event>)
    requires o.batchMaxRows > 0 && Fits(o, plan) && j < plan.crowd && w(plan.group) <= largest
    requires Crowded(w, largest, o, |plan.base.producers|, es, Stage(plan, ph, j))
    ensures Crowded(w, largest, o, |plan.base.producers|, es + [EventOf(ph, plan, j)], Stage(plan, ph, j + 1))
  {
    EachMoves(o, plan, ph, j);
    GroupsOfStage(w, largest, plan, ph, j + 1);
    CrowdedMore(w, largest, o, |plan.base.producers|, es, Stage(plan, ph, j), EventOf(ph, plan, j), Stage(plan, ph, j + 1));
  }

  lemma {:induction false} ScriptRuns(w: Weight, largest: nat, o: Options, es: seq<Event>, plan: Plan, ph: Phase, j: nat)
    requires o.batchMaxRows > 0 && Fits(o, plan) && j <= plan.crowd && w(plan.group) <= largest
    requires Crowded(w, largest, o, |plan.base.producers|, es, plan.base)
    ensures Crowded(w, largest, o, |plan.base.producers|, Script(es, plan, ph, j), Stage(plan, ph, j))
    decreases Rank(ph), j
  {
    if j > 0 {
      ScriptRuns(w, largest, o, es, plan, ph, j - 1);
      OneMore(w, largest, o, plan, ph, j - 1, Script(es, plan, ph, j - 1));
    } else if ph.Entering? {
      Begins(plan);
    } else {
      ScriptRuns(w, largest, o, es, plan, Previous(ph), plan.crowd);
      PhaseEnds(plan, Previous(ph));
    }
  }

  // ---- filling up one call at a time -----------------------------------------------------------------

  /** The queue after one call for each of the lists, made one after the other by the first of n producers. */
  function Filled(o: Options, n: nat, tenant: string, lists: seq<seq<Entry>>): State {
    if lists == [] then Init(n)
    else Stage(PlanOf(o, Filled(o, n, tenant, lists[..|lists| - 1]), 1, tenant, lists[|lists| - 1]), CountingBytes, 1)
  }

  function GroupsOf(o: Options, tenant: string, lists: seq<seq<Entry>>): seq<seq<Entry>> {
    if lists == [] then []
    else GroupsOf(o, tenant, lists[..|lists| - 1]) + [Retenanted(tenant, Kept(o, lists[|lists| - 1]))]
  }

  /** The queue holds these groups, and both gauges show them. */
  predicate Holds(s: State, n: nat, groups: seq<seq<Entry>>) {
    && s.queue == groups && s.queued == QueueWeight(Count(), groups) && s.bytes == QueueWeight(Bytes(), groups)
    && |s.producers| == n && AllIdle(s.producers) && !s.closed
  }

  /** The last stage of one call: the group is queued and counted, and nobody is in a call. */
  lemma OneCall(plan: Plan)
    requires plan.crowd == 1 && AllIdle(plan.base.producers)
    ensures var s := Stage(plan, CountingBytes, 1);
      && s.queue == plan.base.queue + [plan.group] && s.queued == plan.base.queued + |plan.group|
      && s.bytes == plan.base.bytes + plan.size && |s.producers| == |plan.base.producers| && AllIdle(s.producers)
      && s.closed == plan.base.closed
  {
    assert seq(1, _ => plan.group) == [plan.group];
  }

  lemma OneCallHolds(o: Options, plan: Plan, n: nat, groups: seq<seq<Entry>>)
    requires plan == PlanOf(o, plan.base, 1, plan.tenant, plan.entries) && Holds(plan.base, n, groups)
    ensures Holds(Stage(plan, CountingBytes, 1), n, groups + [plan.group])
  {
    OneCall(plan);
    QueueWeightAppend(Count(), groups, plan.group);
    QueueWeightAppend(Bytes(), groups, plan.group);
    SizeIgnoresTenant(plan.tenant, Kept(o, plan.entries));
  }

  lemma {:induction false} FilledHolds(o: Options, n: nat, tenant: string, lists: seq<seq<Entry>>)
    requires n > 0
    ensures Holds(Filled(o, n, tenant, lists), n, GroupsOf(o, tenant, lists)) && |GroupsOf(o, tenant, lists)| == |lists|
  {
    if lists != [] {
      var init := lists[..|lists| - 1];
      FilledHolds(o, n, tenant, init);
      OneCallHolds(o, PlanOf(o, Filled(o, n, tenant, init), 1, tenant, lists[|lists| - 1]), n, GroupsOf(o, tenant, init));
    }
  }

  /** The groups are not empty, none is heavier than `largest`, and together they fit both limits and the channel. */
  predicate Room(w: Weight, largest: nat, o: Options, groups: seq<seq<Entry>>)
    requires o.batchMaxRows > 0
  {
    && (forall i :: 0 <= i < |groups| ==> groups[i] != [] && w(groups[i]) <= largest)
    && QueueWeight(Count(), groups) <= o.queueMaxMessages
    && (o.queueMaxBytes > 0 ==> QueueWeight(Bytes(), groups) <= o.queueMaxBytes)
    && |groups| <= Capacity(o)
  }

  lemma RoomBefore(w: Weight, largest: nat, o: Options, groups: seq<seq<Entry>>, g: seq<Entry>)
    requires o.batchMaxRows > 0 && Room(w, largest, o, groups + [g])
    ensures Room(w, largest, o, groups) && g != [] && w(g) <= largest
    ensures QueueWeight(Count(), groups) + |g| <= o.queueMaxMessages
    ensures o.queueMaxBytes > 0 ==> QueueWeight(Bytes(), groups) + SizeOf(g) <= o.queueMaxBytes
  {
    QueueWeightAppend(Count(), groups, g);
    QueueWeightAppend(Bytes(), groups, g);
    assert (groups + [g])[|groups|] == g;
    forall i | 0 <= i < |groups| ensures groups[i] != [] && w(groups[i]) <= largest {
      assert (groups + [g])[i] == groups[i];
    }
  }

  lemma {:induction false} FillingRuns(w: Weight, largest: nat, o: Options, n: nat, tenant: string, lists: seq<seq<Entry>>)
    returns (es: seq<Event>)
    requires o.batchMaxRows > 0 && n > 0 && Room(w, largest, o, GroupsOf(o, tenant, lists))
    ensures Crowded(w, largest, o, n, es, Filled(o, n, tenant, lists))
  {
    if lists == [] {
      es := [];
      ActiveAtMost(Init(n).producers);
    } else {
      var init, last := lists[..|lists| - 1], lists[|lists| - 1];
      var plan := PlanOf(o, Filled(o, n, tenant, init), 1, tenant, last);
      RoomBefore(w, largest, o, GroupsOf(o, tenant, init), plan.group);
      FilledHolds(o, n, tenant, init);
      SizeIgnoresTenant(tenant, Kept(o, last));
      es := FillingRuns(w, largest, o, n, tenant, init);
      ScriptRuns(w, largest, o, es, plan, CountingBytes, 1);
      es := Script(es, plan, CountingBytes, 1);
    }
  }

  // ---- the bound is reached ------------------------------------------------------------------------------

  /** What the first calls queue, one after the other, and what the crowd then forwards together. */
  datatype Scenario = Scenario(crowd: nat, tenant: string, lists: seq<seq<Entry>>, entries: seq<Entry>)

  function GroupOf(o: Options, sc: Scenario): seq<Entry> { Retenanted(sc.tenant, Kept(o, sc.entries)) }

  /** No group of the first calls is heavier than the crowd's, and with one of these they fit. */
  predicate Possible(gauge: Gauge, o: Options, sc: Scenario)
    requires o.batchMaxRows > 0
  {
    var groups := GroupsOf(o, sc.tenant, sc.lists);
    && sc.crowd > 0 && |sc.lists| + sc.crowd <= Capacity(o)
    && Room(WeightOf(gauge), WeightOf(gauge)(GroupOf(o, sc)), o, groups + [GroupOf(o, sc)])
  }

  /** What is queued before the crowd comes. */
  function Before(gauge: Gauge, o: Options, sc: Scenario): nat { QueueWeight(WeightOf(gauge), GroupsOf(o, sc.tenant, sc.lists)) }

  lemma FilledShows(gauge: Gauge, o: Options, sc: Scenario)
    requires !gauge.NoGauge? && sc.crowd > 0
    ensures Shown(gauge, Filled(o, sc.crowd, sc.tenant, sc.lists)) == Before(gauge, o, sc)
  {
    FilledHolds(o, sc.crowd, sc.tenant, sc.lists);
  }

  /** What one group adds to a gauge. */
  function PlanWeight(gauge: Gauge, plan: Plan): nat { if gauge.ByteGauge? then plan.size else |plan.group| }

  lemma GroupShows(gauge: Gauge, o: Options, plan: Plan)
    requires !gauge.NoGauge? && plan == PlanOf(o, plan.base, plan.crowd, plan.tenant, plan.entries)
    ensures WeightOf(gauge)(plan.group) == PlanWeight(gauge, plan)
  {
    SizeIgnoresTenant(plan.tenant, Kept(o, plan.entries));
  }

  lemma LastStageShows(gauge: Gauge, plan: Plan)
    requires !gauge.NoGauge? && plan.crowd > 0
    ensures Shown(gauge, Stage(plan, CountingBytes, plan.crowd))
         == Shown(gauge, plan.base) + PlanWeight(gauge, plan) + (plan.crowd - 1) * PlanWeight(gauge, plan)
  {
    OneGroupMore(plan.crowd - 1, PlanWeight(gauge, plan));
  }

  lemma CrowdFits(gauge: Gauge, o: Options, sc: Scenario)
    requires o.batchMaxRows > 0 && Possible(gauge, o, sc)
    ensures Fits(o, PlanOf(o, Filled(o, sc.crowd, sc.tenant, sc.lists), sc.crowd, sc.tenant, sc.entries))
  {
    var groups := GroupsOf(o, sc.tenant, sc.lists);
    RoomBefore(WeightOf(gauge), WeightOf(gauge)(GroupOf(o, sc)), o, groups, GroupOf(o, sc));
    FilledHolds(o, sc.crowd, sc.tenant, sc.lists);
    SizeIgnoresTenant(sc.tenant, Kept(o, sc.entries));
  }

  /**
   For every crowd and every group: after calls one after the other that leave
   room for exactly one such group, some run in which no more than the crowd
   overlap queues a group from each. The gauge then shows the bound of
   LimitsHoldUpToTheCrowd.
   */
  lemma OvershootIsReached(gauge: Gauge, o: Options, sc: Scenario) returns (es: seq<Event>, s: State)
    requires o.batchMaxRows > 0 && !gauge.NoGauge? && Possible(gauge, o, sc)
    ensures CrowdedRun(WeightOf(gauge), sc.crowd, WeightOf(gauge)(GroupOf(o, sc)), o, sc.crowd, es)
    ensures Execute(o, sc.crowd, es) == Some(s)
    ensures Shown(gauge, s) == Before(gauge, o, sc) + WeightOf(gauge)(GroupOf(o, sc)) + (sc.crowd - 1) * WeightOf(gauge)(GroupOf(o, sc))
    ensures Before(gauge, o, sc) + WeightOf(gauge)(GroupOf(o, sc)) == LimitOf(o, gauge) ==>
      Shown(gauge, s) == LimitOf(o, gauge) + (sc.crowd - 1) * WeightOf(gauge)(GroupOf(o, sc))
  {
    var w, largest := WeightOf(gauge), WeightOf(gauge)(GroupOf(o, sc));
    var plan := PlanOf(o, Filled(o, sc.crowd, sc.tenant, sc.lists), sc.crowd, sc.tenant, sc.entries);
    RoomBefore(w, largest, o, GroupsOf(o, sc.tenant, sc.lists), GroupOf(o, sc));
    es := FillingRuns(w, largest, o, sc.crowd, sc.tenant, sc.lists);
    CrowdFits(gauge, o, sc);
    FilledHolds(o, sc.crowd, sc.tenant, sc.lists);
    ScriptRuns(w, largest, o, es, plan, CountingBytes, sc.crowd);
    es, s := Script(es, plan, CountingBytes, sc.crowd), Stage(plan, CountingBytes, sc.crowd);
    FilledShows(gauge, o, sc);
    GroupShows(gauge, o, plan);
    LastStageShows(gauge, plan);
  }

  /** In this run, if it is no more crowded than stated, the gauge keeps to the limit. */
  ghost predicate Keeps(gauge: Gauge, crowd: nat, largest: nat, o: Options, n: nat, es: seq<Event>)
    requires o.batchMaxRows > 0
  {
    CrowdedRun(WeightOf(gauge), crowd, largest, o, n, es) ==> Shown(gauge, Execute(o, n, es).value) <= LimitOf(o, gauge)
  }

  lemma AloneKeeps(gauge: Gauge, o: Options, largest: nat, n: nat, es: seq<Event>)
    requires o.batchMaxRows > 0 && !gauge.NoGauge? && LimitOf(o, gauge) > 0
    ensures Keeps(gauge, 1, largest, o, n, es)
  {
    if CrowdedRun(WeightOf(gauge), 1, largest, o, n, es) {
      LimitsHoldUpToTheCrowd(gauge, 1, largest, o, n, es);
    }
  }

  /**
   Where calls can fill the limit to within one group of the heaviest, it is kept
   in every run of at most `crowd` overlapping calls if and only if calls do not
   overlap.
   */
  lemma LimitKeptIffNoOverlap(gauge: Gauge, o: Options, sc: Scenario)
    requires o.batchMaxRows > 0 && !gauge.NoGauge? && LimitOf(o, gauge) > 0 && Possible(gauge, o, sc)
    requires WeightOf(gauge)(GroupOf(o, sc)) > 0
    requires Before(gauge, o, sc) + WeightOf(gauge)(GroupOf(o, sc)) == LimitOf(o, gauge)
    ensures (forall es :: Keeps(gauge, sc.crowd, WeightOf(gauge)(GroupOf(o, sc)), o, sc.crowd, es)) <==> sc.crowd == 1
  {
    var largest := WeightOf(gauge)(GroupOf(o, sc));
    if sc.crowd == 1 {
      forall es ensures Keeps(gauge, 1, largest, o, 1, es) {
        AloneKeeps(gauge, o, largest, 1, es);
      }
    } else {
      var es := CrowdExceeds(gauge, o, sc, largest);
    }
  }

  lemma CrowdExceeds(gauge: Gauge, o: Options, sc: Scenario, largest: nat) returns (es: seq<Event>)
    requires o.batchMaxRows > 0 && !gauge.NoGauge? && Possible(gauge, o, sc) && sc.crowd >= 2
    requires 0 < largest == WeightOf(gauge)(GroupOf(o, sc)) && Before(gauge, o, sc) + largest == LimitOf(o, gauge)
    ensures !Keeps(gauge, sc.crowd, largest, o, sc.crowd, es)
  {
    var s;
    es, s := OvershootIsReached(gauge, o, sc);
    FewerWeighLess(1, sc.crowd - 1, largest);
  }

  // ---- every message limit and every size of group ------------------------------------------------------

  function Copies(m: Entry, n: nat): seq<Entry> { seq(n, _ => m) }

  /** Copies of a message that passes the filters are all kept. */
  lemma {:induction false} CopiesAreKept(o: Options, m: Entry, n: nat)
    requires Passes(o, m)
    ensures Kept(o, Copies(m, n)) == Copies(m, n)
  {
    if n > 0 {
      assert Copies(m, n)[..n - 1] == Copies(m, n - 1);
      CopiesAreKept(o, m, n - 1);
    }
  }

  /** Lists of at most `largest` copies, `rest` altogether. */
  function Fillers(m: Entry, rest: nat, largest: nat): seq<seq<Entry>>
    requires largest > 0
  {
    if rest == 0 then []
    else
      var n := if rest <= largest then rest else largest;
      Fillers(m, rest - n, largest) + [Copies(m, n)]
  }

  /** What is queued of n copies. */
  function CopyGroup(o: Options, m: Entry, n: nat): seq<Entry> { Retenanted(m.tenant, Kept(o, Copies(m, n))) }

  /** A weight that does not depend on the tenant. */
  ghost predicate Blind(w: Weight) { forall tenant, g :: w(Retenanted(tenant, g)) == w(g) }

  lemma GaugesAreBlind()
    ensures Blind(Count()) && Blind(Bytes())
  {
    var w := Bytes();
    forall tenant, g ensures w(Retenanted(tenant, g)) == w(g) {
      SizeIgnoresTenant(tenant, g);
    }
  }

  lemma CopiesJoin(w: Weight, m: Entry, a: nat, b: nat)
    requires Additive(w)
    ensures w(Copies(m, a + b)) == w(Copies(m, a)) + w(Copies(m, b))
  {
    assert Copies(m, a) + Copies(m, b) == Copies(m, a + b);
    assert w(Copies(m, a) + Copies(m, b)) == w(Copies(m, a)) + w(Copies(m, b));
  }

  lemma GroupsOfMore(o: Options, tenant: string, lists: seq<seq<Entry>>, entries: seq<Entry>)
    ensures GroupsOf(o, tenant, lists + [entries]) == GroupsOf(o, tenant, lists) + [Retenanted(tenant, Kept(o, entries))]
  {
    assert (lists + [entries])[..|lists|] == lists;
  }

  /** One more list of copies weighs what the copies weigh. */
  lemma OneListMore(w: Weight, o: Options, m: Entry, lists: seq<seq<Entry>>, total: nat, n: nat)
    requires Additive(w) && Blind(w) && Passes(o, m) && QueueWeight(w, GroupsOf(o, m.tenant, lists)) == w(Copies(m, total))
    ensures QueueWeight(w, GroupsOf(o, m.tenant, lists + [Copies(m, n)])) == w(Copies(m, total + n))
  {
    GroupsOfMore(o, m.tenant, lists, Copies(m, n));
    CopiesAreKept(o, m, n);
    QueueWeightAppend(w, GroupsOf(o, m.tenant, lists), CopyGroup(o, m, n));
    CopiesJoin(w, m, total, n);
  }

  lemma {:induction false} FillersWeigh(w: Weight, o: Options, m: Entry, rest: nat, largest: nat)
    requires Additive(w) && Blind(w) && Passes(o, m) && largest > 0
    ensures QueueWeight(w, GroupsOf(o, m.tenant, Fillers(m, rest, largest))) == w(Copies(m, rest))
  {
    if rest == 0 {
      assert Copies(m, 0) == [];
    } else {
      var n := if rest <= largest then rest else largest;
      FillersWeigh(w, o, m, rest - n, largest);
      OneListMore(w, o, m, Fillers(m, rest - n, largest), rest - n, n);
    }
  }

  predicate Sized(largest: nat, groups: seq<seq<Entry>>) { forall i :: 0 <= i < |groups| ==> 0 < |groups[i]| <= largest }

  lemma {:induction false} FillersAreSized(o: Options, m: Entry, rest: nat, largest: nat)
    requires Passes(o, m) && largest > 0
    ensures Sized(largest, GroupsOf(o, m.tenant, Fillers(m, rest, largest)))
  {
    if rest > 0 {
      var n := if rest <= largest then rest else largest;
      FillersAreSized(o, m, rest - n, largest);
      OneListSized(o, m, Fillers(m, rest - n, largest), largest, n);
    }
  }

  lemma AppendSized(largest: nat, groups: seq<seq<Entry>>, g: seq<Entry>)
    requires Sized(largest, groups) && 0 < |g| <= largest
    ensures Sized(largest, groups + [g])
  {
  }

  lemma CopyGroupSize(o: Options, m: Entry, n: nat)
    requires Passes(o, m)
    ensures |CopyGroup(o, m, n)| == n
  {
    CopiesAreKept(o, m, n);
  }

  lemma OneListSized(o: Options, m: Entry, lists: seq<seq<Entry>>, largest: nat, n: nat)
    requires Passes(o, m) && 0 < n <= largest && Sized(largest, GroupsOf(o, m.tenant, lists))
    ensures Sized(largest, GroupsOf(o, m.tenant, lists + [Copies(m, n)]))
    ensures Sized(largest, GroupsOf(o, m.tenant, lists) + [CopyGroup(o, m, n)])
  {
    CopyGroupSize(o, m, n);
    AppendSized(largest, GroupsOf(o, m.tenant, lists), CopyGroup(o, m, n));
    GroupsOfMore(o, m.tenant, lists, Copies(m, n));
  }

  /** One of the crowd's groups after those of the first calls weighs what all the copies weigh. */
  lemma OneGroupAfter(w: Weight, o: Options, m: Entry, lists: seq<seq<Entry>>, total: nat, n: nat)
    requires Additive(w) && Blind(w) && Passes(o, m) && QueueWeight(w, GroupsOf(o, m.tenant, lists)) == w(Copies(m, total))
    ensures QueueWeight(w, GroupsOf(o, m.tenant, lists) + [CopyGroup(o, m, n)]) == w(Copies(m, total + n))
  {
    OneListMore(w, o, m, lists, total, n);
    GroupsOfMore(o, m.tenant, lists, Copies(m, n));
  }

  lemma CountsFill(o: Options, m: Entry, rest: nat, largest: nat)
    requires Passes(o, m) && largest > 0
    ensures var groups := GroupsOf(o, m.tenant, Fillers(m, rest, largest));
      QueueWeight(Count(), groups) == rest && QueueWeight(Count(), groups + [CopyGroup(o, m, largest)]) == rest + largest
  {
    GaugesAdd();
    GaugesAreBlind();
    FillersWeigh(Count(), o, m, rest, largest);
    OneGroupAfter(Count(), o, m, Fillers(m, rest, largest), rest, largest);
  }

  lemma BytesFill(o: Options, m: Entry, rest: nat, largest: nat)
    requires Passes(o, m) && largest > 0
    ensures var groups := GroupsOf(o, m.tenant, Fillers(m, rest, largest));
      QueueWeight(Bytes(), groups + [CopyGroup(o, m, largest)]) == SizeOf(Copies(m, rest + largest))
  {
    GaugesAdd();
    GaugesAreBlind();
    FillersWeigh(Bytes(), o, m, rest, largest);
    OneGroupAfter(Bytes(), o, m, Fillers(m, rest, largest), rest, largest);
  }

  /**
   For every message limit, every size of group up to it and every crowd of two
   or more that the channel has room for, if the byte limit lets the message limit
   be filled, some run of that many producers exceeds it by all but one of their
   groups.
   */
  lemma MessageLimitIsExceeded(o: Options, m: Entry, largest: nat, crowd: nat) returns (es: seq<Event>, s: State)
    requires o.batchMaxRows > 0 && Passes(o, m) && 0 < largest <= o.queueMaxMessages && crowd >= 2
    requires |Fillers(m, o.queueMaxMessages - largest, largest)| + crowd <= Capacity(o)
    requires o.queueMaxBytes > 0 ==> SizeOf(Copies(m, o.queueMaxMessages)) <= o.queueMaxBytes
    ensures CrowdedRun(Count(), crowd, largest, o, crowd, es) && Execute(o, crowd, es) == Some(s)
    ensures s.queued == o.queueMaxMessages + (crowd - 1) * largest > o.queueMaxMessages
  {
    var groups, g := CopiesSuit(o, m, largest, crowd);
    es, s := MessagesOvershoot(o, CopyScenario(o, m, largest, crowd), largest, groups, g);
  }

  lemma CopiesHaveRoom(o: Options, m: Entry, largest: nat, groups: seq<seq<Entry>>)
    requires o.batchMaxRows > 0 && Sized(largest, groups) && |groups| <= Capacity(o)
    requires QueueWeight(Count(), groups) == o.queueMaxMessages
    requires o.queueMaxBytes > 0 ==> QueueWeight(Bytes(), groups) <= o.queueMaxBytes
    ensures Room(Count(), largest, o, groups)
  {
  }

  /** Everything that is queued while the crowd has one group in it. */
  function WithOne(o: Options, m: Entry, largest: nat): seq<seq<Entry>>
    requires 0 < largest <= o.queueMaxMessages
  {
    GroupsOf(o, m.tenant, Fillers(m, o.queueMaxMessages - largest, largest)) + [CopyGroup(o, m, largest)]
  }

  lemma WithOneIsSized(o: Options, m: Entry, largest: nat)
    requires Passes(o, m) && 0 < largest <= o.queueMaxMessages
    ensures Sized(largest, WithOne(o, m, largest))
    ensures |WithOne(o, m, largest)| == |Fillers(m, o.queueMaxMessages - largest, largest)| + 1
  {
    var lists := Fillers(m, o.queueMaxMessages - largest, largest);
    FillersAreSized(o, m, o.queueMaxMessages - largest, largest);
    OneListSized(o, m, lists, largest, largest);
    GroupCount(o, m.tenant, lists);
  }

  lemma WithOneCounts(o: Options, m: Entry, largest: nat)
    requires Passes(o, m) && 0 < largest <= o.queueMaxMessages
    ensures QueueWeight(Count(), WithOne(o, m, largest)) == o.queueMaxMessages
  {
    CountsFill(o, m, o.queueMaxMessages - largest, largest);
  }

  lemma WithOneBytes(o: Options, m: Entry, largest: nat)
    requires Passes(o, m) && 0 < largest <= o.queueMaxMessages
    ensures QueueWeight(Bytes(), WithOne(o, m, largest)) == SizeOf(Copies(m, o.queueMaxMessages))
  {
    BytesFill(o, m, o.queueMaxMessages - largest, largest);
  }

  lemma WithOneHasRoom(o: Options, m: Entry, largest: nat, crowd: nat)
    requires o.batchMaxRows > 0 && Passes(o, m) && 0 < largest <= o.queueMaxMessages && crowd >= 1
    requires |Fillers(m, o.queueMaxMessages - largest, largest)| + crowd <= Capacity(o)
    requires o.queueMaxBytes > 0 ==> SizeOf(Copies(m, o.queueMaxMessages)) <= o.queueMaxBytes
    ensures Room(Count(), largest, o, WithOne(o, m, largest))
  {
    WithOneIsSized(o, m, largest);
    WithOneCounts(o, m, largest);
    WithOneBytes(o, m, largest);
    CopiesHaveRoom(o, m, largest, WithOne(o, m, largest));
  }

  lemma MessagesOvershoot(o: Options, sc: Scenario, largest: nat, groups: seq<seq<Entry>>, g: seq<Entry>)
    returns (es: seq<Event>, s: State)
    requires o.batchMaxRows > 0 && sc.crowd >= 2 && |sc.lists| + sc.crowd <= Capacity(o) && 0 < largest == |g|
    requires groups == GroupsOf(o, sc.tenant, sc.lists) && g == GroupOf(o, sc) && Room(Count(), largest, o, groups + [g])
    requires QueueWeight(Count(), groups) + largest == o.queueMaxMessages
    ensures CrowdedRun(Count(), sc.crowd, largest, o, sc.crowd, es) && Execute(o, sc.crowd, es) == Some(s)
    ensures s.queued == o.queueMaxMessages + (sc.crowd - 1) * largest > o.queueMaxMessages
  {
    PossibleWithRoom(o, sc, largest, groups, g);
    es, s := OvershootIsReached(MessageGauge, o, sc);
    FewerWeighLess(1, sc.crowd - 1, largest);
  }

  /** What the first calls and the crowd forward for these limits. */
  function CopyScenario(o: Options, m: Entry, largest: nat, crowd: nat): Scenario
    requires 0 < largest <= o.queueMaxMessages
  {
    Scenario(crowd, m.tenant, Fillers(m, o.queueMaxMessages - largest, largest), Copies(m, largest))
  }

  lemma CopiesSuit(o: Options, m: Entry, largest: nat, crowd: nat) returns (groups: seq<seq<Entry>>, g: seq<Entry>)
    requires o.batchMaxRows > 0 && Passes(o, m) && 0 < largest <= o.queueMaxMessages && crowd >= 2
    requires |Fillers(m, o.queueMaxMessages - largest, largest)| + crowd <= Capacity(o)
    requires o.queueMaxBytes > 0 ==> SizeOf(Copies(m, o.queueMaxMessages)) <= o.queueMaxBytes
    ensures groups == GroupsOf(o, m.tenant, CopyScenario(o, m, largest, crowd).lists)
    ensures g == GroupOf(o, CopyScenario(o, m, largest, crowd)) && |g| == largest && Room(Count(), largest, o, groups + [g])
    ensures QueueWeight(Count(), groups) + largest == o.queueMaxMessages
  {
    groups, g := GroupsOf(o, m.tenant, Fillers(m, o.queueMaxMessages - largest, largest)), CopyGroup(o, m, largest);
    CopyGroupSize(o, m, largest);
    CountsFill(o, m, o.queueMaxMessages - largest, largest);
    WithOneHasRoom(o, m, largest, crowd);
  }

  lemma PossibleWithRoom(o: Options, sc: Scenario, largest: nat, groups: seq<seq<Entry>>, g: seq<Entry>)
    requires o.batchMaxRows > 0 && sc.crowd > 0 && |sc.lists| + sc.crowd <= Capacity(o)
    requires groups == GroupsOf(o, sc.tenant, sc.lists) && g == GroupOf(o, sc) && |g| == largest
    requires Room(Count(), largest, o, groups + [g])
    ensures Possible(MessageGauge, o, sc) && Before(MessageGauge, o, sc) == QueueWeight(Count(), groups)
  {
  }

  lemma {:induction false} GroupCount(o: Options, tenant: string, lists: seq<seq<Entry>>)
    ensures |GroupsOf(o, tenant, lists)| == |lists|
  {
    if lists != [] {
      GroupCount(o, tenant, lists[..|lists| - 1]);
    }
  }
}
