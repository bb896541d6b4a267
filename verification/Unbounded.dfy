/** Without the start assumption of ActiveBound the active pipelines have no bound at all. */
module Unbounded {
  import opened Wrappers
  import opened Cel
  import opened Api
  import opened Compiler
  import opened Extraction
  import opened Planning
  import opened Processing
  import opened ActiveBound
  import opened Sequences

  /** A run in which events are taken whether or not what was created before has started. */
  ghost predicate IsFreeRun(l: Limits, states: seq<seq<ClusterPipeline>>, changes: seq<Change>) {
    && |states| == |changes| + 1
    && forall i :: 0 <= i < |changes| ==> Happens(l, states[i], states[i + 1], changes[i])
  }

  ghost function Final(states: seq<seq<ClusterPipeline>>): seq<ClusterPipeline>
    requires states != []
  {
    states[|states| - 1]
  }

  lemma OneMoreStep(
    l: Limits, states: seq<seq<ClusterPipeline>>, changes: seq<Change>, s: seq<ClusterPipeline>, c: Change)
    requires IsFreeRun(l, states, changes) && Happens(l, Final(states), s, c)
    ensures IsFreeRun(l, states + [s], changes + [c])
  {
    var states', changes' := states + [s], changes + [c];
    forall i | 0 <= i < |changes'| ensures Happens(l, states'[i], states'[i + 1], changes'[i]) {
      if i < |changes| { assert Happens(l, states[i], states[i + 1], changes[i]); }
    }
  }

  // ----- The same event, again and again -----

  /** What k times the same event leaves behind while nothing starts. */
  function Burst(created: seq<PipelineView>, k: nat): seq<ClusterPipeline> {
    if k == 0 then [] else Burst(created, k - 1) + Submitted(created)
  }

  ghost predicate Unstarted(ps: seq<ClusterPipeline>) {
    forall i :: 0 <= i < |ps| ==> IsScheduled(ps[i]) && !ps[i].started && !ps[i].completed
  }

  lemma {:induction false} UnstartedIsInvisible(ps: seq<ClusterPipeline>)
    requires Unstarted(ps)
    ensures ActiveCount(ps) == 0
  {
    if ps != [] { UnstartedIsInvisible(ps[..|ps| - 1]); }
  }

  lemma {:induction false} BurstIsUnstarted(created: seq<PipelineView>, k: nat)
    requires forall v :: v in created ==> IsScheduled(ClusterPipeline(v, false, false))
    ensures Unstarted(Burst(created, k)) && |Burst(created, k)| == k * |created|
  {
    if k > 0 {
      BurstIsUnstarted(created, k - 1);
      OneMore(k - 1, |created|);
    }
  }

  /** The event is small enough, and an empty cluster accepts it. */
  ghost predicate IsAccepted(l: Limits, c: Change) {
    && c.Event? && c.err.None?
    && |c.reports| <= l.reports && |c.policies| <= l.policies
    && ProcessAllows(l.settings, c.faults, [], c.policies, c.reports, c.created, None)
  }

  lemma CreatedIsScheduled(l: Limits, c: Change)
    requires IsAccepted(l, c)
    ensures forall v :: v in c.created ==> IsScheduled(ClusterPipeline(v, false, false))
  {
    forall v | v in c.created ensures IsScheduled(ClusterPipeline(v, false, false)) {
      var _ := CreatedIsTemplateThenExtracted(l.settings, c.faults, [], c.policies, c.reports, c.created, None, v);
    }
  }

  lemma {:induction false} RepeatedEvent(l: Limits, c: Change, k: nat)
    returns (states: seq<seq<ClusterPipeline>>, changes: seq<Change>)
    requires IsAccepted(l, c)
    ensures IsFreeRun(l, states, changes) && states[0] == [] && Final(states) == Burst(c.created, k)
  {
    if k == 0 {
      return [[]], [];
    }
    states, changes := RepeatedEvent(l, c, k - 1);
    CreatedIsScheduled(l, c);
    BurstIsUnstarted(c.created, k - 1);
    UnstartedIsInvisible(Burst(c.created, k - 1));
    OneMoreStep(l, states, changes, Burst(c.created, k), c);
    states, changes := states + [Burst(c.created, k)], changes + [c];
  }

  // ----- Then everything starts -----

  /** The first j pipelines have started. */
  function StartedUpTo(ps: seq<ClusterPipeline>, j: nat): seq<ClusterPipeline>
    requires j <= |ps|
  {
    seq(|ps|, i requires 0 <= i < |ps| => if i < j then ps[i].(started := true) else ps[i])
  }

  lemma {:induction false} AllStart(
    l: Limits, states: seq<seq<ClusterPipeline>>, changes: seq<Change>, ps: seq<ClusterPipeline>, j: nat)
    returns (states': seq<seq<ClusterPipeline>>, changes': seq<Change>)
    requires IsFreeRun(l, states, changes) && Final(states) == ps && Unstarted(ps) && j <= |ps|
    ensures IsFreeRun(l, states', changes') && states'[0] == states[0] && Final(states') == StartedUpTo(ps, j)
  {
    if j == 0 {
      assert StartedUpTo(ps, 0) == ps;
      return states, changes;
    }
    states', changes' := AllStart(l, states, changes, ps, j - 1);
    var next, start := StartedUpTo(ps, j), Own(Progress(j - 1, true, false));
    OneStarts(ps, j - 1);
    OneMoreStep(l, states', changes', next, start);
    states', changes' := states' + [next], changes' + [start];
  }

  lemma OneStarts(ps: seq<ClusterPipeline>, j: nat)
    requires j < |ps| && Unstarted(ps)
    ensures Drifts(StartedUpTo(ps, j), StartedUpTo(ps, j + 1), Progress(j, true, false))
  {
  }

  lemma {:induction false} StartedCounts(ps: seq<ClusterPipeline>)
    requires Unstarted(ps)
    ensures ActiveCount(StartedUpTo(ps, |ps|)) == |ps|
  {
    if ps != [] {
      var init := ps[..|ps| - 1];
      StartedCounts(init);
      assert StartedUpTo(ps, |ps|)[..|init|] == StartedUpTo(init, |init|);
    }
  }

  /** For every n there is a run from the empty cluster, under the same limits, that ends with at least n
      active pipelines, as soon as there is an event that creates something in an empty cluster: take it n
      times, and then let everything start. */
  lemma NoBoundWithoutStarts(l: Limits, c: Change, n: nat)
    returns (states: seq<seq<ClusterPipeline>>, changes: seq<Change>)
    requires IsAccepted(l, c) && c.created != []
    ensures IsFreeRun(l, states, changes) && states[0] == [] && ActiveCount(Final(states)) >= n
  {
    var ps := Burst(c.created, n);
    CreatedIsScheduled(l, c);
    BurstIsUnstarted(c.created, n);
    states, changes := RepeatedEvent(l, c, n);
    states, changes := AllStart(l, states, changes, ps, |ps|);
    StartedCounts(ps);
    Scale(1, |c.created|, n);
  }

  // ----- And there is such an event -----

  const SMALL_REPORT: Report := map[ACTION_ID := StringVal("a")]

  /** Every expression compiles; "match" is true, any other gives a target. */
  function SmallEngine(): Engine {
    Engine(
      source => Ok(Program(source)),
      (p: Program, a: Activation) =>
        Ok(if p.code == "match" then BoolVal(true) else StringMapVal(map["identifier" := "x"])))
  }

  function SmallPolicy(): PolicyView {
    PolicyView(
      Policy("p", "ns", "uid", 1, false, [], [Condition(READY, ConditionTrue, "CELCompiled", "", 1)],
             Expressions("match", "target", None, None, None)),
      TemplateView(map[], map[], "profile", "downloader", [], []))
  }

  /** Threshold 1, one pipeline per policy, one report, one policy. */
  function SmallLimits(): Limits {
    Limits(Settings(SmallEngine(), 1, 1), 1, 1)
  }

  function SmallView(): PipelineView {
    Instance(SmallPolicy(), "a", PipelineValues(Target("x", ""), [], []))
  }

  function SmallEvent(): Change {
    Change.Event(Faults(false, false, _ => false), [SmallPolicy()], [SMALL_REPORT], [SmallView()], None)
  }

  lemma SmallPlan()
    ensures PlanPolicy(SmallEngine(), 1, SmallPolicy().policy, SMALL_REPORT) ==
            Some([Planned(Target("x", ""), map[], map[])])
  {
    var c := CompiledPolicy(1, Program("match"), Program("target"), None, None, None);
    assert Compiled(SmallEngine(), SmallPolicy().policy.exprs, 1) == Ok(c);
    ExtractionIsAllOrNothingAndPositional(SmallEngine(), c, SMALL_REPORT);
  }

  lemma SmallPlans()
    ensures PlanReports(SmallEngine(), 1, [SmallPolicy()], [SMALL_REPORT]) ==
            Some([PlannedGroup(SmallPolicy(), "a", SMALL_REPORT, [Planned(Target("x", ""), map[], map[])])])
  {
    SmallPlan();
    var pv, r := SmallPolicy(), SMALL_REPORT;
    FlatMapOfOne(pv, Asks(SmallEngine(), 1, "a", r));
    assert [r][..0] == [] && ActionID(r) == Some("a");
    assert PlanReports(SmallEngine(), 1, [pv], [r][..0]) == Some([]);
  }

  lemma SmallEventIsAccepted()
    ensures IsAccepted(SmallLimits(), SmallEvent()) && SmallEvent().created != []
  {
    SmallPlans();
    var plan := Planned(Target("x", ""), map[], map[]);
    var group := PlannedGroup(SmallPolicy(), "a", SMALL_REPORT, [plan]);
    FlatMapOfOne(group, PlannedIn);
    assert AllPlanned([group]) == [PlannedPipeline(SmallPolicy(), "a", plan)];
    InstanceFits(SmallPolicy(), "a", PipelineValues(Target("x", ""), [], []), plan);
    assert FitAll([SmallView()], AllPlanned([group]));
    assert [SmallView()][..0] == [];
    assert Accepted([SmallView()], SmallEvent().faults.rejects) == [SmallView()];
    assert CreatesAsPlanned(AllPlanned([group]), SmallEvent().faults.rejects, [SmallView()]);
  }

  /** So under some fixed limits no number bounds the active pipelines of the runs from the empty cluster. */
  lemma SomeLimitsHaveNoBound(n: nat) returns (states: seq<seq<ClusterPipeline>>, changes: seq<Change>)
    ensures SmallLimits().settings.threshold > 0 && SmallLimits().settings.cap > 0
    ensures IsFreeRun(SmallLimits(), states, changes) && states[0] == [] && ActiveCount(Final(states)) >= n
  {
    SmallEventIsAccepted();
    states, changes := NoBoundWithoutStarts(SmallLimits(), SmallEvent(), n);
  }
}
