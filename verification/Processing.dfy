/** What processing one event may do to the cluster, and what it may answer. */
module Processing {
  import opened Wrappers
  import opened Cel
  import opened Extraction
  import opened Planning

  /** A pipeline in the cluster: its contents, and whether its start and completion times are set. */
  datatype ClusterPipeline = ClusterPipeline(view: PipelineView, started: bool, completed: bool)

  datatype ProcessError = CountFailed | ThresholdReached | PoliciesFailed | BadActionID

  datatype Settings = Settings(cel: Engine, threshold: int, cap: int)

  /** What the API server does while one event is processed: which lists fail, which creations it rejects. */
  datatype Faults = Faults(countFails: bool, policiesFail: bool, rejects: nat -> bool)

  // ----- Active pipelines -----

  predicate IsActive(p: ClusterPipeline) {
    p.started && !p.completed
  }

  predicate IsScheduled(p: ClusterPipeline) {
    SCHEDULER_LABEL in p.view.labels && p.view.labels[SCHEDULER_LABEL] == SCHEDULER_VALUE
  }

  function ActiveCount(ps: seq<ClusterPipeline>): nat {
    if ps == [] then 0
    else ActiveCount(ps[..|ps| - 1]) + (if IsScheduled(ps[|ps| - 1]) && IsActive(ps[|ps| - 1]) then 1 else 0)
  }

  /** What happens to the cluster between two events: a pipeline starts or completes, one is removed, or
      somebody else creates one. */
  datatype Drift =
    | Progress(at: nat, started: bool, completed: bool)
    | Vanish(at: nat)
    | Foreign(pipeline: ClusterPipeline)

  ghost predicate Drifts(s: seq<ClusterPipeline>, s': seq<ClusterPipeline>, d: Drift) {
    match d
    case Progress(i, started, completed) =>
      && i < |s|
      && (s[i].started ==> started) && (s[i].completed ==> completed)
      && s' == s[..i] + [s[i].(started := started, completed := completed)] + s[i + 1..]
    case Vanish(i) => i < |s| && s' == s[..i] + s[i + 1..]
    case Foreign(p) => !IsScheduled(p) && s' == s + [p]
  }

  // ----- Creating -----

  /** The pipelines whose creation is not rejected, in order. */
  function Accepted(views: seq<PipelineView>, rejects: nat -> bool): seq<PipelineView> {
    if views == [] then []
    else Accepted(views[..|views| - 1], rejects) + (if rejects(|views| - 1) then [] else [views[|views| - 1]])
  }

  /** Pipelines as they enter the cluster, with an empty status. */
  function Submitted(views: seq<PipelineView>): (r: seq<ClusterPipeline>)
    ensures |r| == |views| && forall i :: 0 <= i < |r| ==> r[i] == ClusterPipeline(views[i], false, false)
  {
    seq(|views|, i requires 0 <= i < |views| => ClusterPipeline(views[i], false, false))
  }

  ghost predicate FitAll(views: seq<PipelineView>, planned: seq<PlannedPipeline>) {
    && |views| == |planned|
    && forall i :: 0 <= i < |views| ==> Fits(views[i], planned[i].policy, planned[i].actionID, planned[i].values)
  }

  /** `created` is what the API server accepted of everything the reports ask for. */
  ghost predicate CreatesAsPlanned(planned: seq<PlannedPipeline>, rejects: nat -> bool, created: seq<PipelineView>) {
    exists views :: FitAll(views, planned) && created == Accepted(views, rejects)
  }

  /** The contract of processReports: refuse first, plan everything next, create last. */
  ghost predicate ProcessAllows(s: Settings, f: Faults, before: seq<ClusterPipeline>, policies: seq<PolicyView>,
                                reports: seq<Report>, created: seq<PipelineView>, err: Option<ProcessError>)
  {
    if s.threshold > 0 && f.countFails then err == Some(CountFailed) && created == []
    else if s.threshold > 0 && ActiveCount(before) >= s.threshold then err == Some(ThresholdReached) && created == []
    else if f.policiesFail then err == Some(PoliciesFailed) && created == []
    else
      match PlanReports(s.cel, s.cap, policies, reports)
      case None => err == Some(BadActionID) && created == []
      case Some(groups) => err == None && CreatesAsPlanned(AllPlanned(groups), f.rejects, created)
  }

  // ----- What follows from the contract -----

  lemma {:induction false} AcceptedComesFromViews(views: seq<PipelineView>, rejects: nat -> bool)
    ensures |Accepted(views, rejects)| <= |views|
    ensures forall v :: v in Accepted(views, rejects) ==> v in views
  {
    if views != [] { AcceptedComesFromViews(views[..|views| - 1], rejects); }
  }

  /** A failed event creates nothing, and so does an event with one bad report; a successful event
      had only good reports, and created no more than reports x policies x cap pipelines. */
  lemma ProcessingIsAllOrNothing(s: Settings, f: Faults, before: seq<ClusterPipeline>, policies: seq<PolicyView>,
                                 reports: seq<Report>, created: seq<PipelineView>, err: Option<ProcessError>)
    requires ProcessAllows(s, f, before, policies, reports, created, err)
    ensures err.Some? ==> created == []
    ensures (exists i :: 0 <= i < |reports| && ActionID(reports[i]).None?) ==> err.Some?
    ensures err.None? && s.cap > 0 ==> |created| <= |reports| * (|policies| * s.cap)
    ensures err.None? && s.threshold > 0 ==> ActiveCount(before) < s.threshold
  {
    OnlyABadReportRejects(s.cel, s.cap, policies, reports);
    if err.None? {
      var planned := AllPlanned(PlanReports(s.cel, s.cap, policies, reports).value);
      var views :| FitAll(views, planned) && created == Accepted(views, f.rejects);
      AcceptedComesFromViews(views, f.rejects);
      if s.cap > 0 { EventBound(s.cel, s.cap, policies, reports); }
    }
  }

  /** What a created pipeline holds: it is the template of a listed policy, with one ordering of the values that
      this policy extracted from one of the reports. */
  lemma CreatedIsTemplateThenExtracted(
    s: Settings, f: Faults, before: seq<ClusterPipeline>, policies: seq<PolicyView>, reports: seq<Report>,
    created: seq<PipelineView>, err: Option<ProcessError>, v: PipelineView)
    returns (p: PlannedPipeline)
    requires ProcessAllows(s, f, before, policies, reports, created, err) && v in created
    ensures TemplateThenExtracted(v, p.policy, p.actionID, p.values)
    ensures p.policy in policies && IsPlanned(s, p, reports)
  {
    p := CreatedIsCountable(s, f, before, policies, reports, created, err, v);
    FittingIsTemplateThenExtracted(v, p.policy, p.actionID, p.values);
  }

  /** Created implies countable: whatever the template says, a created pipeline carries the scheduler's
      label, lives in the namespace of a listed Ready policy and has a target extracted by it; so it
      counts as active exactly while it is started and not completed. */
  lemma CreatedIsCountable(s: Settings, f: Faults, before: seq<ClusterPipeline>, policies: seq<PolicyView>,
                           reports: seq<Report>, created: seq<PipelineView>, err: Option<ProcessError>, v: PipelineView)
    returns (p: PlannedPipeline)
    requires ProcessAllows(s, f, before, policies, reports, created, err) && v in created
    ensures Fits(v, p.policy, p.actionID, p.values) && p.policy in policies && IsPlanned(s, p, reports)
    ensures v.namespace == p.policy.policy.namespace && v.target == p.values.target
    ensures forall started, completed ::
              IsScheduled(ClusterPipeline(v, started, completed)) && IsActive(ClusterPipeline(v, started, completed))
              <==> started && !completed
  {
    var planned := AllPlanned(PlanReports(s.cel, s.cap, policies, reports).value);
    var i := CreatedIsPlanned(planned, f.rejects, created, v);
    p := planned[i];
    PlannedIsJustified(s, policies, reports, i);
  }

  lemma CreatedIsPlanned(
    planned: seq<PlannedPipeline>, rejects: nat -> bool, created: seq<PipelineView>, v: PipelineView)
    returns (i: nat)
    requires CreatesAsPlanned(planned, rejects, created) && v in created
    ensures i < |planned| && Fits(v, planned[i].policy, planned[i].actionID, planned[i].values)
  {
    var views :| FitAll(views, planned) && created == Accepted(views, rejects);
    AcceptedComesFromViews(views, rejects);
    i :| 0 <= i < |views| && views[i] == v;
  }

  /** The pipeline is one that some report asks of its policy. */
  ghost predicate IsPlanned(s: Settings, p: PlannedPipeline, reports: seq<Report>) {
    exists r :: r in reports && ActionID(r) == Some(p.actionID)
                && PlanPolicy(s.cel, s.cap, p.policy.policy, r).Some?
                && p.values in PlanPolicy(s.cel, s.cap, p.policy.policy, r).value
  }

  ghost predicate IsGrounded(s: Settings, g: PlannedGroup, policies: seq<PolicyView>, reports: seq<Report>) {
    && g.view in policies && g.report in reports && ActionID(g.report) == Some(g.actionID)
    && PlanPolicy(s.cel, s.cap, g.view.policy, g.report) == Some(g.values)
  }

  lemma {:induction false} GroupsAreGrounded(s: Settings, policies: seq<PolicyView>, reports: seq<Report>)
    requires PlanReports(s.cel, s.cap, policies, reports).Some?
    ensures forall g :: g in PlanReports(s.cel, s.cap, policies, reports).value ==> IsGrounded(s, g, policies, reports)
  {
    if reports != [] {
      var n := |reports| - 1;
      GroupsAreGrounded(s, policies, reports[..n]);
      PlannedGroupsAreJustified(s.cel, s.cap, policies, ActionID(reports[n]).value, reports[n]);
      forall g | g in PlanReports(s.cel, s.cap, policies, reports).value ensures IsGrounded(s, g, policies, reports) {
        if g in PlanReports(s.cel, s.cap, policies, reports[..n]).value {
          assert IsGrounded(s, g, policies, reports[..n]);
        }
      }
    }
  }

  lemma {:induction false} PlannedComesFromAGroup(groups: seq<PlannedGroup>, i: nat) returns (g: PlannedGroup)
    requires i < |AllPlanned(groups)|
    ensures g in groups && AllPlanned(groups)[i] in PlannedIn(g)
  {
    var n := |groups| - 1;
    if i < |AllPlanned(groups[..n])| {
      g := PlannedComesFromAGroup(groups[..n], i);
    } else {
      g := groups[n];
    }
  }

  lemma PlannedIsJustified(s: Settings, policies: seq<PolicyView>, reports: seq<Report>, i: nat)
    requires PlanReports(s.cel, s.cap, policies, reports).Some?
    requires i < |AllPlanned(PlanReports(s.cel, s.cap, policies, reports).value)|
    ensures var p := AllPlanned(PlanReports(s.cel, s.cap, policies, reports).value)[i];
            p.policy in policies && IsPlanned(s, p, reports)
  {
    var groups := PlanReports(s.cel, s.cap, policies, reports).value;
    var p := AllPlanned(groups)[i];
    GroupsAreGrounded(s, policies, reports);
    var g := PlannedComesFromAGroup(groups, i);
    assert IsGrounded(s, g, policies, reports);
    assert ActionID(g.report) == Some(p.actionID);
  }
}
