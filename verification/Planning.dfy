/** What a report asks of the listed policies: the pipelines it should generate, as plain values. */
module Planning {
  import opened Wrappers
  import opened Cel
  import opened Api
  import opened Compiler
  import opened Extraction
  import opened Sequences

  const SCHEDULER_LABEL := "chalk.ocular.crashoverride.run/scheduled-by"
  const SCHEDULER_VALUE := "chalkular-controller"

  // ----- Values -----

  datatype TemplateView = TemplateView(
    labels: map<string, string>,
    annotations: map<string, string>,
    profileName: string,
    downloaderName: string,
    downloaderParams: seq<Param>,
    profileParams: seq<Param>)

  datatype PolicyView = PolicyView(policy: Policy, template: TemplateView)

  datatype PipelineView = PipelineView(
    generateName: string,
    namespace: string,
    labels: map<string, string>,
    annotations: map<string, string>,
    profileName: string,
    downloaderName: string,
    target: Target,
    downloaderParams: seq<Param>,
    profileParams: seq<Param>)

  /** The pipeline a policy's template gives for one set of extracted values. */
  function Instance(pv: PolicyView, actionID: string, vs: PipelineValues): PipelineView {
    var t := pv.template;
    PipelineView(
      "chalkular-" + actionID + "-",
      pv.policy.namespace,
      t.labels[SCHEDULER_LABEL := SCHEDULER_VALUE],
      t.annotations,
      t.profileName,
      t.downloaderName,
      vs.target,
      t.downloaderParams + vs.downloaderParams,
      t.profileParams + vs.profileParams)
  }

  /** v is the template's instance for some ordering of the planned parameters. */
  ghost predicate Fits(v: PipelineView, pv: PolicyView, actionID: string, plan: Planned) {
    var d, p := |pv.template.downloaderParams|, |pv.template.profileParams|;
    && d <= |v.downloaderParams|
    && p <= |v.profileParams|
    && var own := PipelineValues(v.target, v.downloaderParams[d..], v.profileParams[p..]);
       Realizes(own, plan) && v == Instance(pv, actionID, own)
  }

  lemma InstanceFits(pv: PolicyView, actionID: string, vs: PipelineValues, plan: Planned)
    requires Realizes(vs, plan)
    ensures Fits(Instance(pv, actionID, vs), pv, actionID, plan)
  {
    var v := Instance(pv, actionID, vs);
    assert v.downloaderParams[|pv.template.downloaderParams|..] == vs.downloaderParams;
    assert v.profileParams[|pv.template.profileParams|..] == vs.profileParams;
  }

  /** Template first, extracted second, and everything else the template's: its parameters stand unchanged in
      front of one ordering of the planned ones, its labels and annotations are kept but for the scheduler's
      own label. */
  ghost predicate TemplateThenExtracted(v: PipelineView, pv: PolicyView, actionID: string, plan: Planned) {
    var t := pv.template;
    && t.downloaderParams <= v.downloaderParams
    && Lists(v.downloaderParams[|t.downloaderParams|..], plan.downloaderParams)
    && t.profileParams <= v.profileParams
    && Lists(v.profileParams[|t.profileParams|..], plan.profileParams)
    && v.generateName == "chalkular-" + actionID + "-"
    && v.namespace == pv.policy.namespace
    && SCHEDULER_LABEL in v.labels && v.labels[SCHEDULER_LABEL] == SCHEDULER_VALUE
    && v.labels - {SCHEDULER_LABEL} == t.labels - {SCHEDULER_LABEL}
    && v.annotations == t.annotations
    && v.profileName == t.profileName && v.downloaderName == t.downloaderName
    && v.target == plan.target
  }

  lemma FittingIsTemplateThenExtracted(v: PipelineView, pv: PolicyView, actionID: string, plan: Planned)
    ensures Fits(v, pv, actionID, plan) <==> TemplateThenExtracted(v, pv, actionID, plan)
  {
    var t := pv.template;
    if TemplateThenExtracted(v, pv, actionID, plan) {
      var own := PipelineValues(
        v.target, v.downloaderParams[|t.downloaderParams|..], v.profileParams[|t.profileParams|..]);
      assert v.labels == t.labels[SCHEDULER_LABEL := SCHEDULER_VALUE] by {
        assert forall k :: k in v.labels <==> k == SCHEDULER_LABEL || k in v.labels - {SCHEDULER_LABEL};
        assert forall k :: k in v.labels - {SCHEDULER_LABEL} ==> (v.labels - {SCHEDULER_LABEL})[k] == v.labels[k];
        assert forall k :: k in t.labels - {SCHEDULER_LABEL} ==> (t.labels - {SCHEDULER_LABEL})[k] == t.labels[k];
      }
      assert v == Instance(pv, actionID, own);
    }
  }

  // ----- What a report should generate -----

  datatype PlannedGroup = PlannedGroup(view: PolicyView, actionID: string, report: Report, values: seq<Planned>)

  /** What one policy asks for: nothing unless it is Ready, compiles, matches, extracts and stays within the cap. */
  function PlanPolicy(cel: Engine, cap: int, p: Policy, report: Report): Option<seq<Planned>> {
    if !IsConditionTrue(p.conditions, READY) then None
    else
      match Compiled(cel, p.exprs, p.generation)
      case Err(_) => None
      case Ok(c) =>
        if Matched(cel, c, report) != Some(true) then None
        else
          match Plan(cel, c, report)
          case Err(_) => None
          case Ok(values) => if cap > 0 && |values| > cap then None else Some(values)
  }

  function GroupOf(cel: Engine, cap: int, pv: PolicyView, actionID: string, report: Report): seq<PlannedGroup> {
    match PlanPolicy(cel, cap, pv.policy, report)
    case None => []
    case Some(values) => [PlannedGroup(pv, actionID, report, values)]
  }

  function Asks(cel: Engine, cap: int, actionID: string, report: Report): PolicyView -> seq<PlannedGroup> {
    pv => GroupOf(cel, cap, pv, actionID, report)
  }

  /** The groups of the policies that ask for something, in policy order. */
  function PlanReport(
      cel: Engine, cap: int, views: seq<PolicyView>, actionID: string, report: Report): seq<PlannedGroup>
  {
    FlatMap(views, Asks(cel, cap, actionID, report))
  }

  lemma OneMorePolicy(cel: Engine, cap: int, views: seq<PolicyView>, i: nat, actionID: string, report: Report)
    requires i < |views|
    ensures PlanReport(cel, cap, views[..i + 1], actionID, report) ==
            PlanReport(cel, cap, views[..i], actionID, report) + GroupOf(cel, cap, views[i], actionID, report)
  {
    FlatMapOneMore(views, Asks(cel, cap, actionID, report), i);
  }

  /** Policies do not affect each other: planning distributes over concatenation of the policy list. */
  lemma PoliciesAreIndependent(
      cel: Engine, cap: int, a: seq<PolicyView>, b: seq<PolicyView>, actionID: string, report: Report)
    ensures PlanReport(cel, cap, a + b, actionID, report) ==
            PlanReport(cel, cap, a, actionID, report) + PlanReport(cel, cap, b, actionID, report)
  {
    FlatMapOfBoth(a, b, Asks(cel, cap, actionID, report));
  }

  /** The group was asked for by its policy, which is Ready and compiles, and it respects the cap. */
  ghost predicate IsJustified(cel: Engine, cap: int, g: PlannedGroup) {
    && PlanPolicy(cel, cap, g.view.policy, g.report) == Some(g.values)
    && IsConditionTrue(g.view.policy.conditions, READY)
    && Compiles(cel, g.view.policy.exprs)
    && (cap > 0 ==> |g.values| <= cap)
  }

  lemma GroupIsJustified(cel: Engine, cap: int, pv: PolicyView, actionID: string, report: Report)
    ensures forall g :: g in GroupOf(cel, cap, pv, actionID, report) ==>
              IsJustified(cel, cap, g) && g.view == pv && g.actionID == actionID && g.report == report
    ensures |GroupOf(cel, cap, pv, actionID, report)| <= 1
  {
    CompilationIsExact(cel, pv.policy.exprs, pv.policy.generation, 0);
  }

  /** Every planned group stems from a listed policy that is Ready and compiles, and respects the cap. */
  lemma {:induction false} PlannedGroupsAreJustified(
      cel: Engine, cap: int, views: seq<PolicyView>, actionID: string, report: Report)
    ensures forall g :: g in PlanReport(cel, cap, views, actionID, report) ==>
              && IsJustified(cel, cap, g) && g.view in views
              && g.actionID == actionID && g.report == report
    ensures |PlanReport(cel, cap, views, actionID, report)| <= |views|
  {
    if views != [] {
      var n := |views| - 1;
      PlannedGroupsAreJustified(cel, cap, views[..n], actionID, report);
      GroupIsJustified(cel, cap, views[n], actionID, report);
    }
  }

  datatype PlannedPipeline = PlannedPipeline(policy: PolicyView, actionID: string, values: Planned)

  function PlannedIn(g: PlannedGroup): (r: seq<PlannedPipeline>)
    ensures |r| == |g.values|
  {
    seq(|g.values|, i requires 0 <= i < |g.values| => PlannedPipeline(g.view, g.actionID, g.values[i]))
  }

  function AllPlanned(groups: seq<PlannedGroup>): seq<PlannedPipeline> {
    FlatMap(groups, PlannedIn)
  }

  // ----- All reports of one event -----

  const ACTION_ID := "_ACTION_ID"

  function ActionID(report: Report): Option<string> {
    if ACTION_ID in report && report[ACTION_ID].StringVal? then Some(report[ACTION_ID].s) else None
  }

  /** None when some report has no usable action ID; otherwise all groups, report by report. */
  function PlanReports(cel: Engine, cap: int, views: seq<PolicyView>, reports: seq<Report>): Option<seq<PlannedGroup>> {
    if reports == [] then Some([])
    else
      var init := PlanReports(cel, cap, views, reports[..|reports| - 1]);
      var id := ActionID(reports[|reports| - 1]);
      if init.None? || id.None? then None
      else Some(init.value + PlanReport(cel, cap, views, id.value, reports[|reports| - 1]))
  }

  /** One bad report rejects the event, and nothing else does. */
  lemma {:induction false} OnlyABadReportRejects(cel: Engine, cap: int, views: seq<PolicyView>, reports: seq<Report>)
    ensures PlanReports(cel, cap, views, reports).Some? <==>
            forall i :: 0 <= i < |reports| ==> ActionID(reports[i]).Some?
  {
    if reports != [] {
      var n := |reports| - 1;
      OnlyABadReportRejects(cel, cap, views, reports[..n]);
      assert forall i :: 0 <= i < n ==> reports[..n][i] == reports[i];
    }
  }

  lemma OneMoreReport(cel: Engine, cap: int, views: seq<PolicyView>, reports: seq<Report>, i: nat)
    requires i < |reports| && PlanReports(cel, cap, views, reports[..i]).Some?
    ensures ActionID(reports[i]).Some? ==>
              PlanReports(cel, cap, views, reports[..i + 1]) ==
              Some(PlanReports(cel, cap, views, reports[..i]).value +
                   PlanReport(cel, cap, views, ActionID(reports[i]).value, reports[i]))
    ensures ActionID(reports[i]).None? ==> PlanReports(cel, cap, views, reports).None?
  {
    assert reports[..i + 1][..i] == reports[..i];
    OnlyABadReportRejects(cel, cap, views, reports);
  }

  // ----- How many pipelines that can be -----

  lemma {:induction false} GroupsBound(groups: seq<PlannedGroup>, cap: nat)
    requires forall i :: 0 <= i < |groups| ==> |groups[i].values| <= cap
    ensures |AllPlanned(groups)| <= |groups| * cap
  {
    if groups != [] {
      var n := |groups| - 1;
      GroupsBound(groups[..n], cap);
      OneMore(n, cap);
    }
  }

  lemma ReportBound(cel: Engine, cap: nat, views: seq<PolicyView>, actionID: string, report: Report)
    requires cap > 0
    ensures |AllPlanned(PlanReport(cel, cap, views, actionID, report))| <= |views| * cap
  {
    var groups := PlanReport(cel, cap, views, actionID, report);
    PlannedGroupsAreJustified(cel, cap, views, actionID, report);
    forall i | 0 <= i < |groups| ensures |groups[i].values| <= cap { assert groups[i] in groups; }
    GroupsBound(groups, cap);
    Scale(|groups|, |views|, cap);
  }

  /** With a cap per policy, one event generates at most reports x policies x cap pipelines. */
  lemma {:induction false} EventBound(cel: Engine, cap: nat, views: seq<PolicyView>, reports: seq<Report>)
    requires cap > 0 && PlanReports(cel, cap, views, reports).Some?
    ensures |AllPlanned(PlanReports(cel, cap, views, reports).value)| <= |reports| * (|views| * cap)
  {
    if reports != [] {
      var n := |reports| - 1;
      EventBound(cel, cap, views, reports[..n]);
      ReportBound(cel, cap, views, ActionID(reports[n]).value, reports[n]);
      FlatMapOfBoth(PlanReports(cel, cap, views, reports[..n]).value,
                    PlanReport(cel, cap, views, ActionID(reports[n]).value, reports[n]), PlannedIn);
      OneMore(n, |views| * cap);
    }
  }

  lemma OneMore(n: nat, k: nat)
    ensures (n + 1) * k == n * k + k
  {
  }

  lemma Scale(a: nat, b: nat, k: nat)
    requires a <= b
    ensures a * k <= b * k
  {
    assert (b - a) * k >= 0;
  }
}
