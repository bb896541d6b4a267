/** What the reports of an event ask for, said of the engine's answers alone, and the proof that an event
    creates exactly that: one pipeline per report, policy and extracted item, in this order. */
module Requests {
  import opened Wrappers
  import opened Cel
  import opened Api
  import opened Compiler
  import opened Extraction
  import opened Planning
  import opened Processing
  import opened Sequences

  // ----- One policy and one report -----

  /** The policy is Ready, its expressions compile, its match condition is true of the report, the report
      extracts to these values, and they are not too many. */
  ghost predicate Wants(cel: Engine, cap: int, p: Policy, report: Report, values: seq<Planned>) {
    && FindCondition(p.conditions, READY).Some?
    && FindCondition(p.conditions, READY).value.status == ConditionTrue
    && (exists c ::
          && Compiled(cel, p.exprs, p.generation) == Ok(c)
          && cel.eval(c.matchCondition, Activation(report, None)) == Ok(BoolVal(true))
          && Extracts(cel, c, report, values))
    && (cap > 0 ==> |values| <= cap)
  }

  /** A policy gets a group exactly when it wants one, with exactly the values it wants: a false or failing
      match condition, a failing extraction and too many items give none. */
  lemma PlanIsWhatIsWanted(cel: Engine, cap: int, p: Policy, report: Report, values: seq<Planned>)
    ensures PlanPolicy(cel, cap, p, report) == Some(values) <==> Wants(cel, cap, p, report, values)
  {
    var compiled := Compiled(cel, p.exprs, p.generation);
    if compiled.Ok? {
      PlanIsEvaluated(cel, compiled.value, report, values);
      if PlanPolicy(cel, cap, p, report) == Some(values) {
        assert cel.eval(compiled.value.matchCondition, Activation(report, None)) == Ok(BoolVal(true));
      }
    }
  }

  /** The groups of a report are those of the listed policies that want one, each with all its values. */
  lemma {:induction false} GroupsAreWanted(
    cel: Engine, cap: int, views: seq<PolicyView>, actionID: string, report: Report, g: PlannedGroup)
    ensures g in PlanReport(cel, cap, views, actionID, report) <==>
            && g.view in views && g.actionID == actionID && g.report == report
            && Wants(cel, cap, g.view.policy, report, g.values)
  {
    if views != [] {
      var n := |views| - 1;
      GroupsAreWanted(cel, cap, views[..n], actionID, report, g);
      PlanIsWhatIsWanted(cel, cap, g.view.policy, report, g.values);
      assert views == views[..n] + [views[n]];
    }
  }

  // ----- All policies and all reports -----

  ghost predicate HasActionID(report: Report, id: string) {
    ACTION_ID in report && report[ACTION_ID] == StringVal(id)
  }

  /** Where a pipeline comes from: positions in the reports, the policies and the extracted values. */
  datatype Origin = Origin(report: nat, policy: nat, item: nat)

  predicate Before(a: Origin, b: Origin) {
    || a.report < b.report
    || (a.report == b.report && a.policy < b.policy)
    || (a.report == b.report && a.policy == b.policy && a.item < b.item)
  }

  datatype Request = Request(settings: Settings, policies: seq<PolicyView>, reports: seq<Report>)

  ghost predicate IsDue(q: Request, o: Origin, values: seq<Planned>) {
    && o.report < |q.reports| && o.policy < |q.policies| && o.item < |values|
    && Wants(q.settings.cel, q.settings.cap, q.policies[o.policy].policy, q.reports[o.report], values)
  }

  ghost predicate ComesFrom(q: Request, p: PlannedPipeline, o: Origin) {
    && o.report < |q.reports| && o.policy < |q.policies|
    && p.policy == q.policies[o.policy] && HasActionID(q.reports[o.report], p.actionID)
    && exists values :: IsDue(q, o, values) && p.values == values[o.item]
  }

  /** Before policy `policy` of report `report`. */
  predicate Covered(o: Origin, report: nat, policy: nat) {
    o.report < report || (o.report == report && o.policy < policy)
  }

  ghost predicate InOrder(origins: seq<Origin>) {
    forall k, l :: 0 <= k < l < |origins| ==> Before(origins[k], origins[l])
  }

  ghost predicate AllComeFrom(q: Request, planned: seq<PlannedPipeline>, origins: seq<Origin>) {
    |planned| == |origins| && forall k :: 0 <= k < |planned| ==> ComesFrom(q, planned[k], origins[k])
  }

  ghost predicate AllCovered(origins: seq<Origin>, report: nat, policy: nat) {
    forall k :: 0 <= k < |origins| ==> Covered(origins[k], report, policy)
  }

  ghost predicate AllFound(q: Request, report: nat, policy: nat, origins: seq<Origin>) {
    forall o, values :: Covered(o, report, policy) && IsDue(q, o, values) ==> o in origins
  }

  /** `planned` is everything due before that point, each once, in order. */
  ghost predicate Enumerates(
    q: Request, report: nat, policy: nat, planned: seq<PlannedPipeline>, origins: seq<Origin>)
  {
    && AllComeFrom(q, planned, origins) && InOrder(origins)
    && AllCovered(origins, report, policy) && AllFound(q, report, policy, origins)
  }

  function ItemsFrom(report: nat, policy: nat, count: nat): (r: seq<Origin>)
    ensures |r| == count && forall i :: 0 <= i < count ==> r[i] == Origin(report, policy, i)
  {
    seq(count, i requires 0 <= i < count => Origin(report, policy, i))
  }

  lemma ItemsComeFrom(q: Request, report: nat, policy: nat, g: PlannedGroup)
    requires report < |q.reports| && policy < |q.policies|
    requires g.view == q.policies[policy] && HasActionID(q.reports[report], g.actionID)
    requires Wants(q.settings.cel, q.settings.cap, g.view.policy, q.reports[report], g.values)
    ensures forall i :: 0 <= i < |g.values| ==> ComesFrom(q, PlannedIn(g)[i], Origin(report, policy, i))
  {
    forall i | 0 <= i < |g.values| ensures ComesFrom(q, PlannedIn(g)[i], Origin(report, policy, i)) {
      assert IsDue(q, Origin(report, policy, i), g.values);
    }
  }

  /** What is due before the next policy was due before this one, or is an item of the group. */
  lemma NothingElseIsDue(q: Request, report: nat, policy: nat, g: PlannedGroup, o: Origin, values: seq<Planned>)
    requires report < |q.reports| && policy < |q.policies| && g.view == q.policies[policy]
    requires Wants(q.settings.cel, q.settings.cap, g.view.policy, q.reports[report], g.values)
    requires Covered(o, report, policy + 1) && IsDue(q, o, values) && !Covered(o, report, policy)
    ensures o in ItemsFrom(report, policy, |g.values|)
  {
    WantedOnce(q, report, policy, values, g.values);
    assert o == ItemsFrom(report, policy, |g.values|)[o.item];
  }

  lemma ItemsFollow(origins: seq<Origin>, report: nat, policy: nat, count: nat)
    requires InOrder(origins) && AllCovered(origins, report, policy)
    ensures InOrder(origins + ItemsFrom(report, policy, count))
    ensures AllCovered(origins + ItemsFrom(report, policy, count), report, policy + 1)
  {
    var from := origins + ItemsFrom(report, policy, count);
    forall k | 0 <= k < |from| ensures k < |origins| ==> Covered(from[k], report, policy) {}
  }

  lemma ComeFromBoth(
    q: Request, a: seq<PlannedPipeline>, from: seq<Origin>, b: seq<PlannedPipeline>, more: seq<Origin>)
    requires AllComeFrom(q, a, from) && AllComeFrom(q, b, more)
    ensures AllComeFrom(q, a + b, from + more)
  {
    forall k | 0 <= k < |a + b| ensures ComesFrom(q, (a + b)[k], (from + more)[k]) {
      if k < |a| {
        assert ComesFrom(q, a[k], from[k]);
      } else {
        assert ComesFrom(q, b[k - |a|], more[k - |a|]);
      }
    }
  }

  lemma AddItems(
    q: Request, report: nat, policy: nat, planned: seq<PlannedPipeline>, origins: seq<Origin>, g: PlannedGroup)
    requires Enumerates(q, report, policy, planned, origins)
    requires report < |q.reports| && policy < |q.policies|
    requires g.view == q.policies[policy] && HasActionID(q.reports[report], g.actionID)
    requires Wants(q.settings.cel, q.settings.cap, g.view.policy, q.reports[report], g.values)
    ensures Enumerates(q, report, policy + 1, planned + PlannedIn(g),
                       origins + ItemsFrom(report, policy, |g.values|))
  {
    ItemsComeFrom(q, report, policy, g);
    ComeFromBoth(q, planned, origins, PlannedIn(g), ItemsFrom(report, policy, |g.values|));
    ItemsFollow(origins, report, policy, |g.values|);
    forall o, values | Covered(o, report, policy + 1) && IsDue(q, o, values)
      ensures o in origins + ItemsFrom(report, policy, |g.values|)
    {
      if !Covered(o, report, policy) { NothingElseIsDue(q, report, policy, g, o, values); }
    }
  }

  lemma WantedOnce(q: Request, report: nat, policy: nat, a: seq<Planned>, b: seq<Planned>)
    requires report < |q.reports| && policy < |q.policies|
    requires Wants(q.settings.cel, q.settings.cap, q.policies[policy].policy, q.reports[report], a)
    requires Wants(q.settings.cel, q.settings.cap, q.policies[policy].policy, q.reports[report], b)
    ensures a == b
  {
    PlanIsWhatIsWanted(q.settings.cel, q.settings.cap, q.policies[policy].policy, q.reports[report], a);
    PlanIsWhatIsWanted(q.settings.cel, q.settings.cap, q.policies[policy].policy, q.reports[report], b);
  }

  lemma AddPolicy(
    q: Request, report: nat, policy: nat, planned: seq<PlannedPipeline>, origins: seq<Origin>, id: string)
    returns (origins': seq<Origin>)
    requires Enumerates(q, report, policy, planned, origins)
    requires report < |q.reports| && policy < |q.policies| && HasActionID(q.reports[report], id)
    ensures Enumerates(
              q, report, policy + 1,
              planned + AllPlanned(GroupOf(q.settings.cel, q.settings.cap, q.policies[policy], id, q.reports[report])),
              origins')
  {
    var pv, r := q.policies[policy], q.reports[report];
    var plan := PlanPolicy(q.settings.cel, q.settings.cap, pv.policy, r);
    if plan.Some? {
      var g := PlannedGroup(pv, id, r, plan.value);
      PlanIsWhatIsWanted(q.settings.cel, q.settings.cap, pv.policy, r, plan.value);
      FlatMapOfOne(g, PlannedIn);
      AddItems(q, report, policy, planned, origins, g);
      return origins + ItemsFrom(report, policy, |g.values|);
    }
    assert planned + [] == planned;
    forall o, values | Covered(o, report, policy + 1) && IsDue(q, o, values) ensures Covered(o, report, policy) {
      PlanIsWhatIsWanted(q.settings.cel, q.settings.cap, q.policies[o.policy].policy, q.reports[o.report], values);
    }
    return origins;
  }

  lemma {:induction false} AddPolicies(
    q: Request, report: nat, policy: nat, planned: seq<PlannedPipeline>, origins: seq<Origin>, id: string)
    returns (origins': seq<Origin>)
    requires Enumerates(q, report, 0, planned, origins)
    requires report < |q.reports| && policy <= |q.policies| && HasActionID(q.reports[report], id)
    ensures var groups := PlanReport(q.settings.cel, q.settings.cap, q.policies[..policy], id, q.reports[report]);
            Enumerates(q, report, policy, planned + AllPlanned(groups), origins')
  {
    if policy == 0 {
      assert planned + [] == planned;
      return origins;
    }
    var before := PlanReport(q.settings.cel, q.settings.cap, q.policies[..policy - 1], id, q.reports[report]);
    origins' := AddPolicies(q, report, policy - 1, planned, origins, id);
    origins' := AddPolicy(q, report, policy - 1, planned + AllPlanned(before), origins', id);
    LastPolicyPlansLast(q, report, policy - 1, planned, id);
  }

  lemma LastPolicyPlansLast(q: Request, report: nat, policy: nat, planned: seq<PlannedPipeline>, id: string)
    requires report < |q.reports| && policy < |q.policies|
    ensures var cel, cap, r := q.settings.cel, q.settings.cap, q.reports[report];
            planned + AllPlanned(PlanReport(cel, cap, q.policies[..policy + 1], id, r)) ==
            planned + AllPlanned(PlanReport(cel, cap, q.policies[..policy], id, r))
                    + AllPlanned(GroupOf(cel, cap, q.policies[policy], id, r))
  {
    var cel, cap, r := q.settings.cel, q.settings.cap, q.reports[report];
    OneMorePolicy(cel, cap, q.policies, policy, id, r);
    FlatMapOfBoth(PlanReport(cel, cap, q.policies[..policy], id, r),
                  GroupOf(cel, cap, q.policies[policy], id, r), PlannedIn);
  }

  lemma NextReport(q: Request, report: nat, planned: seq<PlannedPipeline>, origins: seq<Origin>)
    requires Enumerates(q, report, |q.policies|, planned, origins)
    ensures Enumerates(q, report + 1, 0, planned, origins)
  {
  }

  lemma {:induction false} AddReports(q: Request, report: nat) returns (origins: seq<Origin>)
    requires report <= |q.reports|
    requires PlanReports(q.settings.cel, q.settings.cap, q.policies, q.reports[..report]).Some?
    ensures var groups := PlanReports(q.settings.cel, q.settings.cap, q.policies, q.reports[..report]).value;
            Enumerates(q, report, 0, AllPlanned(groups), origins)
  {
    if report == 0 {
      return [];
    }
    var cel, cap, n := q.settings.cel, q.settings.cap, report - 1;
    var r, init := q.reports[n], q.reports[..n];
    assert q.reports[..report][..n] == init;
    var before := PlanReports(cel, cap, q.policies, init).value;
    var id := ActionID(r).value;
    var last := PlanReport(cel, cap, q.policies, id, r);
    origins := AddReports(q, n);
    origins := AddPolicies(q, n, |q.policies|, AllPlanned(before), origins, id);
    assert q.policies[..|q.policies|] == q.policies;
    FlatMapOfBoth(before, last, PlannedIn);
    NextReport(q, n, AllPlanned(before + last), origins);
  }

  // ----- What an event creates -----

  /** `chosen` is the elements of `all` at the positions that are not rejected, in order. */
  ghost predicate IsSelection<T>(all: seq<T>, rejects: nat -> bool, chosen: seq<T>, at: seq<nat>) {
    && |at| == |chosen|
    && (forall k, l :: 0 <= k < l < |at| ==> at[k] < at[l])
    && (forall k :: 0 <= k < |at| ==> at[k] < |all| && !rejects(at[k]) && chosen[k] == all[at[k]])
    && (forall i: nat :: i < |all| && !rejects(i) ==> i in at)
  }

  lemma SelectionOneMore<T>(all: seq<T>, x: T, rejects: nat -> bool, chosen: seq<T>, at: seq<nat>)
    requires IsSelection(all, rejects, chosen, at)
    ensures rejects(|all|) ==> IsSelection(all + [x], rejects, chosen, at)
    ensures !rejects(|all|) ==> IsSelection(all + [x], rejects, chosen + [x], at + [|all|])
  {
    forall i: nat | i < |all + [x]| && !rejects(i) ensures i in at + [|all|] {}
  }

  lemma {:induction false} AcceptedIsSelection(views: seq<PipelineView>, rejects: nat -> bool) returns (at: seq<nat>)
    ensures IsSelection(views, rejects, Accepted(views, rejects), at)
  {
    if views == [] {
      return [];
    }
    var n := |views| - 1;
    at := AcceptedIsSelection(views[..n], rejects);
    SelectionOneMore(views[..n], views[n], rejects, Accepted(views[..n], rejects), at);
    assert views[..n] + [views[n]] == views;
    if !rejects(n) { at := at + [n]; }
  }

  /** The pipeline is the policy's template with what the report gives for the item. */
  ghost predicate IsRequested(q: Request, v: PipelineView, o: Origin) {
    exists p :: ComesFrom(q, p, o) && TemplateThenExtracted(v, p.policy, p.actionID, p.values)
  }

  /** Exactly one pipeline for every report, policy and item that is due, in this order. */
  ghost predicate AreRequested(q: Request, views: seq<PipelineView>, origins: seq<Origin>) {
    && |views| == |origins| && InOrder(origins)
    && (forall k :: 0 <= k < |views| ==> IsRequested(q, views[k], origins[k]))
    && (forall o, values :: IsDue(q, o, values) ==> o in origins)
  }

  /** A successful event creates exactly what its reports ask of the listed policies, in order, but for what
      the API server rejects. */
  lemma CreatedIsRequested(
    q: Request, f: Faults, before: seq<ClusterPipeline>, created: seq<PipelineView>)
    returns (views: seq<PipelineView>, origins: seq<Origin>, at: seq<nat>)
    requires ProcessAllows(q.settings, f, before, q.policies, q.reports, created, None)
    ensures AreRequested(q, views, origins) && IsSelection(views, f.rejects, created, at)
  {
    assert q.reports[..|q.reports|] == q.reports;
    origins := AddReports(q, |q.reports|);
    var planned := AllPlanned(PlanReports(q.settings.cel, q.settings.cap, q.policies, q.reports).value);
    views :| FitAll(views, planned) && created == Accepted(views, f.rejects);
    at := AcceptedIsSelection(views, f.rejects);
    FittingIsRequested(q, views, planned, origins);
  }

  lemma FittingIsRequested(
    q: Request, views: seq<PipelineView>, planned: seq<PlannedPipeline>, origins: seq<Origin>)
    requires FitAll(views, planned) && Enumerates(q, |q.reports|, 0, planned, origins)
    ensures AreRequested(q, views, origins)
  {
    forall k | 0 <= k < |views| ensures IsRequested(q, views[k], origins[k]) {
      FittingIsTemplateThenExtracted(views[k], planned[k].policy, planned[k].actionID, planned[k].values);
      assert ComesFrom(q, planned[k], origins[k]);
    }
  }

  function ActiveAt(ps: seq<ClusterPipeline>): (r: set<nat>) {
    set i: nat | i < |ps| &&
      SCHEDULER_LABEL in ps[i].view.labels && ps[i].view.labels[SCHEDULER_LABEL] == SCHEDULER_VALUE &&
      ps[i].started && !ps[i].completed
  }

  lemma ActiveAtOneMore(ps: seq<ClusterPipeline>, p: ClusterPipeline)
    ensures ActiveAt(ps + [p]) == ActiveAt(ps) + (if IsScheduled(p) && IsActive(p) then {|ps|} else {})
    ensures |ActiveAt(ps + [p])| == |ActiveAt(ps)| + (if IsScheduled(p) && IsActive(p) then 1 else 0)
  {
    forall i: nat | i < |ps| ensures i in ActiveAt(ps + [p]) <==> i in ActiveAt(ps) { assert (ps + [p])[i] == ps[i]; }
  }

  /** The active count is the number of pipelines with the scheduler's label that have started and not
      completed. */
  lemma {:induction false} ActiveCountCounts(ps: seq<ClusterPipeline>)
    ensures ActiveCount(ps) == |ActiveAt(ps)|
  {
    if ps != [] {
      var n := |ps| - 1;
      ActiveCountCounts(ps[..n]);
      ActiveAtOneMore(ps[..n], ps[n]);
      assert ps[..n] + [ps[n]] == ps;
    }
  }

  predicate NamesNoAction(report: Report) {
    !(ACTION_ID in report && report[ACTION_ID].StringVal?)
  }

  /** An event fails exactly when the active pipelines cannot be counted or reach the threshold, the policies
      cannot be listed, or a report has no string action ID; the first of these is the error. */
  lemma EventFailsExactlyWhen(
    s: Settings, f: Faults, before: seq<ClusterPipeline>, policies: seq<PolicyView>, reports: seq<Report>,
    created: seq<PipelineView>, err: Option<ProcessError>)
    requires ProcessAllows(s, f, before, policies, reports, created, err)
    ensures var uncounted := s.threshold > 0 && f.countFails;
            var full := s.threshold > 0 && |ActiveAt(before)| >= s.threshold;
            var bad := exists i :: 0 <= i < |reports| && NamesNoAction(reports[i]);
            err == if uncounted then Some(CountFailed) else if full then Some(ThresholdReached)
                   else if f.policiesFail then Some(PoliciesFailed) else if bad then Some(BadActionID) else None
  {
    OnlyABadReportRejects(s.cel, s.cap, policies, reports);
    ActiveCountCounts(before);
    forall r: Report ensures ActionID(r).None? <==> NamesNoAction(r) {}
  }
}
