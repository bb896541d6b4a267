/** The scheduler's processing of one event, on the real objects. */
module Scheduler {
  import opened Wrappers
  import opened Cel
  import opened Extraction
  import opened Compiler
  import opened Planning
  import opened PipelineObjects
  import opened Generation
  import opened Processing

  class Cluster {
    var pipelines: seq<ClusterPipeline>

    constructor ()
      ensures pipelines == []
    {
      pipelines := [];
    }

    /** Stores what the pipeline holds now. */
    method Create(p: Pipeline)
      requires p.Intact()
      modifies this
      ensures pipelines == old(pipelines) + [ClusterPipeline(p.view, false, false)]
    {
      var view := PipelineView(
        p.generateName, p.namespace, p.labels.entries, p.annotations.entries, p.profileName, p.downloaderName, p.target,
        p.downloaderParams.backing[..p.downloaderParams.length], p.profileParams.backing[..p.profileParams.length]);
      pipelines := pipelines + [ClusterPipeline(view, false, false)];
    }

    /** The indexed list query: labelled by the scheduler, started and not completed. */
    method CountActive() returns (n: nat)
      ensures n == ActiveCount(pipelines)
    {
      n := 0;
      for i := 0 to |pipelines|
        invariant n == ActiveCount(pipelines[..i])
      {
        assert pipelines[..i + 1][..i] == pipelines[..i];
        if IsScheduled(pipelines[i]) && IsActive(pipelines[i]) { n := n + 1; }
      }
      assert pipelines[..|pipelines|] == pipelines;
    }
  }

  ghost function Views(ps: seq<Pipeline>): (r: seq<PipelineView>)
    ensures |r| == |ps| && forall i :: 0 <= i < |r| ==> r[i] == ps[i].view
  {
    seq(|ps|, i requires 0 <= i < |ps| => ps[i].view)
  }

  lemma GroupFits(g: Group, plan: PlannedGroup)
    requires Realises(g, plan)
    ensures FitAll(Views(g.pipelines), PlannedIn(plan))
  {
  }

  lemma FitBoth(a: seq<PipelineView>, p: seq<PlannedPipeline>, b: seq<PipelineView>, q: seq<PlannedPipeline>)
    requires FitAll(a, p) && FitAll(b, q)
    ensures FitAll(a + b, p + q)
  {
  }

  lemma {:induction false} RealisedFits(groups: seq<Group>, plan: seq<PlannedGroup>)
    requires AllRealised(groups, plan)
    ensures FitAll(Views(AllPipelines(groups)), AllPlanned(plan))
  {
    if groups != [] {
      var n := |groups| - 1;
      RealisedFits(groups[..n], plan[..n]);
      GroupFits(groups[n], plan[n]);
      FitBoth(Views(AllPipelines(groups[..n])), AllPlanned(plan[..n]), Views(groups[n].pipelines), PlannedIn(plan[n]));
      assert Views(AllPipelines(groups)) == Views(AllPipelines(groups[..n])) + Views(groups[n].pipelines);
    }
  }

  lemma ViewsOneMore(groups: seq<Group>, k: nat)
    requires k < |groups|
    ensures Views(AllPipelines(groups[..k + 1])) == Views(AllPipelines(groups[..k])) + Views(groups[k].pipelines)
  {
    assert groups[..k + 1][..k] == groups[..k];
  }

  lemma SubmittedOneMore(views: seq<PipelineView>, v: PipelineView)
    ensures Submitted(views + [v]) == Submitted(views) + [ClusterPipeline(v, false, false)]
  {
  }

  lemma AcceptedOneMore(views: seq<PipelineView>, v: PipelineView, rejects: nat -> bool)
    ensures Submitted(Accepted(views + [v], rejects)) ==
            Submitted(Accepted(views, rejects)) + (if rejects(|views|) then [] else [ClusterPipeline(v, false, false)])
  {
    assert (views + [v])[..|views|] == views;
    if rejects(|views|) {
      assert Accepted(views + [v], rejects) == Accepted(views, rejects);
    } else {
      SubmittedOneMore(Accepted(views, rejects), v);
    }
  }

  ghost predicate GroupIntact(ps: seq<Pipeline>, owned: set<object>)
    reads owned
  {
    forall i :: 0 <= i < |ps| ==> ps[i].footprint <= owned && ps[i].Intact()
  }

  lemma {:induction false} GroupIsIntact(groups: seq<Group>, owned: set<object>, k: nat)
    requires k < |groups| && GroupIntact(AllPipelines(groups), owned)
    ensures GroupIntact(groups[k].pipelines, owned)
  {
    var n := |groups| - 1;
    var init := AllPipelines(groups[..n]);
    var all := AllPipelines(groups);
    if k < n {
      assert forall i :: 0 <= i < |init| ==> init[i] == all[i];
      GroupIsIntact(groups[..n], owned, k);
    } else {
      var ps := groups[k].pipelines;
      assert forall i :: 0 <= i < |ps| ==> ps[i] == all[|init| + i];
    }
  }

  class Scheduler {
    const settings: Settings
    const compiler: Compiler
    const cluster: Cluster

    ghost predicate Valid()
      reads this, compiler, compiler.cache
    {
      compiler.Valid() && settings.cel == compiler.cel
    }

    constructor (settings: Settings, compiler: Compiler, cluster: Cluster)
      requires compiler.Valid() && settings.cel == compiler.cel
      ensures Valid() && this.compiler == compiler && this.cluster == cluster
    {
      this.settings, this.compiler, this.cluster := settings, compiler, cluster;
    }

    /** What the cluster holds once creating `tried` has been attempted, from `start`. */
    ghost predicate Attempted(start: seq<ClusterPipeline>, tried: seq<PipelineView>, rejects: nat -> bool)
      reads cluster
    {
      cluster.pipelines == start + Submitted(Accepted(tried, rejects))
    }

    /** Creates one pipeline, the done-th of the event; a rejected one is logged and dropped. `start` is what
        the cluster held before the event, `seen` what was already attempted for it. */
    method CreateOne(
      p: Pipeline, rejects: nat -> bool, done: nat, ghost start: seq<ClusterPipeline>, ghost seen: seq<PipelineView>)
      requires p.Intact() && done == |seen| && Attempted(start, seen, rejects)
      modifies cluster
      ensures Attempted(start, seen + [p.view], rejects)
    {
      AcceptedOneMore(seen, p.view, rejects);
      if !rejects(done) { cluster.Create(p); }
    }

    method CreateGroup(
      ps: seq<Pipeline>, rejects: nat -> bool, done: nat,
      ghost owned: set<object>, ghost start: seq<ClusterPipeline>, ghost seen: seq<PipelineView>)
      returns (done': nat)
      requires GroupIntact(ps, owned) && cluster !in owned && done == |seen| && Attempted(start, seen, rejects)
      modifies cluster
      ensures done' == |seen + Views(ps)| && Attempted(start, seen + Views(ps), rejects)
    {
      done' := done;
      ghost var tried := seen;
      for i := 0 to |ps|
        invariant GroupIntact(ps, owned)
        invariant tried == seen + Views(ps[..i]) && done' == |tried|
        invariant Attempted(start, tried, rejects)
      {
        CreateOne(ps[i], rejects, done', start, tried);
        done' := done' + 1;
        tried := tried + [ps[i].view];
      }
      assert ps[..|ps|] == ps;
    }

    method CreateAll(groups: seq<Group>, rejects: nat -> bool, ghost owned: set<object>)
      requires GroupIntact(AllPipelines(groups), owned) && cluster !in owned
      modifies cluster
      ensures cluster.pipelines == old(cluster.pipelines) + Submitted(Accepted(Views(AllPipelines(groups)), rejects))
    {
      ghost var start := cluster.pipelines;
      ghost var tried: seq<PipelineView> := [];
      var done := 0;
      for k := 0 to |groups|
        invariant GroupIntact(AllPipelines(groups), owned)
        invariant tried == Views(AllPipelines(groups[..k])) && done == |tried|
        invariant Attempted(start, tried, rejects)
      {
        GroupIsIntact(groups, owned, k);
        ViewsOneMore(groups, k);
        done := CreateGroup(groups[k].pipelines, rejects, done, owned, start, tried);
        tried := tried + Views(groups[k].pipelines);
      }
      assert groups[..|groups|] == groups;
    }

    /** One report's groups behind those of the reports before it. */
    method TakeReport(
      others: Interference, policies: seq<PolicyObject>, ghost pvs: seq<PolicyView>, ghost foot: set<object>,
      actionID: string, report: Report, groups: seq<Group>, ghost plan: seq<PlannedGroup>, ghost owned: set<object>)
      returns (groups': seq<Group>, ghost owned': set<object>)
      requires Valid() && AllRegistered(compiler.specs, pvs) && Harmless(compiler.specs, others)
      requires AllShow(policies, pvs, foot) && compiler.cache !in foot + owned
      requires Delivered(groups, plan, owned)
      modifies compiler.cache
      ensures Valid() && AllShow(policies, pvs, foot)
      ensures Delivered(groups', plan + PlanReport(settings.cel, settings.cap, pvs, actionID, report), owned')
      ensures fresh(owned' - owned)
    {
      var more, own := CreatePipelinesForReport(compiler, others, settings.cap, policies, pvs, foot, actionID, report);
      DeliveredTogether(groups, plan, owned, more, PlanReport(settings.cel, settings.cap, pvs, actionID, report), own);
      return groups + more, owned + own;
    }

    /** The first phase: None when a report has no action ID. */
    method Generate(
      others: nat -> Interference, policies: seq<PolicyObject>, ghost pvs: seq<PolicyView>, ghost foot: set<object>,
      reports: seq<Report>)
      returns (r: Option<seq<Group>>, ghost owned: set<object>)
      requires Valid() && AllRegistered(compiler.specs, pvs) && forall i :: Harmless(compiler.specs, others(i))
      requires AllShow(policies, pvs, foot) && compiler.cache !in foot
      modifies compiler.cache
      ensures Valid() && AllShow(policies, pvs, foot)
      ensures r.Some? <==> PlanReports(settings.cel, settings.cap, pvs, reports).Some?
      ensures r.Some? ==>
                Delivered(r.value, PlanReports(settings.cel, settings.cap, pvs, reports).value, owned) && fresh(owned)
    {
      var groups: seq<Group> := [];
      owned := {};
      ghost var plan := [];
      for i := 0 to |reports|
        invariant Valid() && AllShow(policies, pvs, foot)
        invariant PlanReports(settings.cel, settings.cap, pvs, reports[..i]) == Some(plan)
        invariant Delivered(groups, plan, owned) && fresh(owned)
      {
        OneMoreReport(settings.cel, settings.cap, pvs, reports, i);
        var id := ActionID(reports[i]);
        if id.None? { return None, owned; }
        groups, owned := TakeReport(others(i), policies, pvs, foot, id.value, reports[i], groups, plan, owned);
        plan := plan + PlanReport(settings.cel, settings.cap, pvs, id.value, reports[i]);
      }
      assert reports[..|reports|] == reports;
      return Some(groups), owned;
    }

    /** processReports. `policies` is what the policy list returns, `faults` what the API server refuses,
        `others` what other goroutines do with the compiler before the lookup for a report and a policy. */
    method ProcessReports(
      faults: Faults, others: nat -> Interference, policies: seq<PolicyObject>, ghost pvs: seq<PolicyView>,
      ghost foot: set<object>, reports: seq<Report>)
      returns (err: Option<ProcessError>, ghost created: seq<PipelineView>)
      requires Valid() && AllRegistered(compiler.specs, pvs) && forall i :: Harmless(compiler.specs, others(i))
      requires AllShow(policies, pvs, foot) && compiler.cache !in foot && cluster !in foot
      modifies compiler.cache, cluster
      ensures Valid() && AllShow(policies, pvs, foot)
      ensures ProcessAllows(settings, faults, old(cluster.pipelines), pvs, reports, created, err)
      ensures cluster.pipelines == old(cluster.pipelines) + Submitted(created)
    {
      created := [];
      if settings.threshold > 0 {
        if faults.countFails { return Some(CountFailed), []; }
        var active := cluster.CountActive();
        if active >= settings.threshold { return Some(ThresholdReached), []; }
      }
      if faults.policiesFail { return Some(PoliciesFailed), []; }
      var generated, owned := Generate(others, policies, pvs, foot, reports);
      if generated.None? { return Some(BadActionID), []; }
      RealisedFits(generated.value, PlanReports(settings.cel, settings.cap, pvs, reports).value);
      created := Accepted(Views(AllPipelines(generated.value)), faults.rejects);
      CreateAll(generated.value, faults.rejects, owned);
      return None, created;
    }
  }
}
