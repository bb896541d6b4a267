/** createPipelinesForReport: from listed policies and one report to groups of new pipeline objects. */
module Generation {
  import opened Wrappers
  import opened Cel
  import opened Api
  import opened Compiler
  import opened Extraction
  import opened Planning
  import opened PipelineObjects

  ghost predicate AllRegistered(specs: Registry, pvs: seq<PolicyView>) {
    forall i :: 0 <= i < |pvs| ==> Registered(specs, pvs[i].policy)
  }

  /** What other goroutines do with the compiler just before the lookup for each listed policy. */
  type Interference = nat -> seq<CacheOp>

  ghost predicate Harmless(specs: Registry, others: Interference) {
    forall i :: OpsRegistered(specs, others(i))
  }

  /** One pipeline for each of the values, as the template gives it; nothing is shared and `owned` is
      all they refer to. */
  ghost predicate Built(
    ps: seq<Pipeline>, pv: PolicyView, actionID: string, values: seq<PipelineValues>, owned: set<object>)
    reads owned
  {
    && Separate(ps) && Footprints(ps) == owned && |ps| == |values|
    && forall i :: 0 <= i < |ps| ==>
         ps[i].footprint <= owned && ps[i].Intact() && ps[i].view == Instance(pv, actionID, values[i])
  }

  lemma BuiltOneMore(
    ps: seq<Pipeline>, pv: PolicyView, actionID: string, values: seq<PipelineValues>, owned: set<object>,
    p: Pipeline, vs: PipelineValues)
    requires Built(ps, pv, actionID, values, owned)
    requires p.footprint !! owned && p.Intact() && p.view == Instance(pv, actionID, vs)
    ensures Built(ps + [p], pv, actionID, values + [vs], owned + p.footprint)
  {
    assert (ps + [p])[..|ps|] == ps;
  }

  method BuildPipelines(po: PolicyObject, ghost pv: PolicyView, actionID: string, values: seq<PipelineValues>)
    returns (ps: seq<Pipeline>, ghost owned: set<object>)
    requires po.Shows(pv)
    ensures Built(ps, pv, actionID, values, owned) && fresh(owned)
  {
    ps, owned := [], {};
    for i := 0 to |values|
      invariant Built(ps, pv, actionID, values[..i], owned) && fresh(owned)
    {
      var p := BuildPipeline(po, pv, actionID, values[i]);
      BuiltOneMore(ps, pv, actionID, values[..i], owned, p, values[i]);
      assert values[..i + 1] == values[..i] + [values[i]];
      ps, owned := ps + [p], owned + p.footprint;
    }
    assert values[..|values|] == values;
  }

  /** The checks of the loop body; None is "skip this policy". Before the lookup takes the lock, others may
      have used the compiler in any way. */
  method ValuesForPolicy(compiler: Compiler, others: seq<CacheOp>, cap: int, policy: Policy, report: Report)
    returns (r: Option<seq<PipelineValues>>)
    requires compiler.Valid() && Registered(compiler.specs, policy) && OpsRegistered(compiler.specs, others)
    modifies compiler.cache
    ensures compiler.Valid()
    ensures r.Some? <==> PlanPolicy(compiler.cel, cap, policy, report).Some?
    ensures r.Some? ==> AllRealize(r.value, PlanPolicy(compiler.cel, cap, policy, report).value)
  {
    if !IsConditionTrue(policy.conditions, READY) { return None; }
    compiler.OthersUse(others);
    var cleared: bool := *;
    var compiled := compiler.Get(policy, cleared);
    if compiled.Err? { return None; }
    var matches := Matches(compiler.cel, compiled.value, report);
    if matches.Err? || !matches.value { return None; }
    var values := Extract(compiler.cel, compiled.value, report);
    if values.Err? { return None; }
    if cap > 0 && |values.value| > cap { return None; }
    return Some(values.value);
  }

  /** One turn of the outer loop: no group when the policy is skipped, one otherwise. */
  method GroupsForPolicy(
    compiler: Compiler, others: seq<CacheOp>, cap: int, po: PolicyObject, ghost pv: PolicyView, actionID: string,
    report: Report)
    returns (groups: seq<Group>, ghost owned: set<object>)
    requires compiler.Valid() && Registered(compiler.specs, po.policy) && OpsRegistered(compiler.specs, others)
    requires po.Shows(pv)
    modifies compiler.cache
    ensures compiler.Valid()
    ensures Delivered(groups, GroupOf(compiler.cel, cap, pv, actionID, report), owned) && fresh(owned)
  {
    groups, owned := [], {};
    var values := ValuesForPolicy(compiler, others, cap, po.policy, report);
    if values.Some? {
      var ps;
      ps, owned := BuildPipelines(po, pv, actionID, values.value);
      groups := [Group(report, actionID, po, ps)];
      var plan := PlanPolicy(compiler.cel, cap, po.policy, report).value;
      InstancesRealise(PlannedGroup(pv, actionID, report, plan), groups[0], values.value);
      PipelinesOfOne(groups[0]);
    }
  }

  lemma InstancesRealise(plan: PlannedGroup, g: Group, values: seq<PipelineValues>)
    requires g.policy.policy == plan.view.policy && g.report == plan.report && g.actionID == plan.actionID
    requires AllRealize(values, plan.values) && |g.pipelines| == |values|
    requires forall i :: 0 <= i < |values| ==> g.pipelines[i].view == Instance(plan.view, g.actionID, values[i])
    ensures Realises(g, plan)
  {
    forall i | 0 <= i < |values| ensures Fits(g.pipelines[i].view, plan.view, g.actionID, plan.values[i]) {
      InstanceFits(plan.view, g.actionID, values[i], plan.values[i]);
    }
  }

  /** The groups so far, and then those of one more policy. */
  method TakePolicy(
    compiler: Compiler, others: seq<CacheOp>, cap: int, po: PolicyObject, ghost pv: PolicyView, actionID: string,
    report: Report, groups: seq<Group>, ghost plan: seq<PlannedGroup>, ghost owned: set<object>)
    returns (groups': seq<Group>, ghost owned': set<object>)
    requires compiler.Valid() && Registered(compiler.specs, po.policy) && OpsRegistered(compiler.specs, others)
    requires po.Shows(pv)
    requires Delivered(groups, plan, owned) && compiler.cache !in owned
    modifies compiler.cache
    ensures compiler.Valid()
    ensures Delivered(groups', plan + GroupOf(compiler.cel, cap, pv, actionID, report), owned')
    ensures fresh(owned' - owned)
  {
    var more, own := GroupsForPolicy(compiler, others, cap, po, pv, actionID, report);
    DeliveredTogether(groups, plan, owned, more, GroupOf(compiler.cel, cap, pv, actionID, report), own);
    return groups + more, owned + own;
  }

  /** One turn of the outer loop: from the groups of the first i policies to those of one more. */
  method TakePolicyAt(
    compiler: Compiler, others: seq<CacheOp>, cap: int, policies: seq<PolicyObject>, ghost pvs: seq<PolicyView>,
    ghost foot: set<object>, i: nat, actionID: string, report: Report, groups: seq<Group>, ghost owned: set<object>)
    returns (groups': seq<Group>, ghost owned': set<object>)
    requires compiler.Valid() && AllRegistered(compiler.specs, pvs) && OpsRegistered(compiler.specs, others)
    requires AllShow(policies, pvs, foot) && compiler.cache !in foot + owned && i < |policies|
    requires Delivered(groups, PlanReport(compiler.cel, cap, pvs[..i], actionID, report), owned)
    modifies compiler.cache
    ensures compiler.Valid() && AllShow(policies, pvs, foot)
    ensures Delivered(groups', PlanReport(compiler.cel, cap, pvs[..i + 1], actionID, report), owned')
    ensures fresh(owned' - owned)
  {
    OneMorePolicy(compiler.cel, cap, pvs, i, actionID, report);
    groups', owned' := TakePolicy(compiler, others, cap, policies[i], pvs[i], actionID, report, groups,
                                  PlanReport(compiler.cel, cap, pvs[..i], actionID, report), owned);
  }

  /** For any valid cache, whatever it holds, and whatever the reconciler does with the compiler between the
      policies: exactly the planned groups, in policy order, as new objects that share nothing with each
      other or with the template; templates stay as they were. */
  method CreatePipelinesForReport(
    compiler: Compiler, others: Interference, cap: int, policies: seq<PolicyObject>, ghost pvs: seq<PolicyView>,
    ghost foot: set<object>, actionID: string, report: Report)
    returns (groups: seq<Group>, ghost owned: set<object>)
    requires compiler.Valid() && AllRegistered(compiler.specs, pvs) && Harmless(compiler.specs, others)
    requires AllShow(policies, pvs, foot) && compiler.cache !in foot
    modifies compiler.cache
    ensures compiler.Valid() && AllShow(policies, pvs, foot)
    ensures Delivered(groups, PlanReport(compiler.cel, cap, pvs, actionID, report), owned) && fresh(owned)
  {
    groups, owned := [], {};
    for i := 0 to |policies|
      invariant compiler.Valid() && AllShow(policies, pvs, foot)
      invariant Delivered(groups, PlanReport(compiler.cel, cap, pvs[..i], actionID, report), owned) && fresh(owned)
    {
      groups, owned := TakePolicyAt(compiler, others(i), cap, policies, pvs, foot, i, actionID, report, groups, owned);
    }
    assert pvs[..|pvs|] == pvs;
  }
}
