/** Pipelines, policies and templates as objects. Maps and slices are references, because the source
    builds many pipelines from one template that other copies of the policy share. */
module PipelineObjects {
  import opened Wrappers
  import opened Cel
  import opened Api
  import opened Extraction
  import opened Planning
  import opened Sequences

  class StringMap {
    var entries: map<string, string>

    constructor ()
      ensures entries == map[]
    {
      entries := map[];
    }
  }

  /** A slice over the front of its backing array, whose length is the capacity. The nil slice has capacity 0. */
  datatype Slice = Slice(backing: array<Param>, length: nat) {
    ghost predicate Valid() {
      length <= backing.Length
    }

    ghost function Contents(): (s: seq<Param>)
      requires Valid()
      reads backing
      ensures |s| == length
    {
      backing[..length]
    }
  }

  /** The elements of s in an array of exactly their number. */
  method DeepCopy(s: Slice) returns (r: Slice)
    requires s.Valid()
    ensures r.Valid() && r.Contents() == s.Contents() && fresh(r.backing)
    ensures r.backing.Length == r.length
  {
    var a := new Param[s.length];
    forall i | 0 <= i < s.length { a[i] := s.backing[i]; }
    assert a[..] == s.backing[..s.length];
    return Slice(a, s.length);
  }

  /** Go's append: it writes into the backing array when the new elements fit, and moves otherwise. */
  method Append(s: Slice, xs: seq<Param>) returns (r: Slice)
    requires s.Valid()
    modifies s.backing
    ensures r.Valid() && r.Contents() == old(s.Contents()) + xs
    ensures s.Contents() == old(s.Contents())
    ensures if s.length + |xs| <= s.backing.Length then r.backing == s.backing else fresh(r.backing)
  {
    var n := s.length + |xs|;
    if n <= s.backing.Length {
      forall i | 0 <= i < |xs| { s.backing[s.length + i] := xs[i]; }
      assert s.backing[..n] == old(s.Contents()) + xs;
      return Slice(s.backing, n);
    }
    var spare: nat :| true;
    var a := new Param[n + spare];
    forall i | 0 <= i < s.length { a[i] := s.backing[i]; }
    forall i | 0 <= i < |xs| { a[s.length + i] := xs[i]; }
    assert a[..n] == old(s.Contents()) + xs;
    return Slice(a, n);
  }

  /** The template's parameters, deep-copied, followed by the extracted ones. */
  method Extended(s: Slice, xs: seq<Param>) returns (r: Slice)
    requires s.Valid()
    ensures r.Valid() && r.Contents() == s.Contents() + xs && fresh(r.backing)
  {
    var copied := DeepCopy(s);
    r := Append(copied, xs);
  }

  /** A new map holding what src holds. */
  method Copied(src: StringMap) returns (dst: StringMap)
    ensures fresh(dst) && dst.entries == src.entries
  {
    dst := new StringMap();
    dst.entries := dst.entries + src.entries;
  }

  datatype Template = Template(
    labels: StringMap,
    annotations: StringMap,
    profileName: string,
    downloaderName: string,
    downloaderParams: Slice,
    profileParams: Slice)
  {
    ghost predicate Shows(v: TemplateView)
      reads labels, annotations, downloaderParams.backing, profileParams.backing
    {
      && downloaderParams.Valid() && profileParams.Valid()
      && v == TemplateView(labels.entries, annotations.entries, profileName, downloaderName,
                           downloaderParams.Contents(), profileParams.Contents())
    }
  }

  /** A policy as listed: its own fields plus a template that other copies of it share. */
  datatype PolicyObject = PolicyObject(policy: Policy, template: Template) {
    ghost function Footprint(): set<object> {
      {template.labels, template.annotations, template.downloaderParams.backing, template.profileParams.backing}
    }

    ghost predicate Shows(v: PolicyView)
      reads template.labels, template.annotations, template.downloaderParams.backing, template.profileParams.backing
    {
      policy == v.policy && template.Shows(v.template)
    }
  }

  /** The listed policies hold these values; `foot` contains everything their templates refer to. */
  ghost predicate AllShow(policies: seq<PolicyObject>, pvs: seq<PolicyView>, foot: set<object>)
    reads foot
  {
    && |policies| == |pvs|
    && forall i :: 0 <= i < |policies| ==> policies[i].Footprint() <= foot && policies[i].Shows(pvs[i])
  }

  /** A generated pipeline. `view` is what it held when it was built, `footprint` everything it
      refers to; Intact says that both still hold. */
  class Pipeline {
    const generateName: string
    const namespace: string
    const labels: StringMap
    const annotations: StringMap
    const profileName: string
    const downloaderName: string
    const target: Target
    const downloaderParams: Slice
    const profileParams: Slice
    ghost const view: PipelineView
    ghost const footprint: set<object>

    ghost predicate Intact()
      reads footprint
    {
      && footprint == {this, labels, annotations, downloaderParams.backing, profileParams.backing}
      && downloaderParams.Valid() && profileParams.Valid()
      && view == PipelineView(generateName, namespace, labels.entries, annotations.entries, profileName, downloaderName,
                              target, downloaderParams.Contents(), profileParams.Contents())
    }

    constructor (
      generateName: string, namespace: string, labels: StringMap, annotations: StringMap, profileName: string,
      downloaderName: string, target: Target, downloaderParams: Slice, profileParams: Slice)
      requires downloaderParams.Valid() && profileParams.Valid()
      ensures Intact() && footprint == {this, labels, annotations, downloaderParams.backing, profileParams.backing}
      ensures view == PipelineView(
                generateName, namespace, labels.entries, annotations.entries, profileName, downloaderName,
                target, downloaderParams.Contents(), profileParams.Contents())
    {
      this.generateName, this.namespace := generateName, namespace;
      this.labels, this.annotations := labels, annotations;
      this.profileName, this.downloaderName, this.target := profileName, downloaderName, target;
      this.downloaderParams, this.profileParams := downloaderParams, profileParams;
      this.footprint := {this, labels, annotations, downloaderParams.backing, profileParams.backing};
      this.view := PipelineView(
        generateName, namespace, labels.entries, annotations.entries, profileName, downloaderName,
        target, downloaderParams.Contents(), profileParams.Contents());
    }
  }

  /** Everything the pipelines refer to. */
  ghost function Footprints(ps: seq<Pipeline>): set<object> {
    if ps == [] then {} else Footprints(ps[..|ps| - 1]) + ps[|ps| - 1].footprint
  }

  /** Every pipeline refers to nothing that an earlier one refers to. */
  ghost predicate Separate(ps: seq<Pipeline>) {
    ps == [] || (Separate(ps[..|ps| - 1]) && ps[|ps| - 1].footprint !! Footprints(ps[..|ps| - 1]))
  }

  /** In other words: no two of the pipelines have an object, map or backing array in common. */
  lemma {:induction false} SeparateMeansNothingShared(ps: seq<Pipeline>, i: nat, j: nat)
    requires Separate(ps) && i < j < |ps|
    ensures ps[i].footprint !! ps[j].footprint
  {
    if j == |ps| - 1 {
      InFootprints(ps[..j]);
    } else {
      SeparateMeansNothingShared(ps[..|ps| - 1], i, j);
    }
  }

  lemma {:induction false} InFootprints(ps: seq<Pipeline>)
    ensures forall i :: 0 <= i < |ps| ==> ps[i].footprint <= Footprints(ps)
  {
    if ps != [] { InFootprints(ps[..|ps| - 1]); }
  }

  /** One turn of the inner loop: everything the pipeline refers to is new. */
  method BuildPipeline(po: PolicyObject, ghost pv: PolicyView, actionID: string, vs: PipelineValues)
    returns (p: Pipeline)
    requires po.Shows(pv)
    ensures fresh(p.footprint) && p.Intact() && p.view == Instance(pv, actionID, vs)
  {
    var t := po.template;
    var labels := Copied(t.labels);
    var annotations := Copied(t.annotations);
    labels.entries := labels.entries[SCHEDULER_LABEL := SCHEDULER_VALUE];
    var downloaderParams := Extended(t.downloaderParams, vs.downloaderParams);
    var profileParams := Extended(t.profileParams, vs.profileParams);
    p := new Pipeline("chalkular-" + actionID + "-", po.policy.namespace, labels, annotations,
                      t.profileName, t.downloaderName, vs.target, downloaderParams, profileParams);
  }

  // ----- What a generation run hands over -----

  datatype Group = Group(report: Report, actionID: string, policy: PolicyObject, pipelines: seq<Pipeline>)

  function PipelinesOf(g: Group): seq<Pipeline> {
    g.pipelines
  }

  function AllPipelines(groups: seq<Group>): seq<Pipeline> {
    FlatMap(groups, PipelinesOf)
  }

  lemma PipelinesOfOne(g: Group)
    ensures AllPipelines([g]) == g.pipelines
  {
    FlatMapOfOne(g, PipelinesOf);
  }

  ghost predicate Realises(g: Group, plan: PlannedGroup) {
    && g.policy.policy == plan.view.policy
    && g.report == plan.report
    && g.actionID == plan.actionID
    && |g.pipelines| == |plan.values|
    && forall i :: 0 <= i < |g.pipelines| ==> Fits(g.pipelines[i].view, plan.view, plan.actionID, plan.values[i])
  }

  /** The groups are the planned ones, one for one and pipeline for pipeline, and nothing is shared. */
  ghost predicate Produced(groups: seq<Group>, plan: seq<PlannedGroup>) {
    AllRealised(groups, plan) && Separate(AllPipelines(groups))
  }

  ghost predicate AllRealised(groups: seq<Group>, plan: seq<PlannedGroup>) {
    |groups| == |plan| && forall i :: 0 <= i < |groups| ==> Realises(groups[i], plan[i])
  }

  /** They are handed over as planned, each still as it was built; `owned` is all they refer to. */
  ghost predicate Delivered(groups: seq<Group>, plan: seq<PlannedGroup>, owned: set<object>)
    reads owned
  {
    && Produced(groups, plan)
    && Footprints(AllPipelines(groups)) == owned
    && forall i :: 0 <= i < |AllPipelines(groups)| ==>
         AllPipelines(groups)[i].footprint <= owned && AllPipelines(groups)[i].Intact()
  }

  lemma {:induction false} SeparateTogether(ps: seq<Pipeline>, qs: seq<Pipeline>)
    requires Separate(ps) && Separate(qs) && Footprints(ps) !! Footprints(qs)
    ensures Separate(ps + qs) && Footprints(ps + qs) == Footprints(ps) + Footprints(qs)
  {
    if qs == [] {
      assert ps + qs == ps;
    } else {
      assert (ps + qs)[..|ps + qs| - 1] == ps + qs[..|qs| - 1];
      SeparateTogether(ps, qs[..|qs| - 1]);
    }
  }

  lemma ProducedTogether(a: seq<Group>, p: seq<PlannedGroup>, b: seq<Group>, q: seq<PlannedGroup>)
    requires Produced(a, p) && Produced(b, q) && Footprints(AllPipelines(a)) !! Footprints(AllPipelines(b))
    ensures Produced(a + b, p + q) && AllPipelines(a + b) == AllPipelines(a) + AllPipelines(b)
    ensures Footprints(AllPipelines(a + b)) == Footprints(AllPipelines(a)) + Footprints(AllPipelines(b))
  {
    FlatMapOfBoth(a, b, PipelinesOf);
    SeparateTogether(AllPipelines(a), AllPipelines(b));
    RealisedTogether(a, p, b, q);
  }

  lemma RealisedTogether(a: seq<Group>, p: seq<PlannedGroup>, b: seq<Group>, q: seq<PlannedGroup>)
    requires AllRealised(a, p) && AllRealised(b, q)
    ensures AllRealised(a + b, p + q)
  {
    forall i | 0 <= i < |a + b| ensures Realises((a + b)[i], (p + q)[i]) {
      if i >= |a| { assert Realises(b[i - |a|], q[i - |a|]); }
    }
  }

  lemma DeliveredTogether(a: seq<Group>, p: seq<PlannedGroup>, owned: set<object>,
                          b: seq<Group>, q: seq<PlannedGroup>, own: set<object>)
    requires Delivered(a, p, owned) && Delivered(b, q, own) && owned !! own
    ensures Delivered(a + b, p + q, owned + own)
  {
    ProducedTogether(a, p, b, q);
    var ps, qs := AllPipelines(a), AllPipelines(b);
    var all := AllPipelines(a + b);
    forall i | 0 <= i < |all| ensures all[i].footprint <= owned + own && all[i].Intact() {
      if i >= |ps| { assert all[i] == qs[i - |ps|]; }
    }
  }
}
