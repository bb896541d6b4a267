/** How many scheduler-made pipelines can be active at once, over every run of the cluster. */
module ActiveBound {
  import opened Wrappers
  import opened Cel
  import opened Planning
  import opened Processing

  /** Made by the scheduler and not completed: active, or still to start. */
  predicate IsOpen(p: ClusterPipeline) {
    IsScheduled(p) && !p.completed
  }

  function OpenCount(ps: seq<ClusterPipeline>): nat {
    if ps == [] then 0 else OpenCount(ps[..|ps| - 1]) + (if IsOpen(ps[|ps| - 1]) then 1 else 0)
  }

  ghost predicate AllStarted(ps: seq<ClusterPipeline>) {
    forall i :: 0 <= i < |ps| && IsOpen(ps[i]) ==> ps[i].started
  }

  /** An event is processed, or the cluster changes on its own. */
  datatype Change =
    | Event(
        faults: Faults,
        policies: seq<PolicyView>,
        reports: seq<Report>,
        created: seq<PipelineView>,
        err: Option<ProcessError>)
    | Own(drift: Drift)

  datatype Limits = Limits(settings: Settings, reports: nat, policies: nat)

  ghost predicate Happens(l: Limits, s: seq<ClusterPipeline>, s': seq<ClusterPipeline>, c: Change) {
    match c
    case Event(faults, policies, reports, created, err) =>
      && |reports| <= l.reports && |policies| <= l.policies
      && ProcessAllows(l.settings, faults, s, policies, reports, created, err)
      && s' == s + Submitted(created)
    case Own(d) => Drifts(s, s', d)
  }

  /** With the start assumption: an event is taken only when everything created before it has started. */
  ghost predicate Next(l: Limits, s: seq<ClusterPipeline>, s': seq<ClusterPipeline>, c: Change) {
    (c.Event? ==> AllStarted(s)) && Happens(l, s, s', c)
  }

  ghost predicate IsRun(l: Limits, states: seq<seq<ClusterPipeline>>, changes: seq<Change>) {
    && |states| == |changes| + 1
    && forall i :: 0 <= i < |changes| ==> Next(l, states[i], states[i + 1], changes[i])
  }

  function Max(a: int, b: int): int {
    if a < b then b else a
  }

  function Bound(l: Limits): int {
    l.settings.threshold - 1 + l.reports * (l.policies * l.settings.cap)
  }

  lemma {:induction false} OpenOfBoth(a: seq<ClusterPipeline>, b: seq<ClusterPipeline>)
    ensures OpenCount(a + b) == OpenCount(a) + OpenCount(b)
  {
    if b == [] {
      assert a + b == a;
    } else {
      assert (a + b)[..|a + b| - 1] == a + b[..|b| - 1];
      OpenOfBoth(a, b[..|b| - 1]);
    }
  }

  lemma {:induction false} OpenAtMostLength(a: seq<ClusterPipeline>)
    ensures OpenCount(a) <= |a|
  {
    if a != [] { OpenAtMostLength(a[..|a| - 1]); }
  }

  lemma {:induction false} ActiveWithinOpen(ps: seq<ClusterPipeline>)
    ensures ActiveCount(ps) <= OpenCount(ps)
    ensures AllStarted(ps) ==> ActiveCount(ps) == OpenCount(ps)
  {
    if ps != [] {
      var init := ps[..|ps| - 1];
      ActiveWithinOpen(init);
      if AllStarted(ps) { assert forall i :: 0 <= i < |init| ==> init[i] == ps[i]; }
    }
  }

  lemma ScaleBoth(r: nat, p: nat, maxR: nat, maxP: nat, cap: nat)
    requires r <= maxR && p <= maxP
    ensures r * (p * cap) <= maxR * (maxP * cap)
  {
    Scale(p, maxP, cap);
    Scale(p * cap, maxP * cap, r);
    Scale(r, maxR, maxP * cap);
  }

  lemma EventWithinBound(l: Limits, s: seq<ClusterPipeline>, s': seq<ClusterPipeline>, c: Change)
    requires l.settings.threshold > 0 && l.settings.cap > 0 && c.Event? && Next(l, s, s', c)
    ensures OpenCount(s') <= Max(OpenCount(s), Bound(l))
  {
    ProcessingIsAllOrNothing(l.settings, c.faults, s, c.policies, c.reports, c.created, c.err);
    OpenOfBoth(s, Submitted(c.created));
    OpenAtMostLength(Submitted(c.created));
    ActiveWithinOpen(s);
    if c.err.None? {
      ScaleBoth(|c.reports|, |c.policies|, l.reports, l.policies, l.settings.cap);
    }
  }

  lemma OpenSplit(a: seq<ClusterPipeline>, p: ClusterPipeline, b: seq<ClusterPipeline>)
    ensures OpenCount(a + [p] + b) == OpenCount(a) + (if IsOpen(p) then 1 else 0) + OpenCount(b)
  {
    OpenOfBoth(a + [p], b);
    OpenOneMore(a, p);
  }

  lemma OpenOneMore(s: seq<ClusterPipeline>, p: ClusterPipeline)
    ensures OpenCount(s + [p]) == OpenCount(s) + (if IsOpen(p) then 1 else 0)
  {
    assert (s + [p])[..|s|] == s;
  }

  lemma Rejoined(s: seq<ClusterPipeline>, i: nat)
    requires i < |s|
    ensures s[..i] + [s[i]] + s[i + 1..] == s
  {
  }

  /** Whatever the cluster does on its own, no more of the scheduler's pipelines are open than before. */
  lemma DriftOpensNothing(s: seq<ClusterPipeline>, s': seq<ClusterPipeline>, d: Drift)
    requires Drifts(s, s', d)
    ensures OpenCount(s') <= OpenCount(s)
  {
    match d
    case Foreign(p) => OpenOneMore(s, p);
    case Vanish(i) =>
      Rejoined(s, i);
      OpenSplit(s[..i], s[i], s[i + 1..]);
      OpenOfBoth(s[..i], s[i + 1..]);
    case Progress(i, started, completed) =>
      Rejoined(s, i);
      OpenSplit(s[..i], s[i], s[i + 1..]);
      OpenSplit(s[..i], s[i].(started := started, completed := completed), s[i + 1..]);
  }

  lemma StepWithinBound(l: Limits, s: seq<ClusterPipeline>, s': seq<ClusterPipeline>, c: Change)
    requires l.settings.threshold > 0 && l.settings.cap > 0 && Next(l, s, s', c)
    ensures OpenCount(s') <= Max(OpenCount(s), Bound(l))
  {
    match c
    case Event(_, _, _, _, _) => EventWithinBound(l, s, s', c);
    case Own(d) => DriftOpensNothing(s, s', d);
  }

  /** The bound, over every run with arbitrary progress, completion and removal: the active pipelines
      never exceed what was open at the start, or threshold - 1 plus one event's worth. */
  lemma {:induction false} ActiveStaysBounded(
    l: Limits, states: seq<seq<ClusterPipeline>>, changes: seq<Change>, i: nat)
    requires l.settings.threshold > 0 && l.settings.cap > 0
    requires IsRun(l, states, changes) && i < |states|
    ensures ActiveCount(states[i]) <= OpenCount(states[i]) <= Max(OpenCount(states[0]), Bound(l))
    ensures AllStarted(states[0]) ==> ActiveCount(states[i]) <= Max(ActiveCount(states[0]), Bound(l))
  {
    if i > 0 {
      ActiveStaysBounded(l, states, changes, i - 1);
      StepWithinBound(l, states[i - 1], states[i], changes[i - 1]);
    }
    ActiveWithinOpen(states[i]);
    ActiveWithinOpen(states[0]);
  }
}
