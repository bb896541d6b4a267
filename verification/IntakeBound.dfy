/** The bound on active pipelines, for the cluster that the runs of the intake protocol carry along. */
module IntakeBound {
  import opened Processing
  import opened Intake
  import opened ActiveBound

  /** The scheduler processes an event only when everything created before it has started, and neither the
      event nor the list of policies is larger than the limits say. */
  ghost predicate KeepsLimits(l: Limits, s: State, step: Step) {
    step.Process? && s.scheduler.Working? ==>
      AllStarted(s.cluster) && |s.scheduler.event.reports| <= l.reports && |step.policies| <= l.policies
  }

  lemma StepKeepsBound(c: Config, l: Limits, s: State, s': State, step: Step)
    requires l.settings == c.settings && l.settings.threshold > 0 && l.settings.cap > 0
    requires Takes(c, s, s', step) && KeepsLimits(l, s, step)
    ensures OpenCount(s'.cluster) <= Max(OpenCount(s.cluster), Bound(l))
  {
    match step
    case Process(faults, policies, o) =>
      StepWithinBound(l, s.cluster, s'.cluster,
                      ActiveBound.Change.Event(faults, policies, s.scheduler.event.reports, o.created, o.err));
    case ClusterDrift(d) => StepWithinBound(l, s.cluster, s'.cluster, Own(d));
    case _ => assert s'.cluster == s.cluster;
  }

  /** In every run of queue, listener, waiters, HTTP handlers and scheduler that keeps the limits, with
      retries and redeliveries: the active pipelines never exceed what was open at the start, or
      threshold - 1 plus one event's worth. */
  lemma {:induction false} IntakeKeepsBound(c: Config, l: Limits, states: seq<State>, steps: seq<Step>, i: nat)
    requires l.settings == c.settings && l.settings.threshold > 0 && l.settings.cap > 0
    requires Intake.IsRun(c, states, steps) && i < |states|
    requires forall k :: 0 <= k < |steps| ==> KeepsLimits(l, states[k], steps[k])
    ensures ActiveCount(states[i].cluster) <= OpenCount(states[i].cluster)
    ensures OpenCount(states[i].cluster) <= Max(OpenCount(states[0].cluster), Bound(l))
    ensures AllStarted(states[0].cluster) ==>
              ActiveCount(states[i].cluster) <= Max(ActiveCount(states[0].cluster), Bound(l))
  {
    if i > 0 {
      IntakeKeepsBound(c, l, states, steps, i - 1);
      StepKeepsBound(c, l, states[i - 1], states[i], steps[i - 1]);
    }
    ActiveWithinOpen(states[i].cluster);
    ActiveWithinOpen(states[0].cluster);
  }
}
