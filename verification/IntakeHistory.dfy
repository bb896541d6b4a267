/** What the runs of the intake protocol did: where the pipelines in the cluster, the events and the
    outcomes come from. */
module IntakeHistory {
  import opened Wrappers
  import opened Planning
  import opened Processing
  import opened Parsers
  import opened Intake
  import opened IntakeInvariant
  import opened IntakeSafety

  // ----- The cluster -----

  function ViewsOf(ps: seq<ClusterPipeline>): (r: seq<PipelineView>)
    ensures |r| == |ps| && forall i :: 0 <= i < |r| ==> r[i] == ps[i].view
  {
    seq(|ps|, i requires 0 <= i < |ps| => ps[i].view)
  }

  function MadeViews(made: seq<Made>): (r: seq<PipelineView>)
    ensures |r| == |made| && forall i :: 0 <= i < |r| ==> r[i] == made[i].view
  {
    seq(|made|, i requires 0 <= i < |made| => made[i].view)
  }

  /** What a step takes out of the cluster. */
  ghost function Lost(s: State, step: Step): multiset<PipelineView> {
    if step.ClusterDrift? && step.drift.Vanish? && step.drift.at < |s.cluster|
    then multiset{s.cluster[step.drift.at].view}
    else multiset{}
  }

  /** What a step brings into the cluster that the scheduler did not make. */
  ghost function Brought(step: Step): multiset<PipelineView> {
    if step.ClusterDrift? && step.drift.Foreign? then multiset{step.drift.pipeline.view} else multiset{}
  }

  ghost function AllLost(states: seq<State>, steps: seq<Step>, i: nat): multiset<PipelineView>
    requires i <= |steps| <= |states|
  {
    if i == 0 then multiset{} else AllLost(states, steps, i - 1) + Lost(states[i - 1], steps[i - 1])
  }

  ghost function AllBrought(steps: seq<Step>, i: nat): multiset<PipelineView>
    requires i <= |steps|
  {
    if i == 0 then multiset{} else AllBrought(steps, i - 1) + Brought(steps[i - 1])
  }

  lemma DriftIsConserved(s: seq<ClusterPipeline>, s': seq<ClusterPipeline>, d: Drift)
    requires Drifts(s, s', d)
    ensures d.Progress? ==> ViewsOf(s') == ViewsOf(s)
    ensures d.Foreign? ==> ViewsOf(s') == ViewsOf(s) + [d.pipeline.view]
    ensures d.Vanish? ==> multiset(ViewsOf(s')) + multiset{s[d.at].view} == multiset(ViewsOf(s))
  {
    if d.Vanish? {
      var a, b := ViewsOf(s)[..d.at], ViewsOf(s)[d.at + 1..];
      assert ViewsOf(s) == a + [s[d.at].view] + b;
      assert ViewsOf(s') == a + b;
    }
  }

  lemma MakingFillsTheCluster(c: Config, s: State, s': State, faults: Faults, policies: seq<PolicyView>, o: Outcome)
    requires Processes(c, s, s', faults, policies, o)
    ensures s'.cluster == s.cluster + Submitted(o.created)
    ensures MadeViews(s'.made) == MadeViews(s.made) + o.created
    ensures ViewsOf(s'.cluster) == ViewsOf(s.cluster) + o.created
  {
  }

  lemma OthersLeaveTheCluster(c: Config, s: State, s': State, step: Step)
    requires Takes(c, s, s', step) && !step.Process? && !step.ClusterDrift?
    ensures s'.cluster == s.cluster && s'.made == s.made
  {
  }

  lemma StepConserves(c: Config, s: State, s': State, step: Step)
    requires Takes(c, s, s', step)
    ensures multiset(ViewsOf(s'.cluster)) + Lost(s, step) + multiset(MadeViews(s.made)) ==
            multiset(ViewsOf(s.cluster)) + Brought(step) + multiset(MadeViews(s'.made))
  {
    if step.Process? {
      MakingFillsTheCluster(c, s, s', step.faults, step.policies, step.outcome);
    } else if step.ClusterDrift? {
      DriftIsConserved(s.cluster, s'.cluster, step.drift);
    } else {
      OthersLeaveTheCluster(c, s, s', step);
    }
  }

  /** Over every run: what is in the cluster, and what vanished from it, is what was there at the start, what
      the scheduler made, and what others brought. */
  lemma {:induction false} ClusterIsConserved(c: Config, states: seq<State>, steps: seq<Step>, i: nat)
    requires IsRun(c, states, steps) && i < |states|
    ensures multiset(ViewsOf(states[i].cluster)) + AllLost(states, steps, i) ==
            multiset(ViewsOf(states[0].cluster)) + multiset(MadeViews(states[i].made)) + AllBrought(steps, i)
  {
    if i > 0 {
      var s, s', step := states[i - 1], states[i], steps[i - 1];
      ClusterIsConserved(c, states, steps, i - 1);
      StepConserves(c, s, s', step);
      Balance(multiset(ViewsOf(states[0].cluster)),
              multiset(ViewsOf(s.cluster)), AllLost(states, steps, i - 1),
              multiset(MadeViews(s.made)), AllBrought(steps, i - 1),
              multiset(ViewsOf(s'.cluster)), Lost(s, step), multiset(MadeViews(s'.made)), Brought(step));
    }
  }

  lemma Balance<T>(
    start: multiset<T>, here: multiset<T>, lost: multiset<T>, made: multiset<T>, brought: multiset<T>,
    here': multiset<T>, l: multiset<T>, made': multiset<T>, b: multiset<T>)
    requires here + lost == start + made + brought && here' + l + made == here + b + made'
    ensures here' + (lost + l) == start + made' + (brought + b)
  {
    forall x: T ensures (here' + (lost + l))[x] == (start + made' + (brought + b))[x] {
      assert (here + lost)[x] == (start + made + brought)[x];
      assert (here' + l + made)[x] == (here + b + made')[x];
    }
  }

  predicate KeepsMembers(step: Step) {
    step.ClusterDrift? ==> step.drift.Progress?
  }

  /** The cluster is what it was at `start`, and then what was made. */
  ghost predicate Grew(start: State, s: State) {
    ViewsOf(s.cluster) == ViewsOf(start.cluster) + MadeViews(s.made)
  }

  lemma StepGrows(c: Config, start: State, s: State, s': State, step: Step)
    requires Takes(c, s, s', step) && KeepsMembers(step) && Grew(start, s)
    ensures Grew(start, s')
  {
    var _ := StepAppends(c, s, s', step);
  }

  /** As long as nothing vanishes and nobody else creates pipelines, the cluster is what was there at the start
      and then what the scheduler made, in the order in which it was made. */
  lemma {:induction false} ClusterIsWhatWasMade(c: Config, states: seq<State>, steps: seq<Step>, i: nat)
    requires IsRun(c, states, steps) && i < |states|
    requires forall k :: 0 <= k < i ==> KeepsMembers(steps[k])
    ensures ViewsOf(states[i].cluster) == ViewsOf(states[0].cluster) + MadeViews(states[i].made)
  {
    if i > 0 {
      ClusterIsWhatWasMade(c, states, steps, i - 1);
      StepGrows(c, states[0], states[i - 1], states[i], steps[i - 1]);
    }
  }

  /** Nothing has happened to what was made. */
  ghost predicate GrewUndisturbed(start: State, s: State) {
    s.cluster == start.cluster + Submitted(MadeViews(s.made))
  }

  lemma UndisturbedStepGrows(c: Config, start: State, s: State, s': State, step: Step)
    requires Takes(c, s, s', step) && !step.ClusterDrift? && GrewUndisturbed(start, s)
    ensures GrewUndisturbed(start, s')
  {
    var created := StepAppends(c, s, s', step);
    SubmittedBoth(MadeViews(s.made), created);
  }

  /** And as long as nothing happens to them either, they are as they were submitted: not started. */
  lemma {:induction false} ClusterIsAsSubmitted(c: Config, states: seq<State>, steps: seq<Step>, i: nat)
    requires IsRun(c, states, steps) && i < |states|
    requires forall k :: 0 <= k < i ==> !steps[k].ClusterDrift?
    ensures states[i].cluster == states[0].cluster + Submitted(MadeViews(states[i].made))
  {
    if i > 0 {
      ClusterIsAsSubmitted(c, states, steps, i - 1);
      UndisturbedStepGrows(c, states[0], states[i - 1], states[i], steps[i - 1]);
    }
  }

  lemma SubmittedBoth(a: seq<PipelineView>, b: seq<PipelineView>)
    ensures Submitted(a + b) == Submitted(a) + Submitted(b)
  {
  }

  lemma StepAppends(c: Config, s: State, s': State, step: Step) returns (created: seq<PipelineView>)
    requires Takes(c, s, s', step) && KeepsMembers(step)
    ensures MadeViews(s'.made) == MadeViews(s.made) + created
    ensures ViewsOf(s'.cluster) == ViewsOf(s.cluster) + created
    ensures !step.ClusterDrift? ==> s'.cluster == s.cluster + Submitted(created)
  {
    created := [];
    if step.Process? {
      MakingFillsTheCluster(c, s, s', step.faults, step.policies, step.outcome);
      created := step.outcome.created;
    } else if step.ClusterDrift? {
      DriftIsConserved(s.cluster, s'.cluster, step.drift);
    } else {
      OthersLeaveTheCluster(c, s, s', step);
    }
  }

  // ----- Events and outcomes -----

  /** The step enqueues the event: an HTTP handler posts exactly its reports, or parsing the delivery whose
      receipt it has gives them. */
  ghost predicate Enqueues(c: Config, s: State, step: Step, e: Event) {
    match e.source
    case FromHttp => step == Post(e.reports)
    case FromQueue(receipt) =>
      && step.Parse? && receipt < |s.deliveries| && s.deliveries[receipt] in s.sent
      && var body := s.sent[s.deliveries[receipt]];
         AnswersFor(body, step.fetched) && ParserOutcome(c.parser, body, step.fetched) == Ok(e.reports)
  }

  lemma ParseEnqueues(c: Config, s: State, s': State, fetched: seq<Fetched>)
    requires DeliveriesInv(c, s) && Parses(c, s, s', fetched)
    ensures s'.events == s.events ||
            exists e :: s'.events == s.events + [e] && Enqueues(c, s, Parse(fetched), e)
  {
    var d := s.listener.rest[0];
    assert d == Delivery(|s.parsed|, s.deliveries[|s.parsed|]);
    var r := ParserOutcome(c.parser, s.sent[d.message], fetched);
    if r.Ok? { assert Enqueues(c, s, Parse(fetched), Event(|s.events|, r.value, FromQueue(d.receipt))); }
  }

  lemma OthersEnqueueNothing(c: Config, s: State, s': State, step: Step)
    requires Takes(c, s, s', step) && !step.Parse? && !step.Post?
    ensures s'.events == s.events
  {
  }

  lemma NewEventIsEnqueued(c: Config, s: State, s': State, step: Step, id: nat)
    requires DeliveriesInv(c, s) && Takes(c, s, s', step) && id < |s'.events|
    ensures id < |s.events| ==> s'.events[id] == s.events[id]
    ensures id >= |s.events| ==> Enqueues(c, s, step, s'.events[id])
  {
    if step.Parse? {
      ParseEnqueues(c, s, s', step.fetched);
    } else if step.Post? {
      assert s'.events == s.events + [Event(|s.events|, step.reports, FromHttp)];
    } else {
      OthersEnqueueNothing(c, s, s', step);
    }
  }

  lemma RunEnqueues(c: Config, states: seq<State>, steps: seq<Step>, k: nat, id: nat)
    requires IsRun(c, states, steps) && k < |steps| && id < |states[k + 1].events|
    ensures id < |states[k].events| ==> states[k + 1].events[id] == states[k].events[id]
    ensures id >= |states[k].events| ==> Enqueues(c, states[k], steps[k], states[k + 1].events[id])
  {
    Reachable(c, states, steps, k);
    NewEventIsEnqueued(c, states[k], states[k + 1], steps[k], id);
  }

  /** Every event was enqueued at some step of the run, with the reports it still carries. */
  lemma {:induction false} EventHasOrigin(c: Config, states: seq<State>, steps: seq<Step>, i: nat, id: nat)
    returns (j: nat)
    requires IsRun(c, states, steps) && i < |states| && id < |states[i].events|
    ensures j < i && Enqueues(c, states[j], steps[j], states[i].events[id])
  {
    RunEnqueues(c, states, steps, i - 1, id);
    if id < |states[i - 1].events| { j := EventHasOrigin(c, states, steps, i - 1, id); } else { j := i - 1; }
  }

  /** The step is the processing of the event, with this outcome, in the cluster as it was then. */
  ghost predicate Decides(c: Config, s: State, step: Step, e: Event, o: Outcome) {
    && step.Process? && step.outcome == o && s.scheduler == Working(e)
    && ProcessAllows(c.settings, step.faults, s.cluster, step.policies, e.reports, o.created, o.err)
  }

  lemma ProcessDecides(
    c: Config, s: State, s': State, faults: Faults, policies: seq<PolicyView>, o: Outcome, id: nat)
    requires Inv(c, s) && Processes(c, s, s', faults, policies, o) && id in s'.outcomes
    ensures id < |s.events| && s'.events == s.events
    ensures if id in s.outcomes then s'.outcomes[id] == s.outcomes[id]
            else Decides(c, s, Process(faults, policies, o), s.events[id], s'.outcomes[id])
  {
    assert Phase(s, s.scheduler.event.id);
  }

  lemma OthersDecideNothing(c: Config, s: State, s': State, step: Step)
    requires Takes(c, s, s', step) && !step.Process?
    ensures s'.outcomes == s.outcomes && s.events <= s'.events
  {
  }

  lemma NewOutcomeIsDecided(c: Config, s: State, s': State, step: Step, id: nat)
    requires Inv(c, s) && Takes(c, s, s', step) && id in s'.outcomes
    ensures id < |s.events| <= |s'.events| && s'.events[id] == s.events[id]
    ensures if id in s.outcomes then s'.outcomes[id] == s.outcomes[id]
            else Decides(c, s, step, s.events[id], s'.outcomes[id])
  {
    if step.Process? {
      ProcessDecides(c, s, s', step.faults, step.policies, step.outcome, id);
    } else {
      OthersDecideNothing(c, s, s', step);
    }
  }

  lemma RunDecides(c: Config, states: seq<State>, steps: seq<Step>, k: nat, id: nat)
    requires IsRun(c, states, steps) && k < |steps| && id in states[k + 1].outcomes
    ensures id < |states[k].events| <= |states[k + 1].events| && states[k + 1].events[id] == states[k].events[id]
    ensures if id in states[k].outcomes then states[k + 1].outcomes[id] == states[k].outcomes[id]
            else Decides(c, states[k], steps[k], states[k].events[id], states[k + 1].outcomes[id])
  {
    Reachable(c, states, steps, k);
    NewOutcomeIsDecided(c, states[k], states[k + 1], steps[k], id);
  }

  /** Every outcome was decided at some step of the run, and never afterwards. */
  lemma {:induction false} OutcomeHasOrigin(c: Config, states: seq<State>, steps: seq<Step>, i: nat, id: nat)
    returns (j: nat)
    requires IsRun(c, states, steps) && i < |states| && id in states[i].outcomes
    ensures j < i && id < |states[j].events| && id < |states[i].events| && states[i].events[id] == states[j].events[id]
    ensures Decides(c, states[j], steps[j], states[i].events[id], states[i].outcomes[id])
  {
    RunDecides(c, states, steps, i - 1, id);
    if id in states[i - 1].outcomes { j := OutcomeHasOrigin(c, states, steps, i - 1, id); } else { j := i - 1; }
  }

  lemma DeletedIsKnown(c: Config, states: seq<State>, steps: seq<Step>, i: nat, e: Event)
    requires IsRun(c, states, steps) && i < |states| && e in states[i].deleting + states[i].deleteCalls
    ensures e.source.FromQueue? && e.id < |states[i].events| && states[i].events[e.id] == e
    ensures e.id in states[i].outcomes && states[i].outcomes[e.id].err.None?
  {
    Reachable(c, states, steps, i);
    assert Queued(states[i], e) && Succeeded(states[i], e);
  }

  /** Behind every delete call: the delivery whose receipt it uses was parsed at step p, and at the later step
      q the scheduler processed exactly the reports it had parsed to, without an error. */
  lemma DeleteHasHistory(c: Config, states: seq<State>, steps: seq<Step>, i: nat, e: Event) returns (p: nat, q: nat)
    requires IsRun(c, states, steps) && i < |states| && e in states[i].deleting + states[i].deleteCalls
    ensures p < q < i && e.source.FromQueue? && Enqueues(c, states[p], steps[p], e)
    ensures exists o :: Decides(c, states[q], steps[q], e, o) && o.err.None?
  {
    DeletedIsKnown(c, states, steps, i, e);
    q := OutcomeHasOrigin(c, states, steps, i, e.id);
    p := EventHasOrigin(c, states, steps, q, e.id);
  }
}
