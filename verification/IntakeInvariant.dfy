/** The invariant of the intake protocol, and the proof that every step keeps it. */
module IntakeInvariant {
  import opened Wrappers
  import opened Cel
  import opened Planning
  import opened Processing
  import opened Parsers
  import opened Intake
  import opened Sequences

  // ----- Events and deliveries -----

  ghost predicate Known(s: State, e: Event) {
    e.id < |s.events| && s.events[e.id] == e
  }

  /** A known event that came from the queue. */
  ghost predicate Queued(s: State, e: Event) {
    Known(s, e) && e.source.FromQueue?
  }

  /** The event came from a parsed delivery and carries exactly what the parser returned for it. */
  ghost predicate Sourced(s: State, e: Event) {
    e.source.FromQueue? ==> e.source.receipt < |s.parsed| && s.parsed[e.source.receipt] == Ok(e.reports)
  }

  predicate HoldsEvent(l: ListenerPc) {
    l.Sending? || l.Returned?
  }

  predicate Busy(p: SchedulerPc) {
    p.Working? || p.Answering? || p.Closing?
  }

  ghost predicate EventsInv(s: State) {
    && |s.replies| == |s.events|
    && (forall id :: 0 <= id < |s.events| ==> s.events[id].id == id && Sourced(s, s.events[id]))
    && (forall e :: e in s.http ==> Known(s, e) && e.source.FromHttp?)
    && (forall e :: e in s.awaiting ==> Queued(s, e))
    && (forall a :: a in s.got ==> Queued(s, a.event))
    && (forall e :: e in s.deleting ==> Queued(s, e))
    && (forall e :: e in s.deleteCalls ==> Queued(s, e))
    && (HoldsEvent(s.listener) ==> Queued(s, s.listener.event))
    && (Busy(s.scheduler) ==> Known(s, s.scheduler.event))
  }

  function Rest(l: ListenerPc): seq<Delivery> {
    if l.Handling? || l.Sending? || l.Returned? then l.rest else []
  }

  ghost predicate MayParse(c: Config, body: Body, r: Parsed) {
    exists fetched :: AnswersFor(body, fetched) && r == ParserOutcome(c.parser, body, fetched)
  }

  /** Some delete call was made for a delivery of the message. */
  ghost predicate DeleteCalled(s: State, message: nat) {
    exists e :: e in s.deleteCalls && e.source.FromQueue? && e.source.receipt < |s.deliveries|
                && s.deliveries[e.source.receipt] == message
  }

  ghost predicate DeliveriesInv(c: Config, s: State) {
    && |s.parsed| + |Rest(s.listener)| == |s.deliveries|
    && (forall i :: 0 <= i < |Rest(s.listener)| ==>
          Rest(s.listener)[i] == Delivery(|s.parsed| + i, s.deliveries[|s.parsed| + i]))
    && (forall r :: 0 <= r < |s.deliveries| ==> s.deliveries[r] in s.sent)
    && (forall r :: 0 <= r < |s.parsed| ==> MayParse(c, s.sent[s.deliveries[r]], s.parsed[r]))
    && (forall m :: m in s.queue ==> m in s.sent)
    && (forall m :: m in s.sent && m !in s.queue ==> DeleteCalled(s, m))
  }

  // ----- The life of one event -----

  /** Made, but not yet taken from the bus. */
  ghost predicate Pending(s: State, id: nat)
    requires id < |s.events|
  {
    (s.listener.Sending? && s.listener.event.id == id) || s.events[id] in s.http
  }

  predicate Engaged(s: State, id: nat) {
    Busy(s.scheduler) && s.scheduler.event.id == id
  }

  /** Pending, in the scheduler's hands, or answered once and closed. */
  ghost predicate Phase(s: State, id: nat)
    requires id < |s.events| == |s.replies|
  {
    var r := s.replies[id];
    if Pending(s, id) then !Engaged(s, id) && r == NEW_REPLY && id !in s.outcomes
    else if !Engaged(s, id) then r.sends == 1 && r.closed && id in s.outcomes
    else match s.scheduler
      case Working(_) => r == NEW_REPLY && id !in s.outcomes
      case Answering(_, err) => r == NEW_REPLY && id in s.outcomes && s.outcomes[id].err == err
      case _ => r.sends == 1 && !r.closed && id in s.outcomes
  }

  ghost predicate PhaseInv(s: State)
    requires |s.replies| == |s.events|
  {
    && (forall id :: 0 <= id < |s.events| ==> Phase(s, id))
    && (forall id :: id in s.outcomes ==> id < |s.events|)
    && !s.panicked
  }

  // ----- The waiters -----

  ghost predicate AnswerReady(s: State, e: Event)
    requires |s.replies| == |s.events|
  {
    e.id < |s.replies| && (s.replies[e.id].sends == 1 ==>
      e.id in s.outcomes && s.replies[e.id].buffer == [s.outcomes[e.id].err])
  }

  ghost predicate Succeeded(s: State, e: Event) {
    e.id in s.outcomes && s.outcomes[e.id].err.None?
  }

  ghost predicate Elsewhere(s: State, e: Event) {
    e !in s.awaiting && e !in s.deleting && forall a :: a in s.got ==> a.event != e
  }

  ghost predicate WaitersInv(s: State)
    requires |s.replies| == |s.events|
  {
    && (forall e :: e in s.awaiting ==> e !in s.deleting && AnswerReady(s, e))
    && (forall a :: a in s.got ==>
          && a.event !in s.awaiting && a.event !in s.deleting
          && a.event.id in s.outcomes && s.outcomes[a.event.id].err == a.err)
    && (forall e :: e in s.deleting ==> Succeeded(s, e))
    && (forall e :: e in s.deleteCalls ==> Succeeded(s, e))
    && (HoldsEvent(s.listener) ==> Elsewhere(s, s.listener.event))
    && (s.listener.Returned? ==> AnswerReady(s, s.listener.event))
  }

  // ----- Metrics and the cluster -----

  /** The listener's share of the messages in flight. */
  function InHand(l: ListenerPc): nat {
    |Rest(l)| + (if HoldsEvent(l) then 1 else 0)
  }

  function InFlight(s: State): nat {
    InHand(s.listener) + |s.awaiting| + |s.got|
  }

  ghost predicate CountsInv(s: State) {
    && s.received == s.succeeded + s.failed + InFlight(s)
    && s.succeeded == s.deleted + s.deleteFailures + |s.deleting|
  }

  function ViewIfFor(id: nat): Made -> seq<PipelineView> {
    (m: Made) => if m.event == id then [m.view] else []
  }

  function MadeBy(made: seq<Made>, id: nat): seq<PipelineView> {
    FlatMap(made, ViewIfFor(id))
  }

  function CreatedFor(s: State, id: nat): seq<PipelineView> {
    if id in s.outcomes then s.outcomes[id].created else []
  }

  /** Some call of processReports on these reports may end like this. */
  ghost predicate MayProcess(c: Config, reports: seq<Report>, o: Outcome) {
    exists faults, before, policies :: ProcessAllows(c.settings, faults, before, policies, reports, o.created, o.err)
  }

  ghost predicate MadeInv(c: Config, s: State) {
    && (forall id: nat :: MadeBy(s.made, id) == CreatedFor(s, id))
    && (forall id :: id in s.outcomes ==> id < |s.events| && MayProcess(c, s.events[id].reports, s.outcomes[id]))
  }

  ghost predicate Inv(c: Config, s: State) {
    EventsInv(s) && DeliveriesInv(c, s) && PhaseInv(s) && WaitersInv(s) && CountsInv(s) && MadeInv(c, s)
  }

  // ----- Every step keeps it -----

  /** No new events; those there are move only along their path. */
  ghost predicate Flows(s: State, s': State) {
    && s'.events == s.events && |s'.replies| == |s.replies| && s.parsed <= s'.parsed
    && s'.http <= s.http
    && (forall e :: e in s'.awaiting ==> e in s.awaiting || (HoldsEvent(s.listener) && e == s.listener.event))
    && (forall a :: a in s'.got ==> a in s.got || a.event in s.awaiting)
    && (forall e :: e in s'.deleting ==> e in s.deleting || exists a :: a in s.got && a.event == e)
    && (forall e :: e in s'.deleteCalls ==> e in s.deleteCalls || e in s.deleting)
    && (HoldsEvent(s'.listener) ==> HoldsEvent(s.listener) && s'.listener.event == s.listener.event)
    && (Busy(s'.scheduler) ==>
          || (Busy(s.scheduler) && s'.scheduler.event == s.scheduler.event)
          || s'.scheduler.event in s.http
          || (HoldsEvent(s.listener) && s'.scheduler.event == s.listener.event))
  }

  predicate IsSchedulerStep(step: Step) {
    || step.AcceptFromListener? || step.AcceptFromHttp? || step.Process?
    || step.SendReply? || step.CloseReply? || step.StopScheduler?
  }

  lemma SchedulerStepsFlow(c: Config, s: State, s': State, step: Step)
    requires Takes(c, s, s', step) && IsSchedulerStep(step) && |s.replies| == |s.events|
    ensures Flows(s, s')
  {
  }

  lemma OtherStepsFlow(c: Config, s: State, s': State, step: Step)
    requires Takes(c, s, s', step) && !IsSchedulerStep(step) && !step.Parse? && !step.Post?
    requires |s.replies| == |s.events|
    ensures Flows(s, s')
  {
  }

  lemma FlowKeepsEvents(s: State, s': State)
    requires EventsInv(s) && Flows(s, s')
    ensures EventsInv(s')
  {
  }

  /** e is new; everything else stays where it was. */
  ghost predicate Opens(s: State, s': State, e: Event) {
    && s'.events == s.events + [e] && |s'.replies| == |s.replies| + 1 && s.parsed <= s'.parsed
    && s'.awaiting == s.awaiting && s'.got == s.got && s'.scheduler == s.scheduler
    && s'.deleting == s.deleting && s'.deleteCalls == s.deleteCalls
    && (s'.http == s.http || (e.source.FromHttp? && s'.http == s.http + {e}))
    && (s'.listener == s.listener || (e.source.FromQueue? && s'.listener.Sending? && s'.listener.event == e))
  }

  lemma OpeningKeepsEvents(s: State, s': State, e: Event)
    requires EventsInv(s) && Opens(s, s', e) && e.id == |s.events| && Sourced(s', e)
    ensures EventsInv(s')
  {
    forall id | 0 <= id < |s'.events| ensures s'.events[id].id == id && Sourced(s', s'.events[id]) {
      if id < |s.events| { assert Sourced(s, s.events[id]); }
    }
  }

  lemma ParseKeepsEvents(c: Config, s: State, s': State, fetched: seq<Fetched>)
    requires EventsInv(s) && DeliveriesInv(c, s) && Parses(c, s, s', fetched)
    ensures EventsInv(s')
  {
    var d := s.listener.rest[0];
    var r := ParserOutcome(c.parser, s.sent[d.message], fetched);
    if r.Ok? {
      OpeningKeepsEvents(s, s', Event(|s.events|, r.value, FromQueue(d.receipt)));
    } else {
      FlowKeepsEvents(s, s');
    }
  }

  lemma EventsKept(c: Config, s: State, s': State, step: Step)
    requires EventsInv(s) && DeliveriesInv(c, s) && Takes(c, s, s', step)
    ensures EventsInv(s')
  {
    if step.Parse? {
      ParseKeepsEvents(c, s, s', step.fetched);
    } else if step.Post? {
      OpeningKeepsEvents(s, s', Event(|s.events|, step.reports, FromHttp));
    } else {
      if IsSchedulerStep(step) { SchedulerStepsFlow(c, s, s', step); } else { OtherStepsFlow(c, s, s', step); }
      FlowKeepsEvents(s, s');
    }
  }

  lemma SendKeepsDeliveries(c: Config, s: State, s': State, message: nat, body: Body)
    requires DeliveriesInv(c, s) && Sends(s, s', message, body)
    ensures DeliveriesInv(c, s')
  {
    forall m | m in s'.sent && m !in s'.queue ensures DeleteCalled(s', m) { assert DeleteCalled(s, m); }
  }

  lemma ReceiveKeepsDeliveries(c: Config, s: State, s': State, messages: seq<nat>)
    requires DeliveriesInv(c, s) && EventsInv(s) && Receives(s, s', messages)
    ensures DeliveriesInv(c, s')
  {
    forall m | m in s'.sent && m !in s'.queue ensures DeleteCalled(s', m) {
      assert DeleteCalled(s, m);
      var e :| e in s.deleteCalls && e.source.FromQueue? && e.source.receipt < |s.deliveries|
               && s.deliveries[e.source.receipt] == m;
      assert s'.deliveries[e.source.receipt] == m;
    }
  }

  lemma SameDeleteCalls(s: State, s': State, message: nat)
    requires s'.deleteCalls == s.deleteCalls && s'.deliveries == s.deliveries
    ensures DeleteCalled(s', message) <==> DeleteCalled(s, message)
  {
  }

  lemma ParseKeepsDeliveries(c: Config, s: State, s': State, fetched: seq<Fetched>)
    requires DeliveriesInv(c, s) && Parses(c, s, s', fetched)
    ensures DeliveriesInv(c, s')
  {
    var n := |s.parsed|;
    var r := ParserOutcome(c.parser, s.sent[s.deliveries[n]], fetched);
    assert s.listener.rest[0] == Delivery(n, s.deliveries[n]) && s'.parsed == s.parsed + [r];
    assert MayParse(c, s.sent[s.deliveries[n]], r);
    forall m | m in s'.sent && m !in s'.queue ensures DeleteCalled(s', m) { SameDeleteCalls(s, s', m); }
  }

  lemma DeleteKeepsDeliveries(c: Config, s: State, s': State, e: Event, ok: bool, removed: bool)
    requires DeliveriesInv(c, s) && Deletes(s, s', e, ok, removed)
    ensures DeliveriesInv(c, s')
  {
    forall m | m in s'.sent && m !in s'.queue ensures DeleteCalled(s', m) {
      if m in s.queue {
        assert e in s'.deleteCalls;
      } else {
        assert DeleteCalled(s, m);
        var d :| d in s.deleteCalls && d.source.FromQueue? && d.source.receipt < |s.deliveries|
                 && s.deliveries[d.source.receipt] == m;
        assert d in s'.deleteCalls;
      }
    }
  }

  lemma OthersKeepDeliveries(c: Config, s: State, s': State)
    requires DeliveriesInv(c, s)
    requires s'.sent == s.sent && s'.queue == s.queue && s'.deliveries == s.deliveries && s'.parsed == s.parsed
    requires Rest(s'.listener) == Rest(s.listener) && s'.deleteCalls == s.deleteCalls
    ensures DeliveriesInv(c, s')
  {
    forall m | m in s'.sent && m !in s'.queue ensures DeleteCalled(s', m) { assert DeleteCalled(s, m); }
  }

  lemma DeliveriesKept(c: Config, s: State, s': State, step: Step)
    requires EventsInv(s) && DeliveriesInv(c, s) && Takes(c, s, s', step)
    ensures DeliveriesInv(c, s')
  {
    if step.Send? {
      SendKeepsDeliveries(c, s, s', step.message, step.body);
    } else if step.Receive? {
      ReceiveKeepsDeliveries(c, s, s', step.messages);
    } else if step.Parse? {
      ParseKeepsDeliveries(c, s, s', step.fetched);
    } else if step.Delete? {
      DeleteKeepsDeliveries(c, s, s', step.event, step.ok, step.removed);
    } else {
      OthersKeepDeliveries(c, s, s');
    }
  }

  lemma SchedulerKeepsPhase(c: Config, s: State, s': State, step: Step)
    requires EventsInv(s) && PhaseInv(s) && Takes(c, s, s', step) && IsSchedulerStep(step)
    ensures |s'.replies| == |s'.events| && PhaseInv(s')
  {
    if Busy(s.scheduler) { assert Phase(s, s.scheduler.event.id); }
    forall id | 0 <= id < |s'.events| ensures Phase(s', id) { assert Phase(s, id); }
  }

  /** A step that makes an event, or takes nothing from the bus. */
  lemma OthersKeepPhase(c: Config, s: State, s': State, step: Step)
    requires EventsInv(s) && PhaseInv(s) && Takes(c, s, s', step) && !IsSchedulerStep(step)
    ensures |s'.replies| == |s'.events| && PhaseInv(s')
  {
    forall id | 0 <= id < |s'.events| ensures Phase(s', id) {
      if id < |s.events| { OthersKeepOnePhase(c, s, s', step, id); }
    }
  }

  lemma OthersKeepOnePhase(c: Config, s: State, s': State, step: Step, id: nat)
    requires EventsInv(s) && PhaseInv(s) && Takes(c, s, s', step) && !IsSchedulerStep(step) && id < |s.events|
    ensures |s'.replies| == |s'.events| && |s.events| <= |s'.events| && Phase(s', id)
  {
    assert Phase(s, id);
  }

  lemma PhaseKept(c: Config, s: State, s': State, step: Step)
    requires EventsInv(s) && PhaseInv(s) && Takes(c, s, s', step)
    ensures |s'.replies| == |s'.events| && PhaseInv(s')
  {
    if IsSchedulerStep(step) { SchedulerKeepsPhase(c, s, s', step); } else { OthersKeepPhase(c, s, s', step); }
  }

  lemma AcceptKeepsWaiters(s: State, s': State, e: Event)
    requires EventsInv(s) && PhaseInv(s) && WaitersInv(s)
    requires AcceptsFromListener(s, s') || AcceptsFromHttp(s, s', e)
    ensures |s'.replies| == |s'.events| && WaitersInv(s')
  {
    if HoldsEvent(s.listener) { assert Phase(s, s.listener.event.id); }
  }

  /** Nothing but the outcomes changes for the waiters, and those there are stay. */
  lemma NewOutcomeKeepsWaiters(s: State, s': State)
    requires |s.replies| == |s.events| && WaitersInv(s)
    requires s'.replies == s.replies && s'.events == s.events && s'.listener == s.listener
    requires s'.awaiting == s.awaiting && s'.got == s.got
    requires s'.deleting == s.deleting && s'.deleteCalls == s.deleteCalls
    requires forall id :: id in s.outcomes ==> id in s'.outcomes && s'.outcomes[id] == s.outcomes[id]
    ensures WaitersInv(s')
  {
  }

  lemma ProcessKeepsWaiters(c: Config, s: State, s': State, faults: Faults, policies: seq<PolicyView>, o: Outcome)
    requires EventsInv(s) && PhaseInv(s) && WaitersInv(s) && Processes(c, s, s', faults, policies, o)
    ensures |s'.replies| == |s'.events| && WaitersInv(s')
  {
    assert Phase(s, s.scheduler.event.id);
    NewOutcomeKeepsWaiters(s, s');
  }

  lemma SendReplyKeepsWaiters(s: State, s': State)
    requires EventsInv(s) && PhaseInv(s) && WaitersInv(s) && SendsReply(s, s')
    ensures |s'.replies| == |s'.events| && WaitersInv(s')
  {
    assert Phase(s, s.scheduler.event.id);
  }

  lemma CloseReplyKeepsWaiters(s: State, s': State)
    requires EventsInv(s) && PhaseInv(s) && WaitersInv(s) && ClosesReply(s, s')
    ensures |s'.replies| == |s'.events| && WaitersInv(s')
  {
    assert Phase(s, s.scheduler.event.id);
  }

  lemma SchedulerKeepsWaiters(c: Config, s: State, s': State, step: Step)
    requires EventsInv(s) && PhaseInv(s) && WaitersInv(s) && Takes(c, s, s', step) && IsSchedulerStep(step)
    ensures |s'.replies| == |s'.events| && WaitersInv(s')
  {
    if step.AcceptFromListener? {
      AcceptKeepsWaiters(s, s', s.listener.event);
    } else if step.AcceptFromHttp? {
      AcceptKeepsWaiters(s, s', step.event);
    } else if step.Process? {
      ProcessKeepsWaiters(c, s, s', step.faults, step.policies, step.outcome);
    } else if step.SendReply? {
      SendReplyKeepsWaiters(s, s');
    } else if step.CloseReply? {
      CloseReplyKeepsWaiters(s, s');
    }
  }

  lemma AwaitKeepsWaiters(s: State, s': State, e: Event)
    requires EventsInv(s) && PhaseInv(s) && WaitersInv(s) && Awaits(s, s', e)
    ensures |s'.replies| == |s'.events| && WaitersInv(s')
  {
    assert Phase(s, e.id);
  }

  lemma CountKeepsWaiters(s: State, s': State, a: Answered)
    requires EventsInv(s) && WaitersInv(s) && Counts(s, s', a)
    ensures |s'.replies| == |s'.events| && WaitersInv(s')
  {
    forall b | b in s'.got ensures b.event !in s'.deleting {
      if b.event == a.event { assert b == a; }
    }
  }

  lemma SpawnKeepsWaiters(s: State, s': State)
    requires EventsInv(s) && WaitersInv(s) && Spawns(s, s')
    ensures |s'.replies| == |s'.events| && WaitersInv(s')
  {
  }

  lemma DeleteKeepsWaiters(s: State, s': State, e: Event, ok: bool, removed: bool)
    requires EventsInv(s) && WaitersInv(s) && Deletes(s, s', e, ok, removed)
    ensures |s'.replies| == |s'.events| && WaitersInv(s')
  {
  }

  /** The waiters, their events and their replies are left alone; the listener may hold a new event. */
  ghost predicate LeavesWaiters(s: State, s': State) {
    && s.replies <= s'.replies && |s'.replies| == |s'.events| && s'.outcomes == s.outcomes
    && s'.awaiting == s.awaiting && s'.got == s.got
    && s'.deleting == s.deleting && s'.deleteCalls == s.deleteCalls
    && (HoldsEvent(s'.listener) ==>
          s'.listener == s.listener || (s'.listener.Sending? && s'.listener.event.id == |s.events|))
  }

  lemma LeavingKeepsWaiters(s: State, s': State)
    requires EventsInv(s) && WaitersInv(s) && LeavesWaiters(s, s')
    ensures WaitersInv(s')
  {
  }

  lemma OthersLeaveWaiters(c: Config, s: State, s': State, step: Step)
    requires Takes(c, s, s', step) && |s.replies| == |s.events|
    requires !IsSchedulerStep(step) && !step.Await? && !step.Count? && !step.Spawn? && !step.Delete?
    ensures LeavesWaiters(s, s')
  {
  }

  lemma WaiterStepsKeepWaiters(c: Config, s: State, s': State, step: Step)
    requires EventsInv(s) && PhaseInv(s) && WaitersInv(s) && Takes(c, s, s', step) && !IsSchedulerStep(step)
    ensures |s'.replies| == |s'.events| && WaitersInv(s')
  {
    if step.Await? {
      AwaitKeepsWaiters(s, s', step.event);
    } else if step.Count? {
      CountKeepsWaiters(s, s', step.answered);
    } else if step.Spawn? {
      SpawnKeepsWaiters(s, s');
    } else if step.Delete? {
      DeleteKeepsWaiters(s, s', step.event, step.ok, step.removed);
    } else {
      OthersLeaveWaiters(c, s, s', step);
      LeavingKeepsWaiters(s, s');
    }
  }

  lemma WaitersKept(c: Config, s: State, s': State, step: Step)
    requires EventsInv(s) && PhaseInv(s) && WaitersInv(s) && Takes(c, s, s', step)
    ensures |s'.replies| == |s'.events| && WaitersInv(s')
  {
    if IsSchedulerStep(step) {
      SchedulerKeepsWaiters(c, s, s', step);
    } else {
      WaiterStepsKeepWaiters(c, s, s', step);
    }
  }

  lemma ListenerKeepsCounts(c: Config, s: State, s': State, step: Step)
    requires CountsInv(s) && Takes(c, s, s', step) && (step.Parse? || step.Receive?)
    ensures CountsInv(s')
  {
    assert s'.awaiting == s.awaiting && s'.got == s.got && s'.deleting == s.deleting;
    assert s'.received - s.received == InHand(s'.listener) - InHand(s.listener) + (s'.failed - s.failed);
  }

  lemma SpawnKeepsCounts(s: State, s': State)
    requires |s.replies| == |s.events| && WaitersInv(s) && CountsInv(s) && Spawns(s, s')
    ensures CountsInv(s')
  {
    assert |s'.awaiting| == |s.awaiting| + 1;
  }

  lemma AwaitKeepsCounts(s: State, s': State, e: Event)
    requires |s.replies| == |s.events| && WaitersInv(s) && CountsInv(s) && Awaits(s, s', e)
    ensures CountsInv(s')
  {
    assert |s'.awaiting| == |s.awaiting| - 1 && |s'.got| == |s.got| + 1;
  }

  lemma CountKeepsCounts(s: State, s': State, a: Answered)
    requires |s.replies| == |s.events| && WaitersInv(s) && CountsInv(s) && Counts(s, s', a)
    ensures CountsInv(s')
  {
    assert |s'.got| == |s.got| - 1;
    assert a.event !in s.deleting;
  }

  lemma DeleteKeepsCounts(s: State, s': State, e: Event, ok: bool, removed: bool)
    requires CountsInv(s) && Deletes(s, s', e, ok, removed)
    ensures CountsInv(s')
  {
    assert |s'.deleting| == |s.deleting| - 1;
  }

  lemma SchedulerKeepsCounts(c: Config, s: State, s': State, step: Step)
    requires CountsInv(s) && Takes(c, s, s', step) && IsSchedulerStep(step)
    ensures CountsInv(s')
  {
    assert InHand(s'.listener) == InHand(s.listener);
  }

  lemma OthersKeepCounts(c: Config, s: State, s': State, step: Step)
    requires CountsInv(s) && Takes(c, s, s', step) && !IsSchedulerStep(step)
    requires !step.Parse? && !step.Receive? && !step.Spawn? && !step.Await? && !step.Count? && !step.Delete?
    ensures CountsInv(s')
  {
    assert InHand(s'.listener) == InHand(s.listener);
  }

  lemma CountsKept(c: Config, s: State, s': State, step: Step)
    requires |s.replies| == |s.events| && WaitersInv(s) && CountsInv(s) && Takes(c, s, s', step)
    ensures CountsInv(s')
  {
    match step
    case Parse(_) => ListenerKeepsCounts(c, s, s', step);
    case Receive(_) => ListenerKeepsCounts(c, s, s', step);
    case Spawn => SpawnKeepsCounts(s, s');
    case Await(e) => AwaitKeepsCounts(s, s', e);
    case Count(a) => CountKeepsCounts(s, s', a);
    case Delete(e, ok, removed) => DeleteKeepsCounts(s, s', e, ok, removed);
    case _ =>
      if IsSchedulerStep(step) {
        SchedulerKeepsCounts(c, s, s', step);
      } else {
        OthersKeepCounts(c, s, s', step);
      }
  }

  lemma ProcessKeepsMade(c: Config, s: State, s': State, faults: Faults, policies: seq<PolicyView>, o: Outcome)
    requires EventsInv(s) && PhaseInv(s) && MadeInv(c, s) && Processes(c, s, s', faults, policies, o)
    ensures MadeInv(c, s')
  {
    var e := s.scheduler.event;
    assert Phase(s, e.id);
    ProcessedAsAllowed(c, faults, s.cluster, policies, e.reports, o);
    NewOutcomeKeepsMade(c, s, s', e.id, o);
  }

  /** An event without an outcome gets one, and what that outcome created. */
  lemma NewOutcomeKeepsMade(c: Config, s: State, s': State, e: nat, o: Outcome)
    requires MadeInv(c, s) && e !in s.outcomes && e < |s.events| && MayProcess(c, s.events[e].reports, o)
    requires s'.events == s.events && s'.outcomes == s.outcomes[e := o]
    requires s'.made == s.made + MadeFor(e, o.created)
    ensures MadeInv(c, s')
  {
    forall id: nat ensures MadeBy(s'.made, id) == CreatedFor(s', id) {
      assert MadeBy(s.made, id) == CreatedFor(s, id);
      MadeByOneMore(s.made, e, o.created, id);
    }
  }

  lemma ProcessedAsAllowed(c: Config, faults: Faults, before: seq<ClusterPipeline>, policies: seq<PolicyView>,
                           reports: seq<Report>, o: Outcome)
    requires ProcessAllows(c.settings, faults, before, policies, reports, o.created, o.err)
    ensures MayProcess(c, reports, o)
  {
  }

  lemma MadeByOneMore(made: seq<Made>, e: nat, views: seq<PipelineView>, id: nat)
    ensures MadeBy(made + MadeFor(e, views), id) == if id == e then MadeBy(made, id) + views else MadeBy(made, id)
  {
    FlatMapOfBoth(made, MadeFor(e, views), ViewIfFor(id));
    MadeForOne(e, views, id);
  }

  lemma OthersKeepMade(c: Config, s: State, s': State)
    requires MadeInv(c, s) && s'.made == s.made && s'.outcomes == s.outcomes && s.events <= s'.events
    ensures MadeInv(c, s')
  {
    forall id: nat ensures MadeBy(s'.made, id) == CreatedFor(s', id) { assert MadeBy(s.made, id) == CreatedFor(s, id); }
  }

  lemma MadeKept(c: Config, s: State, s': State, step: Step)
    requires EventsInv(s) && PhaseInv(s) && MadeInv(c, s) && Takes(c, s, s', step)
    ensures MadeInv(c, s')
  {
    if step.Process? {
      ProcessKeepsMade(c, s, s', step.faults, step.policies, step.outcome);
    } else {
      OthersKeepMade(c, s, s');
    }
  }

  lemma {:induction false} MadeForOne(e: nat, views: seq<PipelineView>, id: nat)
    ensures MadeBy(MadeFor(e, views), id) == if id == e then views else []
  {
    if views != [] {
      var n := |views| - 1;
      assert MadeFor(e, views)[..n] == MadeFor(e, views[..n]);
      MadeForOne(e, views[..n], id);
      assert views == views[..n] + [views[n]];
    }
  }
}
