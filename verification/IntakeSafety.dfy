/** What holds in every state of every run of the intake protocol. */
module IntakeSafety {
  import opened Wrappers
  import opened Cel
  import opened Planning
  import opened Processing
  import opened Parsers
  import opened Intake
  import opened IntakeInvariant

  lemma RunStartsWell(c: Config, states: seq<State>, steps: seq<Step>)
    requires IsRun(c, states, steps)
    ensures Inv(c, states[0])
  {
  }

  lemma StepKeeps(c: Config, s: State, s': State, step: Step)
    requires Inv(c, s) && Takes(c, s, s', step)
    ensures Inv(c, s')
  {
    EventsKept(c, s, s', step);
    DeliveriesKept(c, s, s', step);
    PhaseKept(c, s, s', step);
    WaitersKept(c, s, s', step);
    CountsKept(c, s, s', step);
    MadeKept(c, s, s', step);
  }

  lemma {:induction false} Reachable(c: Config, states: seq<State>, steps: seq<Step>, i: nat)
    requires IsRun(c, states, steps) && i < |states|
    ensures Inv(c, states[i])
  {
    if i == 0 {
      RunStartsWell(c, states, steps);
    } else {
      Reachable(c, states, steps, i - 1);
      RunStepKeeps(c, states, steps, i - 1);
    }
  }

  lemma RunStepKeeps(c: Config, states: seq<State>, steps: seq<Step>, k: nat)
    requires IsRun(c, states, steps) && k < |steps| && Inv(c, states[k])
    ensures Inv(c, states[k + 1])
  {
    StepKeeps(c, states[k], states[k + 1], steps[k]);
  }

  /** e carries exactly the reports that parsing its own delivery gave. */
  ghost predicate ParsedFromItsDelivery(c: Config, s: State, e: Event) {
    && e.source.FromQueue? && e.source.receipt < |s.parsed| <= |s.deliveries|
    && s.parsed[e.source.receipt] == Ok(e.reports)
    && s.deliveries[e.source.receipt] in s.sent
    && MayParse(c, s.sent[s.deliveries[e.source.receipt]], s.parsed[e.source.receipt])
  }

  /** e carries exactly what was parsed from its delivery of message m, was processed without an error, and
      was then deleted under the receipt of that delivery. */
  ghost predicate Settled(c: Config, s: State, m: nat, e: Event) {
    && e in s.deleteCalls && ParsedFromItsDelivery(c, s, e) && s.deliveries[e.source.receipt] == m
    && e.id in s.outcomes && s.outcomes[e.id].err.None? && MayProcess(c, e.reports, s.outcomes[e.id])
  }

  /** A delete is only ever asked for after processReports returned nil for exactly the reports parsed
      from the delivery whose receipt is used. */
  lemma DeletesAreEarned(c: Config, states: seq<State>, steps: seq<Step>, i: nat, e: Event)
    requires IsRun(c, states, steps) && i < |states| && e in states[i].deleting + states[i].deleteCalls
    ensures var s := states[i];
            && ParsedFromItsDelivery(c, s, e)
            && e.id in s.outcomes && s.outcomes[e.id].err.None? && MayProcess(c, e.reports, s.outcomes[e.id])
  {
    Reachable(c, states, steps, i);
    assert Queued(states[i], e) && Succeeded(states[i], e);
    assert Sourced(states[i], states[i].events[e.id]);
  }

  /** No message is lost: in every reachable state a message ever sent is still on the queue, or one of
      its deliveries was settled. */
  lemma NoMessageIsLost(c: Config, states: seq<State>, steps: seq<Step>, i: nat, m: nat)
    requires IsRun(c, states, steps) && i < |states| && m in states[i].sent
    ensures m in states[i].queue || exists e :: Settled(c, states[i], m, e)
  {
    var s := states[i];
    Reachable(c, states, steps, i);
    if m !in s.queue {
      assert DeleteCalled(s, m);
      var e :| e in s.deleteCalls && e.source.FromQueue? && e.source.receipt < |s.deliveries|
               && s.deliveries[e.source.receipt] == m;
      DeletesAreEarned(c, states, steps, i, e);
      assert Settled(c, s, m, e);
    }
  }

  /** A delivery that did not parse leads to no event at all, so to no pipeline and no delete call. */
  lemma UnparsedDeliveriesGoNowhere(c: Config, states: seq<State>, steps: seq<Step>, i: nat, r: nat)
    requires IsRun(c, states, steps) && i < |states|
    requires r < |states[i].parsed| && states[i].parsed[r].Err?
    ensures forall id :: 0 <= id < |states[i].events| ==> states[i].events[id].source != FromQueue(r)
    ensures forall e :: e in states[i].deleting + states[i].deleteCalls ==> e.source != FromQueue(r)
  {
    Reachable(c, states, steps, i);
    forall e | e in states[i].deleting + states[i].deleteCalls ensures e.source != FromQueue(r) {
      assert Queued(states[i], e);
      assert Sourced(states[i], states[i].events[e.id]);
    }
    forall id | 0 <= id < |states[i].events| ensures states[i].events[id].source != FromQueue(r) {
      assert Sourced(states[i], states[i].events[id]);
    }
  }

  /** Every pipeline the scheduler made belongs to an event answered nil, and for each event exactly the
      pipelines of its one processing exist: failed attempts and their redeliveries add nothing. */
  lemma OnlySuccessesCreate(c: Config, states: seq<State>, steps: seq<Step>, i: nat, id: nat)
    requires IsRun(c, states, steps) && i < |states|
    ensures var s := states[i];
            && (MadeBy(s.made, id) != [] ==> id in s.outcomes && s.outcomes[id].err.None?)
            && (id in s.outcomes ==> MadeBy(s.made, id) == s.outcomes[id].created)
  {
    var s := states[i];
    Reachable(c, states, steps, i);
    assert MadeBy(s.made, id) == CreatedFor(s, id);
    if id in s.outcomes {
      var o := s.outcomes[id];
      var faults, before, policies :|
        ProcessAllows(c.settings, faults, before, policies, s.events[id].reports, o.created, o.err);
      ProcessingIsAllOrNothing(c.settings, faults, before, policies, s.events[id].reports, o.created, o.err);
    }
  }

  /** Taken from the bus by the scheduler. */
  ghost predicate Taken(s: State, id: nat) {
    id < |s.events| && !Pending(s, id)
  }

  /** Every event the scheduler has taken and let go of was answered exactly once and then closed; and
      it never holds two unanswered events at a time. */
  lemma ExactlyOneAnswer(c: Config, states: seq<State>, steps: seq<Step>, i: nat, a: nat, b: nat)
    requires IsRun(c, states, steps) && i < |states| && Taken(states[i], a) && Taken(states[i], b)
    ensures |states[i].replies| == |states[i].events|
    ensures !Engaged(states[i], a) ==> states[i].replies[a].sends == 1 && states[i].replies[a].closed
    ensures states[i].replies[a].sends <= 1
    ensures states[i].replies[a].sends == 0 && states[i].replies[b].sends == 0 ==> a == b
  {
    Reachable(c, states, steps, i);
    assert Phase(states[i], a) && Phase(states[i], b);
  }

  /** The scheduler never stalls on a reply, whoever reads it: when it has an answer, the channel is open
      and its one slot free; when it has sent it, the channel is still open. */
  lemma RepliesNeverBlock(c: Config, states: seq<State>, steps: seq<Step>, i: nat)
    requires IsRun(c, states, steps) && i < |states| && Busy(states[i].scheduler)
    ensures states[i].scheduler.event.id < |states[i].replies| && !states[i].panicked
    ensures !states[i].replies[states[i].scheduler.event.id].closed
    ensures states[i].scheduler.Answering? ==> states[i].replies[states[i].scheduler.event.id].buffer == []
  {
    Reachable(c, states, steps, i);
    assert Phase(states[i], states[i].scheduler.event.id);
  }

  /** So the next step of a scheduler that holds an answer is always enabled, and does not panic. */
  lemma AnswerCanBeSent(c: Config, states: seq<State>, steps: seq<Step>, i: nat) returns (next: State)
    requires IsRun(c, states, steps) && i < |states| && states[i].scheduler.Answering?
    ensures Takes(c, states[i], next, SendReply)
    ensures !next.panicked && next.scheduler == Closing(states[i].scheduler.event)
  {
    RepliesNeverBlock(c, states, steps, i);
    var s, id := states[i], states[i].scheduler.event.id;
    var r := s.replies[id];
    next := s.(scheduler := Closing(s.scheduler.event),
               replies := s.replies[id := Reply(r.buffer + [s.scheduler.err], false, r.sends + 1)]);
  }

  /** A waiter always gets the scheduler's own answer, never the nil of a drained channel. */
  lemma WaitersSeeTheAnswer(c: Config, states: seq<State>, steps: seq<Step>, i: nat, e: Event)
    requires IsRun(c, states, steps) && i < |steps| && steps[i] == Await(e)
    ensures e.id in states[i].outcomes && Answered(e, states[i].outcomes[e.id].err) in states[i + 1].got
  {
    Reachable(c, states, steps, i);
    assert Takes(c, states[i], states[i + 1], steps[i]);
    assert Phase(states[i], e.id) && AnswerReady(states[i], e);
  }

  /** Counter conservation: every message received is counted as a success or a failure, or is still in
      the batch, blocked in Enqueue or awaiting its result; and every success leads to a delete call. */
  lemma CountersAreConserved(c: Config, states: seq<State>, steps: seq<Step>, i: nat)
    requires IsRun(c, states, steps) && i < |states|
    ensures var s := states[i];
            && s.received == s.succeeded + s.failed + |Rest(s.listener)| + (if HoldsEvent(s.listener) then 1 else 0)
                             + |s.awaiting| + |s.got|
            && s.received == |s.deliveries|
            && s.deleted <= s.succeeded
            && s.succeeded == s.deleted + s.deleteFailures + |s.deleting|
  {
    Reachable(c, states, steps, i);
    ReceivedIsDelivered(c, states, steps, i);
  }

  lemma {:induction false} ReceivedIsDelivered(c: Config, states: seq<State>, steps: seq<Step>, i: nat)
    requires IsRun(c, states, steps) && i < |states|
    ensures states[i].received == |states[i].deliveries|
  {
    if i > 0 {
      ReceivedIsDelivered(c, states, steps, i - 1);
      ReceivingIsDelivering(c, states[i - 1], states[i], steps[i - 1]);
    }
  }

  lemma ReceivingIsDelivering(c: Config, s: State, s': State, step: Step)
    requires Takes(c, s, s', step)
    ensures s'.received - s.received == |s'.deliveries| - |s.deliveries|
  {
  }
}
