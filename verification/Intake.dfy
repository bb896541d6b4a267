/** The report intake protocol: SQS queue, listener, scheduler loop, waiter goroutines and HTTP handlers,
    as a state machine in which any enabled step may come next. */
module Intake {
  import opened Wrappers
  import opened Cel
  import opened Planning
  import opened Processing
  import opened Parsers

  datatype Source = FromQueue(receipt: nat) | FromHttp

  /** What travels on the event bus; the reply channel is found under `id`. */
  datatype Event = Event(id: nat, reports: seq<Report>, source: Source)

  datatype Delivery = Delivery(receipt: nat, message: nat)

  /** The listener's program counter; `rest` is what is left of the batch. */
  datatype ListenerPc =
    | Polling
    | Handling(rest: seq<Delivery>)
    | Sending(event: Event, rest: seq<Delivery>)
    | Returned(event: Event, rest: seq<Delivery>)
    | Stopped

  datatype SchedulerPc =
    | Idle
    | Working(event: Event)
    | Answering(event: Event, err: Option<ProcessError>)
    | Closing(event: Event)
    | Halted

  /** A reply channel of capacity one; `sends` counts the values ever sent on it. */
  datatype Reply = Reply(buffer: seq<Option<ProcessError>>, closed: bool, sends: nat)

  const NEW_REPLY := Reply([], false, 0)

  datatype Outcome = Outcome(err: Option<ProcessError>, created: seq<PipelineView>)

  datatype Answered = Answered(event: Event, err: Option<ProcessError>)

  /** A pipeline that now exists, and the event it was created for. */
  datatype Made = Made(event: nat, view: PipelineView)

  datatype Config = Config(settings: Settings, parser: ParserKind)

  datatype State = State(
    // SQS: every message ever sent, those not removed, and the message behind each receipt
    sent: map<nat, Body>,
    queue: set<nat>,
    deliveries: seq<nat>,
    // the threads
    listener: ListenerPc,
    http: set<Event>,
    scheduler: SchedulerPc,
    awaiting: set<Event>,
    got: set<Answered>,
    deleting: set<Event>,
    // events and their reply channels, by id
    events: seq<Event>,
    replies: seq<Reply>,
    panicked: bool,
    // metrics
    received: nat,
    succeeded: nat,
    failed: nat,
    deleted: nat,
    // the cluster, and what happened
    cluster: seq<ClusterPipeline>,
    made: seq<Made>,
    parsed: seq<Parsed>,
    outcomes: map<nat, Outcome>,
    deleteCalls: set<Event>,
    deleteFailures: nat)

  datatype Step =
    | Send(message: nat, body: Body)
    | Receive(messages: seq<nat>)
    | Parse(fetched: seq<Fetched>)
    | EndBatch
    | Post(reports: seq<Report>)
    | AcceptFromListener
    | AcceptFromHttp(event: Event)
    | Spawn
    | Process(faults: Faults, policies: seq<PolicyView>, outcome: Outcome)
    | ClusterDrift(drift: Drift)
    | SendReply
    | CloseReply
    | Await(event: Event)
    | Count(answered: Answered)
    | Delete(event: Event, ok: bool, removed: bool)
    | StopListener
    | StopScheduler

  /** The cluster may hold anything at the start. */
  ghost predicate Init(s: State) {
    && s.sent == map[] && s.queue == {} && s.deliveries == []
    && s.listener == Polling && s.http == {} && s.scheduler == Idle
    && s.awaiting == {} && s.got == {} && s.deleting == {}
    && s.events == [] && s.replies == [] && !s.panicked
    && s.received == s.succeeded == s.failed == s.deleted == s.deleteFailures == 0
    && s.made == [] && s.parsed == [] && s.outcomes == map[] && s.deleteCalls == {}
  }

  // ----- The steps -----

  /** A message not seen before enters the queue. */
  ghost predicate Sends(s: State, s': State, message: nat, body: Body) {
    && message !in s.sent
    && s' == s.(sent := s.sent[message := body], queue := s.queue + {message})
  }

  /** Up to ten messages arrive, each under a new receipt. Visibility may have expired, so a message can
      arrive any number of times. Failed and empty receives change nothing and are not steps. */
  ghost predicate Receives(s: State, s': State, messages: seq<nat>) {
    && s.listener.Polling?
    && 1 <= |messages| <= 10
    && (forall i :: 0 <= i < |messages| ==> messages[i] in s.queue)
    && s' == s.(
         deliveries := s.deliveries + messages,
         received := s.received + |messages|,
         listener := Handling(Batch(|s.deliveries|, messages)))
  }

  function Batch(next: nat, messages: seq<nat>): (r: seq<Delivery>)
    ensures |r| == |messages| && forall i :: 0 <= i < |r| ==> r[i] == Delivery(next + i, messages[i])
  {
    seq(|messages|, i requires 0 <= i < |messages| => Delivery(next + i, messages[i]))
  }

  /** The loop parses one message: a failure is counted and skipped, otherwise Enqueue makes the reply
      channel and blocks on the bus. */
  ghost predicate Parses(c: Config, s: State, s': State, fetched: seq<Fetched>) {
    && s.listener.Handling? && s.listener.rest != []
    && var d, rest := s.listener.rest[0], s.listener.rest[1..];
       && d.message in s.sent && AnswersFor(s.sent[d.message], fetched)
       && var r := ParserOutcome(c.parser, s.sent[d.message], fetched);
          match r
          case Err(_) =>
            s' == s.(listener := Handling(rest), failed := s.failed + 1, parsed := s.parsed + [r])
          case Ok(reports) =>
            var e := Event(|s.events|, reports, FromQueue(d.receipt));
            s' == Opened(s, e).(listener := Sending(e, rest), parsed := s.parsed + [r])
  }

  function Opened(s: State, e: Event): State {
    s.(events := s.events + [e], replies := s.replies + [NEW_REPLY])
  }

  ghost predicate EndsBatch(s: State, s': State) {
    s.listener == Handling([]) && s' == s.(listener := Polling)
  }

  /** An HTTP handler enqueues; it discards the reply channel once the bus has taken the event. */
  ghost predicate Posts(s: State, s': State, reports: seq<Report>) {
    var e := Event(|s.events|, reports, FromHttp);
    s' == Opened(s, e).(http := s.http + {e})
  }

  ghost predicate AcceptsFromListener(s: State, s': State) {
    && s.scheduler.Idle? && s.listener.Sending?
    && s' == s.(scheduler := Working(s.listener.event), listener := Returned(s.listener.event, s.listener.rest))
  }

  ghost predicate AcceptsFromHttp(s: State, s': State, e: Event) {
    && s.scheduler.Idle? && e in s.http
    && s' == s.(scheduler := Working(e), http := s.http - {e})
  }

  /** Enqueue has returned: the listener starts a goroutine and turns to the next message. */
  ghost predicate Spawns(s: State, s': State) {
    && s.listener.Returned?
    && s' == s.(awaiting := s.awaiting + {s.listener.event}, listener := Handling(s.listener.rest))
  }

  /** processReports counts what is active in the cluster, and what it creates is in the cluster. */
  ghost predicate Processes(c: Config, s: State, s': State, faults: Faults, policies: seq<PolicyView>, o: Outcome) {
    && s.scheduler.Working?
    && var e := s.scheduler.event;
       && ProcessAllows(c.settings, faults, s.cluster, policies, e.reports, o.created, o.err)
       && s' == s.(
            scheduler := Answering(e, o.err),
            cluster := s.cluster + Submitted(o.created),
            made := s.made + MadeFor(e.id, o.created),
            outcomes := s.outcomes[e.id := o])
  }

  ghost predicate ClusterDrifts(s: State, s': State, d: Drift) {
    Drifts(s.cluster, s'.cluster, d) && s' == s.(cluster := s'.cluster)
  }

  function MadeFor(id: nat, views: seq<PipelineView>): seq<Made> {
    seq(|views|, i requires 0 <= i < |views| => Made(id, views[i]))
  }

  /** Sending blocks while the buffer is full and panics on a closed channel. */
  ghost predicate SendsReply(s: State, s': State) {
    && s.scheduler.Answering? && s.scheduler.event.id < |s.replies|
    && var id := s.scheduler.event.id;
       var r := s.replies[id];
       if r.closed then s' == s.(panicked := true)
       else
         && |r.buffer| < 1
         && s' == s.(scheduler := Closing(s.scheduler.event),
                     replies := s.replies[id := Reply(r.buffer + [s.scheduler.err], false, r.sends + 1)])
  }

  /** Closing panics on a closed channel. */
  ghost predicate ClosesReply(s: State, s': State) {
    && s.scheduler.Closing? && s.scheduler.event.id < |s.replies|
    && var r := s.replies[s.scheduler.event.id];
       if r.closed then s' == s.(panicked := true)
       else s' == s.(scheduler := Idle, replies := s.replies[s.scheduler.event.id := r.(closed := true)])
  }

  /** A waiter receives: the buffered value, or nil when the channel is closed and empty. */
  ghost predicate Awaits(s: State, s': State, e: Event) {
    && e in s.awaiting && e.id < |s.replies|
    && var r := s.replies[e.id];
       && (r.buffer != [] || r.closed)
       && s' == s.(
            awaiting := s.awaiting - {e},
            got := s.got + {Answered(e, if r.buffer != [] then r.buffer[0] else None)},
            replies := s.replies[e.id := r.(buffer := if r.buffer != [] then r.buffer[1..] else [])])
  }

  ghost predicate Counts(s: State, s': State, a: Answered) {
    && a in s.got
    && s' == (if a.err.Some? then s.(got := s.got - {a}, failed := s.failed + 1)
              else s.(got := s.got - {a}, succeeded := s.succeeded + 1, deleting := s.deleting + {a.event}))
  }

  /** The delete call may fail, and whether it fails or not the message may be gone or not. */
  ghost predicate Deletes(s: State, s': State, e: Event, ok: bool, removed: bool) {
    && e in s.deleting && e.source.FromQueue? && e.source.receipt < |s.deliveries|
    && s' == s.(
         deleting := s.deleting - {e},
         deleteCalls := s.deleteCalls + {e},
         deleted := s.deleted + (if ok then 1 else 0),
         deleteFailures := s.deleteFailures + (if ok then 0 else 1),
         queue := if removed then s.queue - {s.deliveries[e.source.receipt]} else s.queue)
  }

  /** The context is cancelled: each loop notices only where it selects. */
  ghost predicate Stops(s: State, s': State, step: Step) {
    || (step.StopListener? && s.listener.Polling? && s' == s.(listener := Stopped))
    || (step.StopScheduler? && s.scheduler.Idle? && s' == s.(scheduler := Halted))
  }

  ghost predicate Takes(c: Config, s: State, s': State, step: Step) {
    && !s.panicked
    && match step
       case Send(message, body) => Sends(s, s', message, body)
       case Receive(messages) => Receives(s, s', messages)
       case Parse(fetched) => Parses(c, s, s', fetched)
       case EndBatch => EndsBatch(s, s')
       case Post(reports) => Posts(s, s', reports)
       case AcceptFromListener => AcceptsFromListener(s, s')
       case AcceptFromHttp(e) => AcceptsFromHttp(s, s', e)
       case Spawn => Spawns(s, s')
       case Process(faults, policies, o) => Processes(c, s, s', faults, policies, o)
       case ClusterDrift(d) => ClusterDrifts(s, s', d)
       case SendReply => SendsReply(s, s')
       case CloseReply => ClosesReply(s, s')
       case Await(e) => Awaits(s, s', e)
       case Count(a) => Counts(s, s', a)
       case Delete(e, ok, removed) => Deletes(s, s', e, ok, removed)
       case StopListener => Stops(s, s', step)
       case StopScheduler => Stops(s, s', step)
  }

  ghost predicate IsRun(c: Config, states: seq<State>, steps: seq<Step>) {
    && |states| == |steps| + 1
    && Init(states[0])
    && forall i :: 0 <= i < |steps| ==> Takes(c, states[i], states[i + 1], steps[i])
  }
}
