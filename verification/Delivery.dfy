/** Deliveries as interleaved steps: many messages in flight at many consumers, each
    handled in the order of effects of the message handlers, against a broker that
    delivers, redelivers and gives up. */
module Delivery {
  import opened Wrappers
  import opened Naming
  import opened Handlers
  import opened RoutingKeyHandlers
  import opened ConsumerGroups
  import opened GroupMeaning
  import opened Notifications
  import opened Metrics

  /** A core subscription's consumer: one handler under the routing key it subscribed with. */
  datatype CoreConsumer = CoreConsumer(name: string, routingKey: string, handlers: HandlerMap)

  /** What stays fixed during a run.  The mapper is the metric label mapper. */
  datatype Setting = Setting(reading: HashReading, mapper: string -> string,
                             consumers: seq<JsConsumer>, cores: seq<CoreConsumer>)

  // ---- metrics ---------------------------------------------------------------------

  datatype Metric = Received | WithoutHandler | NotParsable | NakCount | AckCount

  datatype Sample = Sample(metric: Metric, consumer: string, routingKey: string)

  // ---- state -------------------------------------------------------------------------

  /** A message waiting at one consumer. */
  datatype Entry = Entry(consumer: nat, subject: string, attempts: nat, gone: bool)

  datatype Source = Stream(entry: nat) | Core(index: nat, reply: bool)

  /** A handler call: who was called, and what the surroundings answered. */
  datatype Called = Called(handler: Handler, input: CallInput)

  function ErrOf(call: Called): Option<Err> { Invoke(call.handler, call.input).err }

  /** How far one delivery has come.  `None` means that no handler was found. */
  datatype Phase =
    | Arrived
    | Counted
    | Unrouted
    | Dispatched(handler: Handler)
    | Returned(call: Called)
    | Notified(call: Called)
    | Recorded(end: Option<Called>)
    | Acked(call: Called)
    | Done(end: Option<Called>)

  datatype Delivery = Delivery(source: Source, name: string, key: string, phase: Phase)

  datatype Note = Note(destination: string, key: string, err: Option<Err>)

  datatype State = State(
    entries: seq<Entry>,
    deliveries: seq<Delivery>,
    metrics: multiset<Sample>,
    replies: multiset<nat>,              // deliveries answered with an error reply
    successCh: Option<Channel<Note>>,
    errorCh: Option<Channel<Note>>,
    succeeded: seq<Note>,                // everything offered to the success channel
    failed: seq<Note>)                   // everything offered to the error channel

  /** Nothing published yet; the channels, if any, are empty. */
  predicate Initial(s: State) {
    && s.entries == [] && s.deliveries == [] && s.metrics == multiset{} && s.replies == multiset{}
    && s.succeeded == [] && s.failed == []
    && (s.successCh.Some? ==> s.successCh.value == Channel(s.successCh.value.capacity, [], [], 0))
    && (s.errorCh.Some? ==> s.errorCh.value == Channel(s.errorCh.value.capacity, [], [], 0))
  }

  /** How the end of a delivery is settled; an unrouted one is terminated. */
  function VerdictOf(end: Option<Called>): Verdict {
    if end.None? then Term else Settlement(ErrOf(end.value))
  }

  /** The counter the end of a delivery moves.  Core deliveries know no parse counter. */
  function OutcomeMetric(source: Source, end: Option<Called>): Metric {
    if end.None? then WithoutHandler
    else
      var err := ErrOf(end.value);
      if err.None? then AckCount
      else if source.Core? then NakCount
      else if Is(err.value, ParseJSON) then NotParsable
      else if Is(err.value, NoMessageType) then WithoutHandler
      else NakCount
  }

  // ---- actions -------------------------------------------------------------------------

  datatype Action =
    | Publish(subject: string)
    | Deliver(entry: nat)                     // also any redelivery
    | GiveUp(entry: nat)                      // the broker drops a message out of attempts
    | Request(index: nat, reply: bool)        // a core message, with or without reply subject
    | Count(d: nat)
    | Route(d: nat, pattern: string)
    | Miss(d: nat)
    | Call(d: nat, input: CallInput)
    | Notify(d: nat, waiting: bool)
    | Record(d: nat)
    | Settle(d: nat, arrives: bool)           // the settlement may be lost on the way
    | ReadSuccess
    | ReadFailure

  function MaxDeliver(S: Setting, e: Entry): int
    requires e.consumer < |S.consumers|
  {
    S.consumers[e.consumer].config.maxDeliver
  }

  predicate EntryOk(S: Setting, e: Entry) {
    e.consumer < |S.consumers| && ServerDelivers(S.consumers[e.consumer], e.subject)
  }

  function HandlersAt(S: Setting, s: State, source: Source): HandlerMap {
    match source
    case Stream(e) =>
      if e < |s.entries| && s.entries[e].consumer < |S.consumers| then S.consumers[s.entries[e].consumer].handlers
      else map[]
    case Core(i, _) => if i < |S.cores| then S.cores[i].handlers else map[]
  }

  predicate Enabled(S: Setting, s: State, a: Action) {
    match a
    case Publish(_) => true
    case Deliver(e) =>
      && e < |s.entries| && s.entries[e].consumer < |S.consumers| && !s.entries[e].gone
      && (MaxDeliver(S, s.entries[e]) > 0 ==> s.entries[e].attempts < MaxDeliver(S, s.entries[e]))
    case GiveUp(e) =>
      && e < |s.entries| && s.entries[e].consumer < |S.consumers| && !s.entries[e].gone
      && 0 < MaxDeliver(S, s.entries[e]) <= s.entries[e].attempts
    case Request(i, _) => i < |S.cores|
    case Count(d) => d < |s.deliveries| && s.deliveries[d].phase.Arrived?
    case Route(d, p) =>
      && d < |s.deliveries| && s.deliveries[d].phase.Counted?
      && p in HandlersAt(S, s, s.deliveries[d].source) && MatchRoutingKey(p, s.deliveries[d].key, S.reading)
    case Miss(d) =>
      && d < |s.deliveries| && s.deliveries[d].phase.Counted?
      && !Routable(HandlersAt(S, s, s.deliveries[d].source), s.deliveries[d].key, S.reading)
    case Call(d, _) => d < |s.deliveries| && s.deliveries[d].phase.Dispatched?
    case Notify(d, _) => d < |s.deliveries| && s.deliveries[d].phase.Returned?
    case Record(d) =>
      && d < |s.deliveries|
      && (|| s.deliveries[d].phase.Unrouted?
          || s.deliveries[d].phase.Acked?
          || (s.deliveries[d].phase.Notified?
              && (s.deliveries[d].source.Core? || ErrOf(s.deliveries[d].phase.call).Some?)))
    case Settle(d, _) =>
      && d < |s.deliveries|
      && (s.deliveries[d].source.Stream? ==> s.deliveries[d].source.entry < |s.entries|)
      && (|| s.deliveries[d].phase.Recorded?
          || (s.deliveries[d].phase.Notified?
              && s.deliveries[d].source.Stream? && ErrOf(s.deliveries[d].phase.call).None?))
    case ReadSuccess => s.successCh.Some? && s.successCh.value.buffer != []
    case ReadFailure => s.errorCh.Some? && s.errorCh.value.buffer != []
  }

  /** Which consumers the server delivers a subject to. */
  function Recipients(consumers: seq<JsConsumer>, subject: string): (r: seq<bool>)
    ensures |r| == |consumers|
    ensures forall i :: 0 <= i < |r| ==> r[i] == ServerDelivers(consumers[i], subject)
  {
    seq(|consumers|, i requires 0 <= i < |consumers| => ServerDelivers(consumers[i], subject))
  }

  /** One new entry for each of the first `n` recipients. */
  function EntriesFor(recipients: seq<bool>, subject: string, n: nat): seq<Entry>
    requires n <= |recipients|
  {
    if n == 0 then []
    else if recipients[n - 1] then EntriesFor(recipients, subject, n - 1) + [Entry(n - 1, subject, 0, false)]
    else EntriesFor(recipients, subject, n - 1)
  }

  function WithPhase(s: State, d: nat, phase: Phase): State
    requires d < |s.deliveries|
  {
    s.(deliveries := s.deliveries[d := s.deliveries[d].(phase := phase)])
  }

  function Counting(S: Setting, s: State, d: nat, metric: Metric): State
    requires d < |s.deliveries|
  {
    var x := s.deliveries[d];
    s.(metrics := s.metrics + multiset{Sample(metric, x.name, RoutingKeyLabel(S.mapper, x.key))})
  }

  function RemoveEntry(s: State, e: nat): State
    requires e < |s.entries|
  {
    s.(entries := s.entries[e := s.entries[e].(gone := true)])
  }

  function Notifying(s: State, note: Note, waiting: bool): State {
    if note.err.None? then
      if s.successCh.None? then s
      else s.(successCh := Some(Offer(s.successCh.value, note, waiting)), succeeded := s.succeeded + [note])
    else
      if s.errorCh.None? then s
      else s.(errorCh := Some(Offer(s.errorCh.value, note, waiting)), failed := s.failed + [note])
  }

  /** The end a recording step writes down. */
  function EndOf(phase: Phase): Option<Called> {
    match phase
    case Acked(call) => Some(call)
    case Notified(call) => Some(call)
    case _ => None
  }

  /** Whether recording is the last effect: after an Ack, and for a core delivery that
      sends no error. */
  predicate RecordIsLast(x: Delivery) {
    x.phase.Acked? || (x.source.Core? && (x.phase.Unrouted? || (x.phase.Notified? && ErrOf(x.phase.call).None?)))
  }

  /** The settlement of a recorded end: Term removes the message, Nak leaves it to
      redelivery; a core delivery replies when it can. */
  function Settled(s: State, d: nat, source: Source, end: Option<Called>, arrives: bool): (t: State)
    requires source.Stream? ==> source.entry < |s.entries|
    ensures t.deliveries == s.deliveries
  {
    match source
    case Stream(e) => if arrives && VerdictOf(end) == Term then RemoveEntry(s, e) else s
    case Core(_, reply) => if reply then s.(replies := s.replies + multiset{d}) else s
  }

  /** What an action does.  Neither messages nor deliveries are ever forgotten. */
  function Apply(S: Setting, s: State, a: Action): (t: State)
    requires Enabled(S, s, a)
    ensures |s.entries| <= |t.entries| && |s.deliveries| <= |t.deliveries|
    ensures !a.Publish? ==> |s.entries| == |t.entries|
  {
    match a
    case Publish(subject) =>
      s.(entries := s.entries + EntriesFor(Recipients(S.consumers, subject), subject, |S.consumers|))
    case Deliver(e) =>
      var x := s.entries[e];
      s.(entries := s.entries[e := x.(attempts := x.attempts + 1)],
         deliveries := s.deliveries
           + [Delivery(Stream(e), S.consumers[x.consumer].name, RoutingKeyOf(x.subject), Arrived)])
    case GiveUp(e) => RemoveEntry(s, e)
    case Request(i, reply) =>
      s.(deliveries := s.deliveries + [Delivery(Core(i, reply), S.cores[i].name, S.cores[i].routingKey, Arrived)])
    case Count(d) => WithPhase(Counting(S, s, d, Received), d, Counted)
    case Route(d, p) => WithPhase(s, d, Dispatched(HandlersAt(S, s, s.deliveries[d].source)[p]))
    case Miss(d) => WithPhase(s, d, Unrouted)
    case Call(d, input) => WithPhase(s, d, Returned(Called(s.deliveries[d].phase.handler, input)))
    case Notify(d, waiting) =>
      var x := s.deliveries[d];
      WithPhase(Notifying(s, Note(x.name, x.key, ErrOf(x.phase.call)), waiting), d, Notified(x.phase.call))
    case Record(d) =>
      var x := s.deliveries[d];
      var end := EndOf(x.phase);
      WithPhase(Counting(S, s, d, OutcomeMetric(x.source, end)), d,
                if RecordIsLast(x) then Done(end) else Recorded(end))
    case Settle(d, arrives) =>
      var x := s.deliveries[d];
      if x.phase.Notified? then
        WithPhase(if arrives then RemoveEntry(s, x.source.entry) else s, d, Acked(x.phase.call))
      else
        WithPhase(Settled(s, d, x.source, x.phase.end, arrives), d, Done(x.phase.end))
    case ReadSuccess => s.(successCh := Some(Read(s.successCh.value)))
    case ReadFailure => s.(errorCh := Some(Read(s.errorCh.value)))
  }

  /** A run: every action enabled when it is taken. */
  function Run(S: Setting, s: State, acts: seq<Action>): Option<State> {
    if acts == [] then Some(s)
    else
      var r := Run(S, s, acts[..|acts| - 1]);
      if r.Some? && Enabled(S, r.value, acts[|acts| - 1]) then Some(Apply(S, r.value, acts[|acts| - 1])) else None
  }
}
