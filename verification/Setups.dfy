/** The setup functions and Start as a program over connection and broker state. */
module Setups {
  import opened Wrappers
  import opened Naming
  import opened Handlers
  import opened ConsumerConfigs
  import opened ConsumerGroups
  import opened Brokers
  import opened Publishers

  datatype Direction = Publish | Consume
  datatype Pattern = EventStream | CustomStream | ServiceRequest | ServiceResponse
  datatype ExchangeKind = Topic | Direct | HeadersExchange

  datatype Endpoint = Endpoint(
    direction: Direction,
    pattern: Pattern,
    exchangeName: string,
    exchangeKind: ExchangeKind,
    queueName: string,
    routingKey: string,
    messageType: string,
    ephemeral: bool)

  /** A core subscription; `replies` tells a request-response handler from a plain one. */
  datatype Subscription = Subscription(subject: string, routingKey: string, handler: Handler, replies: bool)

  datatype ConnState = ConnState(
    started: bool,
    serviceName: string,
    collectMode: bool,
    consumers: seq<JsConsumer>,
    subscriptions: seq<Subscription>,
    endpoints: seq<Endpoint>,
    pending: Configs,
    pendingStreams: seq<string>,
    streamDefaults: StreamLimits,
    streamConfigs: map<string, StreamLimits>,
    consumerDefaults: ConsumerDefaults,
    requestTimeout: int)

  const NO_CONSUMER_DEFAULTS := ConsumerDefaults(0, None)

  function Fresh(service: string, collectMode: bool): ConnState {
    ConnState(false, service, collectMode, [], [], [], [], [], UNLIMITED, map[], NO_CONSUMER_DEFAULTS, 0)
  }

  /** `WithOther` stands for the options that touch none of this state: logger, tracing,
      propagator, span names and notification channels. */
  datatype Setup =
    | WithConsumerDefaults(consumerDefaults: ConsumerDefaults)
    | WithStreamDefaults(limits: StreamLimits)
    | WithStreamConfig(stream: string, limits: StreamLimits)
    | WithRequestTimeout(timeout: int)
    | WithOther
    | StreamPublisher(stream: string, publisher: Publisher)
    | ServicePublisher(target: string, publisher: Publisher)
    | StreamConsumer(stream: string, routingKey: string, ephemeral: bool, handler: Handler,
                     messageType: string, opts: seq<ConsumerOption>)
    | ServiceRequestConsumer(routingKey: string, handler: Handler, messageType: string)
    | ServiceResponseConsumer(target: string, routingKey: string, messageType: string)
    | RequestResponseHandler(routingKey: string, handler: Handler)

  datatype ConnError =
    | AlreadyStarted
    | EmptyStreamName
    | NonPositiveTimeout
    | OptionFailed
    | BrokerFailed

  datatype Outcome = Outcome(conn: ConnState, broker: BrokerState, err: Option<ConnError>)

  const DEFAULT_REQUEST_TIMEOUT := 30_000_000_000

  // ---- one setup -----------------------------------------------------------------

  /** The comparison is on the name as given, before the exchange suffix is cut off. */
  function StreamPattern(stream: string): Pattern {
    if stream != DEFAULT_EVENT_STREAM then CustomStream else EventStream
  }

  /** The endpoint a setup declares, if any. */
  function EndpointOf(s: Setup, service: string): seq<Endpoint> {
    match s
    case StreamPublisher(stream, _) =>
      [Endpoint(Publish, StreamPattern(stream), StreamName(stream), Topic, "", "", "", false)]
    case ServicePublisher(target, _) =>
      [Endpoint(Publish, ServiceRequest, target, Direct, "", "", "", false)]
    case StreamConsumer(stream, key, ephemeral, _, messageType, opts) =>
      [Endpoint(Consume, StreamPattern(stream), StreamName(stream), Topic,
                NameFor(ephemeral, service, LastSuffix(opts)), key, messageType, ephemeral)]
    case ServiceRequestConsumer(key, _, messageType) =>
      [Endpoint(Consume, ServiceRequest, service, Direct, service, key, messageType, false)]
    case ServiceResponseConsumer(target, key, messageType) =>
      [Endpoint(Consume, ServiceResponse, target, HeadersExchange, service, key, messageType, false)]
    case RequestResponseHandler(key, _) =>
      [Endpoint(Consume, ServiceRequest, service, Direct, service, key, "", false)]
    case _ => []
  }

  function LimitsFor(c: ConnState, name: string): StreamLimits {
    if name in c.streamConfigs then c.streamConfigs[name] else c.streamDefaults
  }

  function SubscribeTo(c: ConnState, b: BrokerState, faults: Faults, sub: Subscription): Outcome {
    if c.collectMode then Outcome(c, b, None)
    else if Works(b, faults) then Outcome(c.(subscriptions := c.subscriptions + [sub]), Ticked(b), None)
    else Outcome(c, Ticked(b), Some(BrokerFailed))
  }

  function Declared(r: Outcome, s: Setup): Outcome {
    if r.err.Some? then r
    else r.(conn := r.conn.(endpoints := r.conn.endpoints + EndpointOf(s, r.conn.serviceName)))
  }

  function ApplySetup(c: ConnState, b: BrokerState, faults: Faults, s: Setup): Outcome {
    match s
    case WithConsumerDefaults(d) => Outcome(c.(consumerDefaults := d), b, None)
    case WithStreamDefaults(l) => Outcome(c.(streamDefaults := l), b, None)
    case WithStreamConfig(stream, l) =>
      if stream == "" then Outcome(c, b, Some(EmptyStreamName))
      else Outcome(c.(streamConfigs := c.streamConfigs[StreamName(stream) := l]), b, None)
    case WithRequestTimeout(d) =>
      if d <= 0 then Outcome(c, b, Some(NonPositiveTimeout)) else Outcome(c.(requestTimeout := d), b, None)
    case WithOther => Outcome(c, b, None)
    case StreamPublisher(stream, _) =>
      var name := StreamName(stream);
      if !c.collectMode && !Works(b, faults) then Outcome(c, Ticked(b), Some(BrokerFailed))
      else
        var b' := if c.collectMode then b else PutStream(b, name, LimitsFor(c, name));
        Declared(Outcome(c.(pendingStreams := c.pendingStreams + [name]), b', None), s)
    case ServicePublisher(_, _) => Declared(Outcome(c, b, None), s)
    case StreamConsumer(stream, key, ephemeral, h, _, opts) =>
      if !ValidOptions(opts) then Outcome(c, b, Some(OptionFailed))
      else
        var cfg := ConfigFor(StreamName(stream), key, ephemeral, h, c.serviceName, opts);
        Declared(Outcome(c.(pending := c.pending + [cfg]), b, None), s)
    case ServiceRequestConsumer(key, h, _) =>
      Declared(SubscribeTo(c, b, faults, Subscription(ServiceRequestSubject(c.serviceName, key), key, h, false)), s)
    case ServiceResponseConsumer(_, _, _) => Declared(Outcome(c, b, None), s)
    case RequestResponseHandler(key, h) =>
      Declared(SubscribeTo(c, b, faults, Subscription(ServiceRequestSubject(c.serviceName, key), key, h, true)), s)
  }

  /** Setups run in order until one fails. */
  function RunSetups(c: ConnState, b: BrokerState, faults: Faults, setups: seq<Setup>): Outcome {
    if setups == [] then Outcome(c, b, None)
    else
      var r := RunSetups(c, b, faults, setups[..|setups| - 1]);
      if r.err.Some? then r else ApplySetup(r.conn, r.broker, faults, setups[|setups| - 1])
  }

  /** How many setups succeed before the first one that fails. */
  function Succeeded(c: ConnState, b: BrokerState, faults: Faults, setups: seq<Setup>): (k: nat)
    ensures k <= |setups|
    ensures k == |setups| <==> RunSetups(c, b, faults, setups).err.None?
  {
    if setups == [] then 0
    else
      var rest := setups[..|setups| - 1];
      if RunSetups(c, b, faults, rest).err.Some? then Succeeded(c, b, faults, rest)
      else if RunSetups(c, b, faults, setups).err.Some? then |rest|
      else |setups|
  }

  // ---- the deferred consumers -------------------------------------------------------

  /** Starting one consumer takes three broker calls: its stream, the consumer itself, and
      consuming from it. */
  function StartConsumer(c: ConnState, b: BrokerState, faults: Faults, plan: JsConsumer): Outcome {
    if !Works(b, faults) then Outcome(c, Ticked(b), Some(BrokerFailed))
    else
      var b1 := PutStream(b, plan.stream, LimitsFor(c, plan.stream));
      if !Works(b1, faults) then Outcome(c, Ticked(b1), Some(BrokerFailed))
      else
        var b2 := PutConsumer(b1, plan.stream, plan.config);
        if !Works(b2, faults) then Outcome(c, Ticked(b2), Some(BrokerFailed))
        else Outcome(c.(consumers := c.consumers + [plan]), Ticked(b2), None)
  }

  function StartConsumers(c: ConnState, b: BrokerState, faults: Faults, plans: seq<JsConsumer>): Outcome {
    if plans == [] then Outcome(c, b, None)
    else
      var r := StartConsumers(c, b, faults, plans[..|plans| - 1]);
      if r.err.Some? then r else StartConsumer(r.conn, r.broker, faults, plans[|plans| - 1])
  }

  function StartPending(c: ConnState, b: BrokerState, faults: Faults): Outcome {
    var r := StartConsumers(c, b, faults, ConsumersOf(c.pending, c.consumerDefaults));
    if r.err.Some? then r else r.(conn := r.conn.(pending := []))
  }

  // ---- Start and CollectTopology --------------------------------------------------------

  function Start(c: ConnState, b: BrokerState, faults: Faults, setups: seq<Setup>): Outcome {
    if c.started then Outcome(c, b, Some(AlreadyStarted))
    else if c.collectMode then
      var r := RunSetups(c, b, faults, setups);
      if r.err.Some? then r else r.(conn := r.conn.(started := true))
    else if !Works(b, faults) then Outcome(c, Ticked(b), Some(BrokerFailed))
    else if !Works(Ticked(b), faults) then Outcome(c, Ticked(Ticked(b)), Some(BrokerFailed))
    else
      var r := RunSetups(c, Ticked(Ticked(b)), faults, setups);
      if r.err.Some? then r
      else
        var p := StartPending(r.conn, r.broker, faults);
        if p.err.Some? then p else p.(conn := p.conn.(started := true))
  }

  /** How many setups of a Start succeed; none when it does not get to them. */
  function SetupsReached(c: ConnState, b: BrokerState, faults: Faults, setups: seq<Setup>): (k: nat)
    ensures k <= |setups|
  {
    if c.started then 0
    else if c.collectMode then Succeeded(c, b, faults, setups)
    else if !Works(b, faults) || !Works(Ticked(b), faults) then 0
    else Succeeded(c, Ticked(Ticked(b)), faults, setups)
  }

  /** The same program on a fresh connection in collect mode. */
  function Collect(service: string, b: BrokerState, setups: seq<Setup>): Outcome {
    RunSetups(Fresh(service, true), b, {}, setups)
  }

  // ---- publisher wiring -----------------------------------------------------------------

  predicate HasPublisher(s: Setup) { s.StreamPublisher? || s.ServicePublisher? }

  ghost function PublisherOf(s: Setup): set<Publisher> {
    if HasPublisher(s) then {s.publisher} else {}
  }

  ghost function PublishersOf(setups: seq<Setup>): set<Publisher> {
    set i | 0 <= i < |setups| && HasPublisher(setups[i]) :: setups[i].publisher
  }

  function TimeoutAfter(setups: seq<Setup>, initial: int): int {
    if setups == [] then initial
    else match setups[|setups| - 1]
      case WithRequestTimeout(d) => d
      case _ => TimeoutAfter(setups[..|setups| - 1], initial)
  }

  /** What one successful setup makes of publisher `p`. */
  function WireOne(s: Setup, p: Publisher, ps: PublisherState, service: string, collect: bool,
                   timeout: int): PublisherState {
    if !HasPublisher(s) || s.publisher != p then ps
    else match s
      case StreamPublisher(stream, _) =>
        SetupWiring(if collect then ps else ps.(transport := Some(JetStream)), StreamName(stream), service)
      case ServicePublisher(target, _) =>
        var t := if timeout == 0 then DEFAULT_REQUEST_TIMEOUT else timeout;
        var sending := if collect then ps else ps.(transport := Some(CoreRequest(t)));
        SetupWiring(sending.(target := Some(target)), target, service)
      case _ => ps
  }

  function WireAll(setups: seq<Setup>, p: Publisher, ps: PublisherState, service: string, collect: bool,
                   timeout: int): PublisherState {
    if setups == [] then ps
    else
      var rest := setups[..|setups| - 1];
      WireOne(setups[|setups| - 1], p, WireAll(rest, p, ps, service, collect, timeout), service, collect,
              TimeoutAfter(rest, timeout))
  }
}
