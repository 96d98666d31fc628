/** The connection object: its methods change its fields step by step, and each is proved
    against the program over states in Setups. */
module Connections {
  import opened Wrappers
  import opened Naming
  import opened Handlers
  import opened ConsumerConfigs
  import opened ConsumerGroups
  import opened Brokers
  import opened Publishers
  import opened Setups

  class Connection {
    var started: bool
    const serviceName: string
    const collectMode: bool
    var consumers: seq<JsConsumer>
    var subscriptions: seq<Subscription>
    var endpoints: seq<Endpoint>
    var pending: Configs
    var pendingStreams: seq<string>
    var streamDefaults: StreamLimits
    var streamConfigs: map<string, StreamLimits>
    var consumerDefaults: ConsumerDefaults
    var requestTimeout: int

    function State(): ConnState
      reads this
    {
      ConnState(started, serviceName, collectMode, consumers, subscriptions, endpoints, pending, pendingStreams,
                streamDefaults, streamConfigs, consumerDefaults, requestTimeout)
    }

    constructor (service: string, collectMode: bool)
      ensures State() == Fresh(service, collectMode)
    {
      started, serviceName, this.collectMode := false, service, collectMode;
      consumers, subscriptions, endpoints, pending, pendingStreams := [], [], [], [], [];
      streamDefaults, streamConfigs := UNLIMITED, map[];
      consumerDefaults, requestTimeout := NO_CONSUMER_DEFAULTS, 0;
    }

    method AddEndpoint(e: Endpoint)
      modifies `endpoints
      ensures endpoints == old(endpoints) + [e]
    {
      endpoints := endpoints + [e];
    }

    /** Creates or updates a stream under the limits in force now; an override replaces the
        defaults as a whole. */
    method EnsureStream(js: Broker, name: string) returns (ok: bool)
      modifies js
      ensures ok == Works(old(js.state), js.faults)
      ensures js.state == if ok then PutStream(old(js.state), name, LimitsFor(State(), name)) else Ticked(old(js.state))
    {
      var sc := streamDefaults;
      if name in streamConfigs {
        sc := streamConfigs[name];
      }
      ok := js.CreateOrUpdateStream(name, [StreamSubjects(name)], sc);
    }

    method StartCoreConsumer(js: Broker, sub: Subscription) returns (err: Option<ConnError>)
      requires !collectMode
      modifies `subscriptions, js
      ensures var r := SubscribeTo(old(State()), old(js.state), js.faults, sub);
        State() == r.conn && js.state == r.broker && err == r.err
    {
      var ok := js.Call();
      if !ok {
        return Some(BrokerFailed);
      }
      subscriptions := subscriptions + [sub];
      return None;
    }

    method SetupStreamPublisher(js: Broker, stream: string, publisher: Publisher) returns (err: Option<ConnError>)
      modifies this, js, publisher
      ensures var r := ApplySetup(old(State()), old(js.state), js.faults, Setup.StreamPublisher(stream, publisher));
        State() == r.conn && js.state == r.broker && err == r.err
      ensures publisher.State() ==
        if err.None? then WireOne(Setup.StreamPublisher(stream, publisher), publisher, old(publisher.State()),
                                  serviceName, collectMode, requestTimeout)
        else old(publisher.State())
    {
      var name := StreamName(stream);
      if !collectMode {
        var ok := EnsureStream(js, name);
        if !ok {
          return Some(BrokerFailed);
        }
        publisher.SetTransport(JetStream);
      }
      var pattern := EventStream;
      if stream != DEFAULT_EVENT_STREAM {
        pattern := CustomStream;
      }
      pendingStreams := pendingStreams + [name];
      AddEndpoint(Endpoint(Direction.Publish, pattern, name, Topic, "", "", "", false));
      publisher.Setup(name, serviceName);
      return None;
    }

    method SetupServicePublisher(target: string, publisher: Publisher)
      modifies this, publisher
      ensures var own := EndpointOf(Setup.ServicePublisher(target, publisher), serviceName);
        State() == old(State()).(endpoints := old(endpoints) + own)
      ensures publisher.State() == WireOne(Setup.ServicePublisher(target, publisher), publisher, old(publisher.State()),
                                           serviceName, collectMode, requestTimeout)
    {
      if !collectMode {
        var timeout := requestTimeout;
        if timeout == 0 {
          timeout := DEFAULT_REQUEST_TIMEOUT;
        }
        publisher.SetTransport(CoreRequest(timeout));
      }
      publisher.SetTarget(target);
      AddEndpoint(Endpoint(Direction.Publish, Pattern.ServiceRequest, target, Direct, "", "", "", false));
      publisher.Setup(target, serviceName);
    }

    method SetupStreamConsumer(stream: string, routingKey: string, ephemeral: bool, handler: Handler,
                               messageType: string, opts: seq<ConsumerOption>)
      returns (err: Option<ConnError>)
      modifies this
      ensures forall b, faults ::
        var r := ApplySetup(old(State()), b, faults,
                            Setup.StreamConsumer(stream, routingKey, ephemeral, handler, messageType, opts));
        State() == r.conn && b == r.broker && err == r.err
    {
      var name := StreamName(stream);
      var cfg := NewConsumerConfig(name, routingKey, ephemeral, handler, serviceName, opts);
      if cfg.Fail? {
        return Some(OptionFailed);
      }
      pending := pending + [cfg.value];
      var pattern := EventStream;
      if stream != DEFAULT_EVENT_STREAM {
        pattern := CustomStream;
      }
      AddEndpoint(Endpoint(Direction.Consume, pattern, name, Topic, cfg.value.consumerName, routingKey, messageType,
                           ephemeral));
      return None;
    }

    /** Runs one setup function. */
    method Apply(js: Broker, s: Setup) returns (err: Option<ConnError>)
      modifies this, js, PublisherOf(s)
      ensures var r := ApplySetup(old(State()), old(js.state), js.faults, s);
        State() == r.conn && js.state == r.broker && err == r.err
      ensures HasPublisher(s) ==>
        s.publisher.State() ==
          (if err.Some? then old(s.publisher.State())
           else WireOne(s, s.publisher, old(s.publisher.State()), serviceName, collectMode, old(requestTimeout)))
    {
      match s {
        case WithConsumerDefaults(d) =>
          consumerDefaults := d;
        case WithStreamDefaults(l) =>
          streamDefaults := l;
        case WithStreamConfig(stream, l) =>
          if stream == "" {
            return Some(EmptyStreamName);
          }
          streamConfigs := streamConfigs[StreamName(stream) := l];
        case WithRequestTimeout(d) =>
          if d <= 0 {
            return Some(NonPositiveTimeout);
          }
          requestTimeout := d;
        case WithOther =>
        case StreamPublisher(stream, publisher) =>
          err := SetupStreamPublisher(js, stream, publisher);
          return;
        case ServicePublisher(target, publisher) =>
          SetupServicePublisher(target, publisher);
        case StreamConsumer(stream, key, ephemeral, handler, messageType, opts) =>
          err := SetupStreamConsumer(stream, key, ephemeral, handler, messageType, opts);
          return;
        case ServiceRequestConsumer(key, handler, messageType) =>
          if !collectMode {
            err := StartCoreConsumer(js, Subscription(ServiceRequestSubject(serviceName, key), key, handler, false));
            if err.Some? {
              return;
            }
          }
          AddEndpoint(Endpoint(Direction.Consume, Pattern.ServiceRequest, serviceName, Direct, serviceName, key,
                               messageType, false));
        case ServiceResponseConsumer(target, key, messageType) =>
          AddEndpoint(Endpoint(Direction.Consume, Pattern.ServiceResponse, target, HeadersExchange, serviceName, key,
                               messageType, false));
        case RequestResponseHandler(key, handler) =>
          if !collectMode {
            err := StartCoreConsumer(js, Subscription(ServiceRequestSubject(serviceName, key), key, handler, true));
            if err.Some? {
              return;
            }
          }
          AddEndpoint(Endpoint(Direction.Consume, Pattern.ServiceRequest, serviceName, Direct, serviceName, key, "",
                               false));
      }
      err := None;
    }

    /** Runs setup functions in order and stops at the first failure; publishers are wired
        by the ones that succeeded. */
    method ApplyAll(js: Broker, setups: seq<Setup>) returns (err: Option<ConnError>)
      modifies this, js, PublishersOf(setups)
      ensures var r := RunSetups(old(State()), old(js.state), js.faults, setups);
        State() == r.conn && js.state == r.broker && err == r.err
      ensures var k := Succeeded(old(State()), old(js.state), js.faults, setups);
        forall p :: p in PublishersOf(setups) ==>
          p.State() == WireAll(setups[..k], p, old(p.State()), serviceName, collectMode, old(requestTimeout))
    {
      ghost var c0, b0 := State(), js.state;
      ghost var r := RunSetups(c0, b0, js.faults, setups[..0]);
      for i := 0 to |setups|
        invariant r == RunSetups(c0, b0, js.faults, setups[..i])
        invariant State() == r.conn && js.state == r.broker && r.err.None?
        invariant requestTimeout == TimeoutAfter(setups[..i], c0.requestTimeout)
        invariant forall p :: p in PublishersOf(setups) ==>
          p.State() == WireAll(setups[..i], p, old(p.State()), serviceName, collectMode, c0.requestTimeout)
      {
        assert PublisherOf(setups[i]) <= PublishersOf(setups);
        SetupsStep(c0, b0, js.faults, setups, i);
        label before:
        err := Apply(js, setups[i]);
        ghost var was := r;
        r := RunSetups(c0, b0, js.faults, setups[..i + 1]);
        assert setups[..i + 1][..i] == setups[..i];
        if err.Some? {
          FirstFailure(c0, b0, js.faults, setups, i);
          forall p | p in PublishersOf(setups) ensures p.State() == old@before(p.State()) {
            if !(HasPublisher(setups[i]) && setups[i].publisher == p) {
              assert p !in PublisherOf(setups[i]);
            }
          }
          return;
        }
        TimeoutStep(was.conn, was.broker, js.faults, setups[i]);
        forall p | p in PublishersOf(setups)
          ensures p.State() == WireAll(setups[..i + 1], p, old(p.State()), serviceName, collectMode, c0.requestTimeout)
        {
          WireStep(setups, i, p, old(p.State()), serviceName, collectMode, c0.requestTimeout);
          if !(HasPublisher(setups[i]) && setups[i].publisher == p) {
            assert p !in PublisherOf(setups[i]);
            assert p.State() == old@before(p.State());
          }
        }
      }
      assert setups[..|setups|] == setups;
      return None;
    }

    /** Starts one broker consumer for a group of registrations; `r` is what that leads to. */
    method StartOneGroup(js: Broker, configs: Configs, ghost r: Outcome) returns (err: Option<ConnError>)
      requires configs != []
      requires r == StartConsumer(State(), js.state, js.faults, JsConsumerOf(configs, consumerDefaults))
      modifies `consumers, js
      ensures State() == r.conn && js.state == r.broker && err == r.err
    {
      var first := configs[0];
      var ok := EnsureStream(js, first.stream);
      if !ok {
        return Some(BrokerFailed);
      }
      var plan := PlanGroup(configs, consumerDefaults);
      ok := js.CreateOrUpdateConsumer(first.stream, plan.config);
      if !ok {
        return Some(BrokerFailed);
      }
      ok := js.Call();
      if !ok {
        return Some(BrokerFailed);
      }
      consumers := consumers + [plan];
      return None;
    }

    /** Starts the groups in the order of their keys, up to the first failure. */
    method StartInOrder(js: Broker, groups: map<string, Configs>, order: seq<string>, ghost plans: seq<JsConsumer>)
      returns (err: Option<ConnError>)
      requires |plans| == |order|
      requires forall i :: 0 <= i < |order| ==>
        order[i] in groups && groups[order[i]] != [] && plans[i] == JsConsumerOf(groups[order[i]], consumerDefaults)
      modifies `consumers, js
      ensures var r := StartConsumers(old(State()), old(js.state), js.faults, plans);
        State() == r.conn && js.state == r.broker && err == r.err
    {
      ghost var c0, b0 := State(), js.state;
      ghost var r := StartConsumers(c0, b0, js.faults, plans[..0]);
      for i := 0 to |order|
        invariant r == StartConsumers(c0, b0, js.faults, plans[..i])
        invariant State() == r.conn && js.state == r.broker && r.err.None?
      {
        ConsumersStep(c0, b0, js.faults, plans, i);
        r := StartConsumers(c0, b0, js.faults, plans[..i + 1]);
        err := StartOneGroup(js, groups[order[i]], r);
        if err.Some? {
          ConsumerFailureSticks(c0, b0, js.faults, plans, i + 1);
          return;
        }
      }
      assert plans[..|order|] == plans;
      return None;
    }

    /** Groups the collected registrations and starts the groups. */
    method StartPendingJSConsumers(js: Broker) returns (err: Option<ConnError>)
      modifies `consumers, `pending, js
      ensures var r := StartPending(old(State()), old(js.state), js.faults);
        State() == r.conn && js.state == r.broker && err == r.err
    {
      var groups, order := GroupPending(pending);
      ghost var plans := ConsumersOf(pending, consumerDefaults);
      forall i | 0 <= i < |order|
        ensures order[i] in groups && groups[order[i]] != []
        ensures plans[i] == JsConsumerOf(groups[order[i]], consumerDefaults)
      {
        assert order[i] in order;
        PlanAt(pending, consumerDefaults, i);
      }
      err := StartInOrder(js, groups, order, plans);
      if err.Some? {
        return;
      }
      pending := [];
    }

    /** Connects, runs the setups, starts the deferred consumers. */
    method Start(js: Broker, setups: seq<Setup>) returns (err: Option<ConnError>)
      modifies this, js, PublishersOf(setups)
      ensures var r := Setups.Start(old(State()), old(js.state), js.faults, setups);
        State() == r.conn && js.state == r.broker && err == r.err
      ensures var k := SetupsReached(old(State()), old(js.state), js.faults, setups);
        forall p :: p in PublishersOf(setups) ==>
          p.State() == WireAll(setups[..k], p, old(p.State()), serviceName, collectMode, old(requestTimeout))
    {
      if started {
        return Some(AlreadyStarted);
      }
      if collectMode {
        err := ApplyAll(js, setups);
        if err.None? {
          started := true;
        }
        return;
      }
      var ok := js.Call();
      if !ok {
        return Some(BrokerFailed);
      }
      ok := js.Call();
      if !ok {
        return Some(BrokerFailed);
      }
      err := ApplyAll(js, setups);
      if err.Some? {
        return;
      }
      err := StartPendingJSConsumers(js);
      if err.Some? {
        return;
      }
      started := true;
      return None;
    }
  }

  /** Runs the setups against a connection that never reaches a broker. */
  method CollectTopology(service: string, setups: seq<Setup>) returns (r: Result<seq<Endpoint>, ConnError>)
    modifies PublishersOf(setups)
    ensures var c := Collect(service, BrokerState(map[], [], 0), setups);
      r == (if c.err.Some? then Fail(c.err.value) else Ok(c.conn.endpoints))
    ensures var k := Succeeded(Fresh(service, true), BrokerState(map[], [], 0), {}, setups);
      forall p :: p in PublishersOf(setups) ==> p.State() == WireAll(setups[..k], p, old(p.State()), service, true, 0)
  {
    var c := new Connection(service, true);
    var none := new Broker({});
    var err := c.ApplyAll(none, setups);
    if err.Some? {
      return Fail(err.value);
    }
    return Ok(c.endpoints);
  }

  // ---- one more step of a run, and a failure that ends it -------------------------------

  lemma SetupsStep(c: ConnState, b: BrokerState, faults: Faults, setups: seq<Setup>, i: nat)
    requires i < |setups|
    requires RunSetups(c, b, faults, setups[..i]).err.None?
    ensures var r := RunSetups(c, b, faults, setups[..i]);
      RunSetups(c, b, faults, setups[..i + 1]) == ApplySetup(r.conn, r.broker, faults, setups[i])
  {
    assert setups[..i + 1][..i] == setups[..i];
  }

  lemma TimeoutStep(c: ConnState, b: BrokerState, faults: Faults, s: Setup)
    requires ApplySetup(c, b, faults, s).err.None?
    ensures ApplySetup(c, b, faults, s).conn.requestTimeout
      == if s.WithRequestTimeout? then s.timeout else c.requestTimeout
  {
  }

  lemma WireStep(setups: seq<Setup>, i: nat, p: Publisher, ps: PublisherState, service: string, collect: bool,
                 timeout: int)
    requires i < |setups|
    ensures WireAll(setups[..i + 1], p, ps, service, collect, timeout)
      == WireOne(setups[i], p, WireAll(setups[..i], p, ps, service, collect, timeout), service, collect,
                 TimeoutAfter(setups[..i], timeout))
  {
    assert setups[..i + 1][..i] == setups[..i];
  }

  lemma {:induction false} FailureSticks(c: ConnState, b: BrokerState, faults: Faults, setups: seq<Setup>, k: nat)
    requires k <= |setups|
    requires RunSetups(c, b, faults, setups[..k]).err.Some?
    ensures RunSetups(c, b, faults, setups) == RunSetups(c, b, faults, setups[..k])
  {
    if k == |setups| {
      assert setups[..k] == setups;
    } else {
      var n := |setups| - 1;
      assert setups[..n][..k] == setups[..k];
      FailureSticks(c, b, faults, setups[..n], k);
    }
  }

  lemma {:induction false} FailureCounts(c: ConnState, b: BrokerState, faults: Faults, setups: seq<Setup>, k: nat)
    requires k <= |setups|
    requires RunSetups(c, b, faults, setups[..k]).err.Some?
    ensures Succeeded(c, b, faults, setups) == Succeeded(c, b, faults, setups[..k])
  {
    if k == |setups| {
      assert setups[..k] == setups;
    } else {
      var n := |setups| - 1;
      assert setups[..n][..k] == setups[..k];
      FailureSticks(c, b, faults, setups[..n], k);
      FailureCounts(c, b, faults, setups[..n], k);
    }
  }

  /** The first failure decides the outcome and how many setups succeeded. */
  lemma FirstFailure(c: ConnState, b: BrokerState, faults: Faults, setups: seq<Setup>, i: nat)
    requires i < |setups|
    requires RunSetups(c, b, faults, setups[..i]).err.None? && RunSetups(c, b, faults, setups[..i + 1]).err.Some?
    ensures RunSetups(c, b, faults, setups) == RunSetups(c, b, faults, setups[..i + 1])
    ensures Succeeded(c, b, faults, setups) == i
  {
    FailureSticks(c, b, faults, setups, i + 1);
    FailureCounts(c, b, faults, setups, i + 1);
    assert setups[..i + 1][..i] == setups[..i];
  }

  lemma ConsumersStep(c: ConnState, b: BrokerState, faults: Faults, plans: seq<JsConsumer>, i: nat)
    requires i < |plans|
    requires StartConsumers(c, b, faults, plans[..i]).err.None?
    ensures var r := StartConsumers(c, b, faults, plans[..i]);
      StartConsumers(c, b, faults, plans[..i + 1]) == StartConsumer(r.conn, r.broker, faults, plans[i])
  {
    assert plans[..i + 1][..i] == plans[..i];
  }

  lemma {:induction false} ConsumerFailureSticks(c: ConnState, b: BrokerState, faults: Faults, plans: seq<JsConsumer>,
                                                 k: nat)
    requires k <= |plans|
    requires StartConsumers(c, b, faults, plans[..k]).err.Some?
    ensures StartConsumers(c, b, faults, plans) == StartConsumers(c, b, faults, plans[..k])
  {
    if k == |plans| {
      assert plans[..k] == plans;
    } else {
      var n := |plans| - 1;
      assert plans[..n][..k] == plans[..k];
      ConsumerFailureSticks(c, b, faults, plans[..n], k);
    }
  }

  /** Starting consumers changes nothing on the connection but the list of them. */
  lemma {:induction false} StartingKeepsSettings(c: ConnState, b: BrokerState, faults: Faults, plans: seq<JsConsumer>)
    ensures var r := StartConsumers(c, b, faults, plans); r.conn == c.(consumers := r.conn.consumers)
  {
    if plans != [] {
      StartingKeepsSettings(c, b, faults, plans[..|plans| - 1]);
    }
  }
}
