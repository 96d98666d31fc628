/** Publishers of one service against consumers of another: what the topology says of both is
    what happens to a message between them. */
module Requests {
  import opened Wrappers
  import opened Words
  import opened Naming
  import opened Handlers
  import opened ConsumerConfigs
  import opened GroupMeaning
  import opened Brokers
  import opened Publishers
  import opened Setups
  import opened Startup
  import opened Topology
  import opened Delivery
  import opened DeliveryInvariants
  import opened DeliveryRuns
  import opened EndToEnd

  // ---- the last wiring of a publisher ---------------------------------------------------

  /** Setup `i` is the last one that wires `p`. */
  predicate LastWiring(setups: seq<Setup>, p: Publisher, i: nat) {
    i < |setups| && Wires(setups[i], p) && forall j :: i < j < |setups| ==> !Wires(setups[j], p)
  }

  /** Setup `i` is the last one that wires `p` to a service. */
  predicate LastServiceWiring(setups: seq<Setup>, p: Publisher, i: nat) {
    && i < |setups| && Wires(setups[i], p) && setups[i].ServicePublisher?
    && forall j :: i < j < |setups| ==> !(Wires(setups[j], p) && setups[j].ServicePublisher?)
  }

  /** Requests go to the service of the last wiring to a service. */
  lemma {:induction false} TargetIsLast(setups: seq<Setup>, p: Publisher, ps: PublisherState, service: string,
                                        collect: bool, timeout: int, i: nat)
    requires LastServiceWiring(setups, p, i)
    ensures WireAll(setups, p, ps, service, collect, timeout).target == Some(setups[i].target)
  {
    var n := |setups| - 1;
    if i < n {
      assert setups[..n][i] == setups[i];
      assert forall j :: 0 <= j < n ==> setups[..n][j] == setups[j];
      TargetIsLast(setups[..n], p, ps, service, collect, timeout, i);
    }
  }

  /** How long a request may take: the last timeout given before the wiring, or 30 seconds. */
  function TimeoutInForce(setups: seq<Setup>, i: nat): int
    requires i <= |setups|
  {
    if i == 0 then 30 * 1_000_000_000
    else if setups[i - 1].WithRequestTimeout? then setups[i - 1].timeout
    else TimeoutInForce(setups, i - 1)
  }

  lemma {:induction false} TimeoutUsed(setups: seq<Setup>, i: nat)
    requires i <= |setups| && ValidSetups(setups)
    ensures TimeoutInForce(setups, i)
      == if TimeoutAfter(setups[..i], 0) == 0 then DEFAULT_REQUEST_TIMEOUT else TimeoutAfter(setups[..i], 0)
    ensures TimeoutAfter(setups[..i], 0) >= 0
  {
    if i > 0 {
      TimeoutUsed(setups, i - 1);
      assert setups[..i][..i - 1] == setups[..i - 1];
      assert ValidSetup(setups[i - 1]);
    }
  }

  /** Stream, service name and transport are those of the last wiring. */
  lemma {:induction false} LastWiringDecides(setups: seq<Setup>, p: Publisher, ps: PublisherState, service: string,
                                             i: nat)
    requires LastWiring(setups, p, i) && ValidSetups(setups)
    ensures var after := WireAll(setups, p, ps, service, false, 0);
      && after.serviceName == service
      && after.stream == (if setups[i].StreamPublisher? then StreamName(setups[i].stream) else setups[i].target)
      && after.transport
         == Some(if setups[i].StreamPublisher? then JetStream else CoreRequest(TimeoutInForce(setups, i)))
  {
    var n := |setups| - 1;
    if i < n {
      assert setups[..n][i] == setups[i];
      assert forall j :: 0 <= j < n ==> setups[..n][j] == setups[j];
      LastWiringDecides(setups[..n], p, ps, service, i);
      SameTimeout(setups, n, i);
    } else {
      TimeoutUsed(setups, i);
    }
  }

  lemma {:induction false} SameTimeout(setups: seq<Setup>, n: nat, i: nat)
    requires i <= n <= |setups|
    ensures TimeoutInForce(setups[..n], i) == TimeoutInForce(setups, i)
  {
    if i > 0 {
      SameTimeout(setups, n, i - 1);
    }
  }

  // ---- what an endpoint tells -------------------------------------------------------------

  predicate TakesRequests(s: Setup) { s.ServiceRequestConsumer? || s.RequestResponseHandler? }

  /** A setup declares at most one endpoint; it publishes exactly for a publisher, is a topic
      exactly for a stream, and the pattern tells requests, responses and streams apart. */
  lemma EndpointTellsKind(s: Setup, service: string)
    requires EndpointOf(s, service) != []
    ensures var es := EndpointOf(s, service);
      && |es| == 1
      && (es[0].direction == Direction.Publish <==> HasPublisher(s))
      && (es[0].exchangeKind == Topic <==> s.StreamPublisher? || s.StreamConsumer?)
      && (es[0].exchangeKind == HeadersExchange <==> s.ServiceResponseConsumer?)
      && (es[0].pattern == ServiceRequest <==> s.ServicePublisher? || TakesRequests(s))
      && (es[0].pattern == ServiceResponse <==> s.ServiceResponseConsumer?)
      && (es[0].pattern == EventStream <==> (s.StreamPublisher? || s.StreamConsumer?) && s.stream == "events")
      && (es[0].queueName == service <== TakesRequests(s) || s.ServiceResponseConsumer?)
      && (es[0].queueName == "" && es[0].routingKey == "" <== HasPublisher(s))
      && (es[0].routingKey == s.routingKey <== TakesRequests(s) || s.ServiceResponseConsumer? || s.StreamConsumer?)
      && (es[0].ephemeral <==> s.StreamConsumer? && s.ephemeral)
      && es[0].messageType == (if s.StreamConsumer? || s.ServiceRequestConsumer? || s.ServiceResponseConsumer?
                               then s.messageType else "")
  {
  }

  /** Responses are listed under the exchange that requests to the same service go to, and
      request consumers of that service listen on. */
  lemma ResponsesFollowRequests(out: Setup, back: Setup, service: string, into: Setup)
    requires out.ServicePublisher? && back.ServiceResponseConsumer? && out.target == back.target && TakesRequests(into)
    ensures EndpointOf(back, service)[0].exchangeName == EndpointOf(out, service)[0].exchangeName
    ensures EndpointOf(back, service)[0].exchangeName == EndpointOf(into, out.target)[0].exchangeName
  {
  }

  /** The two spellings of the default stream name one stream, but only the short one is
      listed as the event stream: the pattern looks at the name as given. */
  lemma EventStreamByShortNameOnly(stream: string)
    ensures (StreamPattern(stream) == EventStream <==> StreamName(stream) == "events")
      <==> stream != "events.topic.exchange"
  {
    KeepsOtherNames("events");
    StreamNameExactly("events");
    assert "events" + EXCHANGE_SUFFIX == "events.topic.exchange";
    if StreamName(stream) == "events" && stream != "events" {
      assert stream == stream[..6] + stream[6..];
    }
  }

  /** The exchange spelling of a stream name changes nothing about registrations, publishers
      and stream limits. */
  lemma ExchangeSpellingIsInvisible(stream: string, key: string, ephemeral: bool, h: Handler, messageType: string,
                                    opts: seq<ConsumerOption>, service: string, p: Publisher, ps: PublisherState,
                                    collect: bool, timeout: int)
    requires StreamName(stream) == stream
    ensures var other := stream + ".topic.exchange";
      && RegistrationOf(StreamConsumer(other, key, ephemeral, h, messageType, opts), service)
         == RegistrationOf(StreamConsumer(stream, key, ephemeral, h, messageType, opts), service)
      && WireOne(StreamPublisher(other, p), p, ps, service, collect, timeout)
         == WireOne(StreamPublisher(stream, p), p, ps, service, collect, timeout)
      && RegistrationOf(StreamConsumer(stream, key, ephemeral, h, messageType, opts), service)[0].stream == stream
      && WireOne(StreamPublisher(stream, p), p, ps, service, collect, timeout).stream == stream
  {
    CutsExchangeSuffix(stream);
  }

  // ---- one service publishes, another consumes ------------------------------------------------

  /** Two topologies side by side predict stream routing: what a stream publisher of one
      service publishes under a key passes the filter of another service's registration
      exactly when their endpoints name one exchange and the consumer's routing key matches. */
  lemma StreamEndpointsPredictRouting(out: Setup, ps: PublisherState, service: string, timeout: int,
                                      into: Setup, other: string, key: string)
    requires out.StreamPublisher? && PlainStream(StreamName(out.stream)) && ps.target == None
    requires into.StreamConsumer? && PlainStream(StreamName(into.stream)) && PlainPattern(into.routingKey)
    ensures var sent := SubjectOf(WireOne(out, out.publisher, ps, service, false, timeout), key);
      var e, f := EndpointOf(out, service)[0], EndpointOf(into, other)[0];
      Admits(RegistrationOf(into, other)[0], sent)
      <==> e.exchangeName == f.exchangeName && MatchRoutingKey(f.routingKey, key, OneOrMore)
  {
    FilterAdmitsExactly(StreamName(into.stream), into.routingKey, StreamName(out.stream), key);
  }

  /** And request routing: a request reaches another service's subscription exactly when the
      endpoints name one exchange and the subscription's key, token by token, admits the
      request's. */
  lemma RequestEndpointsPredictRouting(out: Setup, ps: PublisherState, service: string, timeout: int,
                                       into: Setup, other: string, key: string)
    requires out.ServicePublisher? && PlainStream(out.target)
    requires TakesRequests(into) && PlainStream(other)
    ensures var sent := SubjectOf(WireOne(out, out.publisher, ps, service, false, timeout), key);
      var e, f := EndpointOf(out, service)[0], EndpointOf(into, other)[0];
      && |SubscriptionOf(into, other)| == 1
      && (SubjectMatches(SubscriptionOf(into, other)[0].subject, sent)
          <==> e.exchangeName == f.exchangeName && TokensMatch(Split(f.routingKey), Split(key)))
      && (SubscriptionOf(into, other)[0].subject == sent
          <==> e.exchangeName == f.exchangeName && f.routingKey == key)
  {
    RequestAdmittedExactly(other, into.routingKey, out.target, key);
    RequestSubjectsTell(other, into.routingKey, out.target, key);
  }

  // ---- requests to a started service -----------------------------------------------------------

  /** The subscription a setup asks for. */
  predicate Opens(s: Setup, service: string, sub: Subscription) {
    && TakesRequests(s)
    && sub.routingKey == s.routingKey && sub.handler == s.handler && sub.replies == s.RequestResponseHandler?
    && sub.subject == ServiceRequestSubject(service, s.routingKey)
  }

  lemma {:induction false} SubscriptionsAreOpened(setups: seq<Setup>, service: string, sub: Subscription)
    ensures sub in SubscriptionsOf(setups, service) <==> exists i :: 0 <= i < |setups| && Opens(setups[i], service, sub)
  {
    if setups != [] {
      var n := |setups| - 1;
      SubscriptionsAreOpened(setups[..n], service, sub);
      assert sub in SubscriptionOf(setups[n], service) <==> Opens(setups[n], service, sub);
      if i :| 0 <= i < |setups| && Opens(setups[i], service, sub) {
        assert i < n ==> Opens(setups[..n][i], service, sub);
      }
      if i :| 0 <= i < n && Opens(setups[..n][i], service, sub) {
        assert Opens(setups[i], service, sub);
      }
    }
  }

  /** Some request setup under this key has this handler. */
  predicate Answers(setups: seq<Setup>, routingKey: string, h: Handler) {
    exists i :: 0 <= i < |setups| && TakesRequests(setups[i])
                && setups[i].routingKey == routingKey && setups[i].handler == h
  }

  /** The request reaches a subscription under this key with this handler. */
  predicate Reaches(subs: seq<Subscription>, subject: string, routingKey: string, h: Handler) {
    exists i :: 0 <= i < |subs| && SubjectMatches(subs[i].subject, subject)
                && subs[i].routingKey == routingKey && subs[i].handler == h
  }

  lemma ReachesExactly(setups: seq<Setup>, service: string, target: string, key: string, routingKey: string, h: Handler)
    requires PlainStream(service) && PlainStream(target)
    ensures Reaches(SubscriptionsOf(setups, service), ServiceRequestSubject(target, key), routingKey, h)
      <==> target == service && TokensMatch(Split(routingKey), Split(key)) && Answers(setups, routingKey, h)
  {
    var subs := SubscriptionsOf(setups, service);
    RequestAdmittedExactly(service, routingKey, target, key);
    if n :| 0 <= n < |subs| && SubjectMatches(subs[n].subject, ServiceRequestSubject(target, key))
            && subs[n].routingKey == routingKey && subs[n].handler == h {
      SubscriptionsAreOpened(setups, service, subs[n]);
      var i :| 0 <= i < |setups| && Opens(setups[i], service, subs[n]);
    }
    if i :| 0 <= i < |setups| && TakesRequests(setups[i])
            && setups[i].routingKey == routingKey && setups[i].handler == h {
      var subject := ServiceRequestSubject(service, routingKey);
      var sub := Subscription(subject, routingKey, h, setups[i].RequestResponseHandler?);
      assert Opens(setups[i], service, sub);
      SubscriptionsAreOpened(setups, service, sub);
      var n :| 0 <= n < |subs| && subs[n] == sub;
    }
  }

  /** Request routing end to end: what a publisher wired last to `target` sends under `key`
      reaches a handler of a started service exactly when that service is the target and
      registered the handler under a key that admits it. */
  lemma RequestRoutedExactly(wiring: seq<Setup>, p: Publisher, sender: string, i: nat,
                             service: string, b: BrokerState, faults: Faults, setups: seq<Setup>,
                             key: string, routingKey: string, h: Handler)
    requires LastServiceWiring(wiring, p, i) && PlainStream(wiring[i].target) && PlainStream(service)
    requires Start(Fresh(service, false), b, faults, setups).err.None?
    ensures var sent := SubjectOf(WireAll(wiring, p, NEW_PUBLISHER, sender, false, 0), key);
      Reaches(Start(Fresh(service, false), b, faults, setups).conn.subscriptions, sent, routingKey, h)
      <==> wiring[i].target == service && TokensMatch(Split(routingKey), Split(key)) && Answers(setups, routingKey, h)
  {
    TargetIsLast(wiring, p, NEW_PUBLISHER, sender, false, 0, i);
    SuccessfulStart(service, b, faults, setups);
    AfterFresh(service, setups);
    ReachesExactly(setups, service, wiring[i].target, key, routingKey, h);
  }

  // ---- who answers a core message ------------------------------------------------------------

  lemma {:induction false} CoreIsSubscription(service: string, subs: seq<Subscription>, i: nat) returns (n: nat)
    requires i < |CoresOf(service, subs)|
    ensures n < |subs| && !subs[n].replies
    ensures CoresOf(service, subs)[i].routingKey == subs[n].routingKey
    ensures CoresOf(service, subs)[i].handlers == map[subs[n].routingKey := subs[n].handler]
  {
    var last := |subs| - 1;
    if i < |CoresOf(service, subs[..last])| {
      n := CoreIsSubscription(service, subs[..last], i);
    } else {
      n := last;
    }
  }

  lemma ServedCoreIsSubscription(S: Setting, t: State, x: Delivery, service: string, subs: seq<Subscription>,
                                 h: Handler)
    returns (n: nat)
    requires S.cores == CoresOf(service, subs)
    requires x.source.Core? && SourceOk(S, t, x) && CallOk(S, t, x, h)
    ensures n < |subs| && !subs[n].replies && subs[n].routingKey == x.key && subs[n].handler == h
  {
    n := CoreIsSubscription(service, subs, x.source.index);
  }

  lemma DispatchedIsOk(S: Setting, t: State, d: nat, h: Handler)
    requires SoundDeliveries(S, t) && d < |t.deliveries| && t.deliveries[d].phase == Dispatched(h)
    ensures SourceOk(S, t, t.deliveries[d]) && CallOk(S, t, t.deliveries[d], h)
  {
    assert DeliveryOk(S, t, t.deliveries[d]);
  }

  lemma RunningCores(service: string, b: BrokerState, faults: Faults, setups: seq<Setup>,
                     reading: HashReading, mapper: string -> string)
    requires Start(Fresh(service, false), b, faults, setups).err.None?
    ensures Running(Start(Fresh(service, false), b, faults, setups).conn, reading, mapper).cores
      == CoresOf(service, SubscriptionsOf(setups, service))
  {
    SuccessfulStart(service, b, faults, setups);
    AfterFresh(service, setups);
  }

  /** In every run of a started service, the handler called for a core message is one that was
      registered under the message's key without replies. */
  lemma CoreCallIsRegistered(service: string, b: BrokerState, faults: Faults, setups: seq<Setup>,
                             reading: HashReading, mapper: string -> string,
                             s: State, acts: seq<Action>, d: nat, h: Handler)
    returns (i: nat)
    requires Start(Fresh(service, false), b, faults, setups).err.None? && Initial(s)
    requires Run(Running(Start(Fresh(service, false), b, faults, setups).conn, reading, mapper), s, acts).Some?
    requires
      var t := Run(Running(Start(Fresh(service, false), b, faults, setups).conn, reading, mapper), s, acts).value;
      d < |t.deliveries| && t.deliveries[d].source.Core? && t.deliveries[d].phase == Dispatched(h)
    ensures i < |setups| && setups[i].ServiceRequestConsumer? && setups[i].handler == h
    ensures
      var t := Run(Running(Start(Fresh(service, false), b, faults, setups).conn, reading, mapper), s, acts).value;
      setups[i].routingKey == t.deliveries[d].key
  {
    var S := Running(Start(Fresh(service, false), b, faults, setups).conn, reading, mapper);
    RunningCores(service, b, faults, setups, reading, mapper);
    i := CoreCallIn(S, s, acts, d, h, setups, service);
  }

  lemma CoreCallIn(S: Setting, s: State, acts: seq<Action>, d: nat, h: Handler, setups: seq<Setup>, service: string)
    returns (i: nat)
    requires S.cores == CoresOf(service, SubscriptionsOf(setups, service))
    requires Initial(s) && Run(S, s, acts).Some? && d < |Run(S, s, acts).value.deliveries|
    requires Run(S, s, acts).value.deliveries[d].source.Core?
    requires Run(S, s, acts).value.deliveries[d].phase == Dispatched(h)
    ensures i < |setups| && setups[i].ServiceRequestConsumer? && setups[i].handler == h
    ensures setups[i].routingKey == Run(S, s, acts).value.deliveries[d].key
  {
    var subs := SubscriptionsOf(setups, service);
    RunIsSound(S, s, acts);
    var t := Run(S, s, acts).value;
    DispatchedIsOk(S, t, d, h);
    var n := ServedCoreIsSubscription(S, t, t.deliveries[d], service, subs, h);
    SubscriptionsAreOpened(setups, service, subs[n]);
    i :| 0 <= i < |setups| && Opens(setups[i], service, subs[n]);
  }
}
