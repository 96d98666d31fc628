/** The collected topology against what runs, and the publishers' wiring. */
module Topology {
  import opened Words
  import opened Naming
  import opened Handlers
  import opened ConsumerConfigs
  import opened ConsumerGroups
  import opened Brokers
  import opened Publishers
  import opened Setups
  import opened Startup

  predicate IsStreamConsume(e: Endpoint) {
    e.direction.Consume? && (e.pattern.EventStream? || e.pattern.CustomStream?)
  }

  function StreamConsumeEndpoints(endpoints: seq<Endpoint>): seq<Endpoint> {
    if endpoints == [] then []
    else
      var rest, e := StreamConsumeEndpoints(endpoints[..|endpoints| - 1]), endpoints[|endpoints| - 1];
      if IsStreamConsume(e) then rest + [e] else rest
  }

  /** The endpoint says what the registration is. */
  predicate Describes(e: Endpoint, cfg: ConsumerConfig) {
    && e.exchangeName == cfg.stream
    && e.queueName == cfg.consumerName
    && e.routingKey == cfg.routingKey
    && e.ephemeral == cfg.ephemeral
  }

  lemma StreamConsumeSnoc(es: seq<Endpoint>, own: seq<Endpoint>)
    requires |own| <= 1
    ensures StreamConsumeEndpoints(es + own)
      == if own != [] && IsStreamConsume(own[0]) then StreamConsumeEndpoints(es) + own else StreamConsumeEndpoints(es)
  {
    if own == [] {
      assert es + own == es;
    } else {
      assert (es + own)[..|es|] == es;
      assert own == [own[0]];
    }
  }

  /** One setup declares a stream-consume endpoint exactly when it registers a consumer. */
  lemma EndpointDescribesRegistration(s: Setup, service: string)
    ensures var own, cfg := EndpointOf(s, service), RegistrationOf(s, service);
      && |own| <= 1
      && (own != [] && IsStreamConsume(own[0]) <==> cfg != [])
      && (cfg != [] ==> |cfg| == 1 && Describes(own[0], cfg[0]) && NamedBy(cfg[0], service))
  {
  }

  /** Stream-consume endpoints correspond to the registrations one to one and in order. */
  lemma {:induction false} EndpointsDescribeRegistrations(setups: seq<Setup>, service: string)
    ensures var es, cfgs := StreamConsumeEndpoints(EndpointsOf(setups, service)), Registrations(setups, service);
      |es| == |cfgs| && forall i :: 0 <= i < |es| ==> Describes(es[i], cfgs[i]) && NamedBy(cfgs[i], service)
  {
    if setups != [] {
      var n := |setups| - 1;
      EndpointsDescribeRegistrations(setups[..n], service);
      var own := EndpointOf(setups[n], service);
      EndpointDescribesRegistration(setups[n], service);
      StreamConsumeSnoc(EndpointsOf(setups[..n], service), own);
    }
  }

  /** A started consumer on the endpoint's stream, under its name, admitting its routing
      key, and durable under its queue name exactly when it is not ephemeral. */
  predicate ServedBy(e: Endpoint, c: JsConsumer) {
    && c.stream == e.exchangeName
    && c.name == e.queueName
    && c.config.durable == (if e.ephemeral then "" else e.queueName)
    && FilterSubject(e.exchangeName, e.routingKey) in EffectiveFilters(c.config)
  }

  predicate Served(e: Endpoint, consumers: seq<JsConsumer>) {
    exists i :: 0 <= i < |consumers| && ServedBy(e, consumers[i])
  }

  /** No two registrations on different streams fall into one group. */
  predicate NoStreamsCollide(cfgs: Configs) {
    forall i, j :: 0 <= i < |cfgs| && 0 <= j < |cfgs| && GroupKey(cfgs[i]) == GroupKey(cfgs[j]) ==>
      cfgs[i].stream == cfgs[j].stream
  }

  lemma ColonFreeStreamsNeverCollide(cfgs: Configs)
    requires forall i :: 0 <= i < |cfgs| ==> ':' !in cfgs[i].stream
    ensures NoStreamsCollide(cfgs)
  {
    forall i, j | 0 <= i < |cfgs| && 0 <= j < |cfgs| && GroupKey(cfgs[i]) == GroupKey(cfgs[j])
      ensures cfgs[i].stream == cfgs[j].stream
    {
      SharedKeyExactly(cfgs[i], cfgs[j]);
      SwallowingNeedsColon(cfgs[i], cfgs[j]);
      SwallowingNeedsColon(cfgs[j], cfgs[i]);
    }
  }

  lemma SameKeySameStream(a: ConsumerConfig, b: ConsumerConfig)
    requires GroupKey(a) == GroupKey(b) && a.stream == b.stream
    ensures a.consumerName == b.consumerName
  {
    assert a.consumerName == GroupKey(a)[|a.stream| + 1..];
    assert b.consumerName == GroupKey(b)[|b.stream| + 1..];
  }

  lemma OrderDistinct(cfgs: Configs, i: nat, j: nat)
    requires i < |Order(cfgs)| && j < |Order(cfgs)| && Order(cfgs)[i] == Order(cfgs)[j]
    ensures i == j
  {
    StablePartition(cfgs);
  }

  /** Without collisions, the consumer of a registration's group serves its endpoint. */
  lemma RegistrationServed(cfgs: Configs, service: string, defaults: ConsumerDefaults, k: nat, e: Endpoint)
    requires service != "" && k < |cfgs| && Describes(e, cfgs[k])
    requires NoStreamsCollide(cfgs)
    requires forall i :: 0 <= i < |cfgs| ==> NamedBy(cfgs[i], service)
    ensures Served(e, ConsumersOf(cfgs, defaults))
  {
    var i := GroupOf(cfgs, k);
    var group := Groups(cfgs)[i];
    MembersShareKey(cfgs, Order(cfgs)[i]);
    var first := group[0];
    assert first in cfgs && GroupKey(first) == GroupKey(cfgs[k]);
    var f :| 0 <= f < |cfgs| && cfgs[f] == first;
    assert cfgs[f].stream == cfgs[k].stream;
    SameKeySameStream(first, cfgs[k]);
    NamesTellKinds(service, first.ephemeral, first.suffix, cfgs[k].ephemeral, cfgs[k].suffix);
    EffectiveFiltersAreMembers(group, defaults);
    var m :| 0 <= m < |group| && group[m] == cfgs[k];
    assert FiltersOf(group)[m] == FilterSubject(e.exchangeName, e.routingKey);
    assert ServedBy(e, ConsumersOf(cfgs, defaults)[i]);
  }

  /** A consumer that serves a registration's endpoint is the one of its group. */
  lemma ServerIsOwnGroup(cfgs: Configs, defaults: ConsumerDefaults, k: nat, e: Endpoint, i: nat)
    requires k < |cfgs| && i < |Groups(cfgs)| && Describes(e, cfgs[k])
    requires ServedBy(e, ConsumersOf(cfgs, defaults)[i])
    ensures Order(cfgs)[i] == GroupKey(cfgs[k]) && Groups(cfgs)[i][0].stream == cfgs[k].stream
  {
    MembersShareKey(cfgs, Order(cfgs)[i]);
  }

  /** The topology is faithful exactly when no streams collide: every stream-consume
      endpoint is then, and only then, served by a started consumer as it says. */
  lemma TopologyFaithfulExactly(service: string, b: BrokerState, faults: Faults, setups: seq<Setup>)
    requires service != ""
    requires Start(Fresh(service, false), b, faults, setups).err.None?
    ensures var r := Start(Fresh(service, false), b, faults, setups);
      var es := StreamConsumeEndpoints(r.conn.endpoints);
      && |es| == |Registrations(setups, service)|
      && ((forall k :: 0 <= k < |es| ==> Served(es[k], r.conn.consumers))
          <==> NoStreamsCollide(Registrations(setups, service)))
  {
    var r := Start(Fresh(service, false), b, faults, setups);
    SuccessfulStart(service, b, faults, setups);
    EndpointsDescribeRegistrations(setups, service);
    assert r.conn.endpoints == EndpointsOf(setups, service);
    var cfgs, d := Registrations(setups, service), ConsumerDefaultsAfter(setups, NO_CONSUMER_DEFAULTS);
    FaithfulExactly(cfgs, service, d, StreamConsumeEndpoints(r.conn.endpoints));
  }

  lemma FaithfulExactly(cfgs: Configs, service: string, d: ConsumerDefaults, es: seq<Endpoint>)
    requires service != "" && |es| == |cfgs|
    requires forall i :: 0 <= i < |es| ==> Describes(es[i], cfgs[i]) && NamedBy(cfgs[i], service)
    ensures (forall k :: 0 <= k < |es| ==> Served(es[k], ConsumersOf(cfgs, d))) <==> NoStreamsCollide(cfgs)
  {
    var consumers := ConsumersOf(cfgs, d);
    if NoStreamsCollide(cfgs) {
      forall k | 0 <= k < |es| ensures Served(es[k], consumers) {
        RegistrationServed(cfgs, service, d, k, es[k]);
      }
    }
    if forall k :: 0 <= k < |es| ==> Served(es[k], consumers) {
      forall i, j | 0 <= i < |cfgs| && 0 <= j < |cfgs| && GroupKey(cfgs[i]) == GroupKey(cfgs[j])
        ensures cfgs[i].stream == cfgs[j].stream
      {
        assert Served(es[i], consumers) && Served(es[j], consumers);
        var gi :| 0 <= gi < |consumers| && ServedBy(es[i], consumers[gi]);
        var gj :| 0 <= gj < |consumers| && ServedBy(es[j], consumers[gj]);
        ServerIsOwnGroup(cfgs, d, i, es[i], gi);
        ServerIsOwnGroup(cfgs, d, j, es[j], gj);
        OrderDistinct(cfgs, gi, gj);
      }
    }
  }

  lemma FirstOfTwo(a: ConsumerConfig, b: ConsumerConfig)
    requires GroupKey(a) == GroupKey(b)
    ensures Members([a, b], GroupKey(a)) == [a, b]
  {
    assert [a, b][..1] == [a] && [a][..0] == [];
    assert Members([a], GroupKey(a)) == [] + [a];
  }

  lemma CollidingIsUnserved(a: ConsumerConfig, b: ConsumerConfig, e: Endpoint, d: ConsumerDefaults)
    requires GroupKey(a) == GroupKey(b) && a.stream != b.stream && Describes(e, b)
    ensures !Served(e, ConsumersOf([a, b], d))
  {
    if i :| 0 <= i < |ConsumersOf([a, b], d)| && ServedBy(e, ConsumersOf([a, b], d)[i]) {
      ServerIsOwnGroup([a, b], d, 1, e, i);
      FirstOfTwo(a, b);
      assert false;
    }
  }

  lemma SecondIsUnserved(service: string, bs: BrokerState, setups: seq<Setup>, a: ConsumerConfig, b: ConsumerConfig)
    requires ValidSetups(setups)
    requires Registrations(setups, service) == [a, b] && GroupKey(a) == GroupKey(b) && a.stream != b.stream
    ensures var r := Start(Fresh(service, false), bs, {}, setups);
      var es := StreamConsumeEndpoints(r.conn.endpoints);
      r.err.None? && |es| == 2 && es[1].exchangeName == b.stream && !Served(es[1], r.conn.consumers)
  {
    ValidStarts(service, bs, setups);
    SuccessfulStart(service, bs, {}, setups);
    EndpointsDescribeRegistrations(setups, service);
    AfterFresh(service, setups);
    CollidingIsUnserved(a, b, StreamConsumeEndpoints(EndpointsOf(setups, service))[1],
                        ConsumerDefaultsAfter(setups, NO_CONSUMER_DEFAULTS));
  }

  /** A durable consumer on stream "a" and an ephemeral one on stream "a:x". */
  function CollidingSetups(g: Handler, h: Handler): seq<Setup> {
    [StreamConsumer("a", "k", false, g, "T", []), StreamConsumer("a:x", "k", true, h, "T", [])]
  }

  lemma CollidingRegistrations(g: Handler, h: Handler)
    ensures Registrations(CollidingSetups(g, h), "x:")
      == [ConfigFor("a", "k", false, g, "x:", []), ConfigFor("a:x", "k", true, h, "x:", [])]
  {
    KeepsOtherNames("a");
    KeepsOtherNames("a:x");
    RegistrationsOfTwo(CollidingSetups(g, h)[0], CollidingSetups(g, h)[1], "x:");
  }

  lemma CollidingIsValid(g: Handler, h: Handler)
    ensures ValidSetups(CollidingSetups(g, h))
  {
    assert ValidOptions([]);
  }

  /** A collision at work: on service "x:" a fault-free Start succeeds and lists both
      consumers, and nothing serves the second. */
  lemma CollidingStreamIsUnserved(b: BrokerState, g: Handler, h: Handler)
    ensures var r := Start(Fresh("x:", false), b, {}, CollidingSetups(g, h));
      var es := StreamConsumeEndpoints(r.conn.endpoints);
      r.err.None? && |es| == 2 && es[1].exchangeName == "a:x" && !Served(es[1], r.conn.consumers)
  {
    CollidingRegistrations(g, h);
    CollidingIsValid(g, h);
    SecondIsUnserved("x:", b, CollidingSetups(g, h), ConfigFor("a", "k", false, g, "x:", []),
                     ConfigFor("a:x", "k", true, h, "x:", []));
  }

  // ---- publishers after a Start -------------------------------------------------------

  predicate Wires(s: Setup, p: Publisher) { HasPublisher(s) && s.publisher == p }

  predicate WiredSomewhere(setups: seq<Setup>, p: Publisher) {
    exists i :: 0 <= i < |setups| && Wires(setups[i], p)
  }

  predicate WiredToService(setups: seq<Setup>, p: Publisher) {
    exists i :: 0 <= i < |setups| && Wires(setups[i], p) && setups[i].ServicePublisher?
  }

  lemma WiredSomewhereSnoc(setups: seq<Setup>, p: Publisher)
    requires setups != []
    ensures WiredSomewhere(setups, p)
      <==> WiredSomewhere(setups[..|setups| - 1], p) || Wires(setups[|setups| - 1], p)
  {
    var n := |setups| - 1;
    if i :| 0 <= i < n && Wires(setups[..n][i], p) {
      assert Wires(setups[i], p);
    }
    if i :| 0 <= i < |setups| && Wires(setups[i], p) {
      assert i < n ==> Wires(setups[..n][i], p);
    }
  }

  lemma WiredByOne(s: Setup, p: Publisher, ps: PublisherState, service: string, collect: bool, timeout: int)
    requires ps == NEW_PUBLISHER || Wired(ps)
    ensures var after := WireOne(s, p, ps, service, collect, timeout);
      if Wires(s, p) then Wired(after) && after.serviceName == service && (!collect ==> after.transport.Some?)
      else after == ps
  {
  }

  /** After any setups that mention it, a new publisher carries the connection's service
      name in field and header; without any, it is unchanged. */
  lemma {:induction false} PublisherWired(setups: seq<Setup>, p: Publisher, service: string, collect: bool,
                                          timeout: int)
    ensures var ps := WireAll(setups, p, NEW_PUBLISHER, service, collect, timeout);
      if WiredSomewhere(setups, p) then
        Wired(ps) && ps.serviceName == service && (!collect ==> ps.transport.Some?)
      else ps == NEW_PUBLISHER
  {
    if setups != [] {
      var n := |setups| - 1;
      PublisherWired(setups[..n], p, service, collect, timeout);
      WiredSomewhereSnoc(setups, p);
      WiredByOne(setups[n], p, WireAll(setups[..n], p, NEW_PUBLISHER, service, collect, timeout), service, collect,
                 TimeoutAfter(setups[..n], timeout));
    }
  }

  lemma {:induction false} TargetIsNeverCleared(setups: seq<Setup>, p: Publisher, service: string, collect: bool,
                                                timeout: int)
    ensures WireAll(setups, p, NEW_PUBLISHER, service, collect, timeout).target.Some? <==> WiredToService(setups, p)
  {
    if setups != [] {
      var n := |setups| - 1;
      TargetIsNeverCleared(setups[..n], p, service, collect, timeout);
      if WiredToService(setups[..n], p) {
        var i :| 0 <= i < n && Wires(setups[..n][i], p) && setups[..n][i].ServicePublisher?;
        assert Wires(setups[i], p) && setups[i].ServicePublisher?;
      } else if !(Wires(setups[n], p) && setups[n].ServicePublisher?) {
        assert forall i :: 0 <= i < n ==> setups[..n][i] == setups[i];
        assert !WiredToService(setups, p);
      }
    }
  }

  /** Re-wiring does not reset the subject: a publisher whose last setup is a stream
      publishes to that stream exactly when it was never wired to a service before. */
  lemma StreamSubjectExactly(before: seq<Setup>, stream: string, p: Publisher, service: string, timeout: int,
                             key: string)
    requires DotFree(StreamName(stream))
    ensures var ps := WireAll(before + [StreamPublisher(stream, p)], p, NEW_PUBLISHER, service, false, timeout);
      && ps.stream == StreamName(stream)
      && (SubjectOf(ps, key) == SubjectName(StreamName(stream), key) <==> !WiredToService(before, p))
  {
    var s := StreamPublisher(stream, p);
    var all := before + [s];
    assert all[..|before|] == before && all[|before|] == s;
    TargetIsNeverCleared(before, p, service, false, timeout);
    var ps := WireAll(all, p, NEW_PUBLISHER, service, false, timeout);
    if ps.target.Some? {
      RequestSubjectHasTwoDots(ps.target.value, key, StreamName(stream));
    }
  }

  lemma RequestSubjectHasTwoDots(target: string, key: string, stream: string)
    requires DotFree(stream)
    ensures ServiceRequestSubject(target, key) != SubjectName(stream, key)
  {
    var a, b := ServiceRequestSubject(target, key), SubjectName(stream, key);
    if |a| == |b| {
      assert a[|target|] == '.';
      assert |stream| == |target| + 8;
      assert b[|target|] == stream[|target|];
    }
  }
}
