/** From Start to settled messages: what holds of a service as a whole. */
module EndToEnd {
  import opened Words
  import opened Naming
  import opened Handlers
  import opened RoutingKeyHandlers
  import opened ConsumerGroups
  import opened GroupMeaning
  import opened Brokers
  import opened Publishers
  import opened Setups
  import opened Startup
  import opened Topology
  import opened Delivery
  import opened DeliveryInvariants
  import opened DeliveryRuns

  /** Registrations on plain streams with plain patterns, no two streams colliding. */
  predicate PlainRegistrations(cfgs: Configs) {
    && NoStreamsCollide(cfgs)
    && forall i :: 0 <= i < |cfgs| ==> PlainStream(cfgs[i].stream) && PlainPattern(cfgs[i].routingKey)
  }

  /** The consumers behind plain core subscriptions.  Request-response subscriptions answer
      on their own and move no counters; RequestResponse is about those. */
  function CoresOf(service: string, subs: seq<Subscription>): (r: seq<CoreConsumer>)
    ensures forall i :: 0 <= i < |r| ==> r[i].name == service && r[i].routingKey in r[i].handlers
  {
    if subs == [] then []
    else
      var rest, sub := CoresOf(service, subs[..|subs| - 1]), subs[|subs| - 1];
      if sub.replies then rest
      else rest + [CoreConsumer(service, sub.routingKey, map[sub.routingKey := sub.handler])]
  }

  /** Everything a started connection runs. */
  function Running(c: ConnState, reading: HashReading, mapper: string -> string): Setting {
    Setting(reading, mapper, c.consumers, CoresOf(c.serviceName, c.subscriptions))
  }

  /** The groups of plain registrations are plain groups. */
  lemma GroupsArePlain(cfgs: Configs, i: nat)
    requires PlainRegistrations(cfgs) && i < |Groups(cfgs)|
    ensures PlainGroup(Groups(cfgs)[i])
  {
    var group := Groups(cfgs)[i];
    StablePartition(cfgs);
    MembersShareKey(cfgs, Order(cfgs)[i]);
    forall m | 0 <= m < |group|
      ensures group[m].stream == group[0].stream && PlainPattern(group[m].routingKey) && PlainStream(group[m].stream)
    {
      assert group[m] in cfgs && group[0] in cfgs;
      var k :| 0 <= k < |cfgs| && cfgs[k] == group[m];
      var k0 :| 0 <= k0 < |cfgs| && cfgs[k0] == group[0];
      assert GroupKey(cfgs[k]) == GroupKey(cfgs[k0]);
    }
  }

  lemma CapturingWords(stream: string, words: seq<string>)
    requires PlainStream(stream) && TokensMatch([stream, ">"], words)
    ensures |words| > 1 && words[0] == stream
  {
    assert [stream, ">"][1..] == [">"];
    assert TokensMatch([">"], words[1..]);
  }

  lemma StreamSubjectWords(stream: string)
    requires DotFree(stream)
    ensures Split(StreamSubjects(stream)) == [stream, ">"]
  {
    assert StreamSubjects(stream) == stream + [DOT] + ">";
    SplitPrefix(stream, ">");
    assert Split(">") == [">"];
  }

  /** A subject captured by a plain stream was published to it under some key. */
  lemma CapturedIsPublished(stream: string, subject: string) returns (key: string)
    requires PlainStream(stream) && SubjectMatches(StreamSubjects(stream), subject)
    ensures subject == SubjectName(stream, key)
  {
    StreamSubjectWords(stream);
    CapturingWords(stream, Split(subject));
    var i := IndexOf(subject, DOT);
    key := subject[i + 1..];
    CutAt(subject, i);
  }

  /** After a successful Start on plain registrations no branch without a handler remains:
      whatever the broker may hand to any started consumer, it finds a handler. */
  lemma StartedIsCovered(service: string, b: BrokerState, faults: Faults, setups: seq<Setup>,
                         reading: HashReading, mapper: string -> string)
    requires Start(Fresh(service, false), b, faults, setups).err.None?
    requires PlainRegistrations(Registrations(setups, service))
    ensures Covered(Running(Start(Fresh(service, false), b, faults, setups).conn, reading, mapper))
  {
    SuccessfulStart(service, b, faults, setups);
    var cfgs, d := Registrations(setups, service), ConsumerDefaultsAfter(setups, NO_CONSUMER_DEFAULTS);
    var S := Running(Start(Fresh(service, false), b, faults, setups).conn, reading, mapper);
    forall i, subject | 0 <= i < |S.consumers| && ServerDelivers(S.consumers[i], subject)
      ensures Routable(S.consumers[i].handlers, RoutingKeyOf(subject), reading)
    {
      GroupsArePlain(cfgs, i);
      var key := CapturedIsPublished(S.consumers[i].stream, subject);
      DeliveredIsRoutable(Groups(cfgs)[i], d, S.consumers[i].stream, key, reading);
    }
    forall i | 0 <= i < |S.cores|
      ensures Routable(S.cores[i].handlers, S.cores[i].routingKey, reading)
    {
      SelfMatch(S.cores[i].routingKey, reading);
      assert S.cores[i].routingKey in S.cores[i].handlers;
    }
  }

  predicate SomeConsumerReached(consumers: seq<JsConsumer>, subject: string) {
    exists i :: 0 <= i < |consumers| && ServerDelivers(consumers[i], subject)
  }

  predicate SomeRegistrationMatches(cfgs: Configs, from: string, key: string) {
    exists k :: 0 <= k < |cfgs| && cfgs[k].stream == from && MatchRoutingKey(cfgs[k].routingKey, key, OneOrMore)
  }

  lemma ReachedExactly(cfgs: Configs, d: ConsumerDefaults, from: string, key: string)
    requires PlainRegistrations(cfgs) && PlainStream(from)
    ensures SomeConsumerReached(ConsumersOf(cfgs, d), SubjectName(from, key))
      <==> SomeRegistrationMatches(cfgs, from, key)
  {
    var consumers := ConsumersOf(cfgs, d);
    if k :| 0 <= k < |cfgs| && cfgs[k].stream == from && MatchRoutingKey(cfgs[k].routingKey, key, OneOrMore) {
      var i := RegistrationReached(cfgs, d, from, key, k);
      assert ServerDelivers(consumers[i], SubjectName(from, key));
    }
    if i :| 0 <= i < |consumers| && ServerDelivers(consumers[i], SubjectName(from, key)) {
      var k := ReachedRegistration(cfgs, d, from, key, i);
    }
  }

  /** End-to-end routing after a successful Start: a message published to `from` under
      `key` reaches a started consumer exactly when some registration on that stream has a
      pattern that matches the key.  (CapturedByOwnStreamOnly says which stream captures
      it, KeyRoundTrip that the consumer sees the published key.) */
  lemma RoutedExactly(service: string, b: BrokerState, faults: Faults, setups: seq<Setup>, from: string, key: string)
    requires Start(Fresh(service, false), b, faults, setups).err.None?
    requires PlainRegistrations(Registrations(setups, service)) && PlainStream(from)
    ensures SomeConsumerReached(Start(Fresh(service, false), b, faults, setups).conn.consumers, SubjectName(from, key))
      <==> SomeRegistrationMatches(Registrations(setups, service), from, key)
  {
    SuccessfulStart(service, b, faults, setups);
    ReachedExactly(Registrations(setups, service), ConsumerDefaultsAfter(setups, NO_CONSUMER_DEFAULTS), from, key);
  }

  lemma RegistrationReached(cfgs: Configs, d: ConsumerDefaults, from: string, key: string, k: nat) returns (i: nat)
    requires PlainRegistrations(cfgs) && PlainStream(from)
    requires k < |cfgs| && cfgs[k].stream == from && MatchRoutingKey(cfgs[k].routingKey, key, OneOrMore)
    ensures i < |ConsumersOf(cfgs, d)| && cfgs[k] in Groups(cfgs)[i]
    ensures ServerDelivers(ConsumersOf(cfgs, d)[i], SubjectName(from, key))
  {
    i := GroupOf(cfgs, k);
    GroupsArePlain(cfgs, i);
    var group := Groups(cfgs)[i];
    var m :| 0 <= m < |group| && group[m] == cfgs[k];
    DeliversExactly(group, d, from, key);
    assert MatchRoutingKey(group[m].routingKey, key, OneOrMore);
  }

  lemma ReachedRegistration(cfgs: Configs, d: ConsumerDefaults, from: string, key: string, i: nat) returns (k: nat)
    requires PlainRegistrations(cfgs) && PlainStream(from)
    requires i < |ConsumersOf(cfgs, d)| && ServerDelivers(ConsumersOf(cfgs, d)[i], SubjectName(from, key))
    ensures k < |cfgs| && cfgs[k].stream == from && MatchRoutingKey(cfgs[k].routingKey, key, OneOrMore)
  {
    var group := Groups(cfgs)[i];
    GroupsArePlain(cfgs, i);
    DeliversExactly(group, d, from, key);
    MembersShareKey(cfgs, Order(cfgs)[i]);
    var m :| 0 <= m < |group| && MatchRoutingKey(group[m].routingKey, key, OneOrMore);
    assert group[m] in cfgs;
    k :| 0 <= k < |cfgs| && cfgs[k] == group[m];
  }

  /** Whatever a started consumer calls for a message belongs to a registration on the
      message's stream whose pattern matches the key, for every map iteration order. */
  lemma CalledIsRegistered(cfgs: Configs, d: ConsumerDefaults, i: nat, from: string, key: string,
                           reading: HashReading, h: Handler)
    returns (k: nat)
    requires PlainRegistrations(cfgs) && PlainStream(from)
    requires i < |ConsumersOf(cfgs, d)| && ServerDelivers(ConsumersOf(cfgs, d)[i], SubjectName(from, key))
    requires CanServe(ConsumersOf(cfgs, d)[i].handlers, key, h, reading)
    ensures k < |cfgs| && cfgs[k].stream == from && cfgs[k].handler == h
    ensures MatchRoutingKey(cfgs[k].routingKey, key, reading)
  {
    var group := Groups(cfgs)[i];
    GroupsArePlain(cfgs, i);
    DeliversExactly(group, d, from, key);
    MembersShareKey(cfgs, Order(cfgs)[i]);
    var p :| p in HandlersOf(group) && MatchRoutingKey(p, key, reading) && HandlersOf(group)[p] == h;
    var m := MappedMember(group, p);
    assert group[m] in cfgs;
    k :| 0 <= k < |cfgs| && cfgs[k] == group[m];
  }

  lemma MappedMember(group: Configs, p: string) returns (m: nat)
    requires p in HandlersOf(group)
    ensures m < |group| && group[m].routingKey == p && HandlersOf(group)[p] == group[m].handler
  {
    var n := |group| - 1;
    if group[n].routingKey == p {
      m := n;
    } else {
      m := MappedMember(group[..n], p);
    }
  }

  /** A started service loses nothing silently: in every run of whatever it started, a
      message that is gone was handled by a registered handler that returned nil, failed
      for good with a parse or missing-type error, or used up its group's attempts. */
  lemma StartedServiceLosesNothing(service: string, b: BrokerState, faults: Faults, setups: seq<Setup>,
                                   reading: HashReading, mapper: string -> string,
                                   s: State, acts: seq<Action>, e: nat)
    requires Start(Fresh(service, false), b, faults, setups).err.None?
    requires PlainRegistrations(Registrations(setups, service))
    requires Initial(s)
    requires Run(Running(Start(Fresh(service, false), b, faults, setups).conn, reading, mapper), s, acts).Some?
    requires
      var S := Running(Start(Fresh(service, false), b, faults, setups).conn, reading, mapper);
      var t := Run(S, s, acts).value;
      e < |t.entries| && t.entries[e].gone
    ensures var S := Running(Start(Fresh(service, false), b, faults, setups).conn, reading, mapper);
      var t := Run(S, s, acts).value;
      t.entries[e].consumer < |S.consumers| && AccountedFor(S, t, e)
  {
    StartedIsCovered(service, b, faults, setups, reading, mapper);
    NoSilentLoss(Running(Start(Fresh(service, false), b, faults, setups).conn, reading, mapper), s, acts, e);
  }

  /** A positive wish of the registration, else a positive default, else no limit. */
  function LimitFrom(own: int, default: int): (limit: nat)
    ensures own > 0 ==> limit == own
    ensures own <= 0 < default ==> limit == default
    ensures own <= 0 && default <= 0 ==> limit == 0
  {
    if own > 0 then own else if default > 0 then default else 0
  }

  /** The limit that bounds redelivery is the first registration's of the group, else the
      last connection default. */
  lemma StartedLimit(service: string, b: BrokerState, faults: Faults, setups: seq<Setup>, i: nat)
    requires Start(Fresh(service, false), b, faults, setups).err.None?
    requires i < |Start(Fresh(service, false), b, faults, setups).conn.consumers|
    ensures i < |Groups(Registrations(setups, service))| && Groups(Registrations(setups, service))[i] != []
    ensures Start(Fresh(service, false), b, faults, setups).conn.consumers[i].config.maxDeliver
      == LimitFrom(Groups(Registrations(setups, service))[i][0].maxDeliver,
                   ConsumerDefaultsAfter(setups, NO_CONSUMER_DEFAULTS).maxDeliver)
  {
    SuccessfulStart(service, b, faults, setups);
  }

  /** Publisher to handler: a publisher whose last setup is a stream, and which was never
      wired to a service, publishes keys that every delivery of the message carries
      unchanged, in any run of any consumers. */
  lemma PublishedKeyIsDelivered(before: seq<Setup>, stream: string, p: Publisher, service: string, timeout: int,
                                key: string, S: Setting, s: State, acts: seq<Action>, d: nat)
    requires DotFree(StreamName(stream)) && !WiredToService(before, p)
    requires Initial(s) && Run(S, s, acts).Some?
    requires d < |Run(S, s, acts).value.deliveries| && Run(S, s, acts).value.deliveries[d].source.Stream?
    requires
      var t := Run(S, s, acts).value;
      var ps := WireAll(before + [StreamPublisher(stream, p)], p, NEW_PUBLISHER, service, false, timeout);
      t.deliveries[d].source.entry < |t.entries|
      && t.entries[t.deliveries[d].source.entry].subject == SubjectOf(ps, key)
    ensures Run(S, s, acts).value.deliveries[d].key == key
  {
    RunKeepsInvariant(S, s, acts);
    var t := Run(S, s, acts).value;
    assert DeliveryOk(S, t, t.deliveries[d]);
    StreamSubjectExactly(before, stream, p, service, timeout, key);
    KeyRoundTrip(StreamName(stream), key);
  }
}
