/** What a Start does, independent of its steps: the final state in closed form, when it
    fails and how far it got, and that collecting the topology simulates it. */
module Startup {
  import opened Wrappers
  import opened Naming
  import opened ConsumerConfigs
  import opened ConsumerGroups
  import opened Brokers
  import opened Setups

  // ---- what a list of setups says, read off without running it -----------------------

  function RegistrationOf(s: Setup, service: string): Configs {
    match s
    case StreamConsumer(stream, key, ephemeral, h, _, opts) =>
      [ConfigFor(StreamName(stream), key, ephemeral, h, service, opts)]
    case _ => []
  }

  function Registrations(setups: seq<Setup>, service: string): Configs {
    if setups == [] then []
    else Registrations(setups[..|setups| - 1], service) + RegistrationOf(setups[|setups| - 1], service)
  }

  function EndpointsOf(setups: seq<Setup>, service: string): seq<Endpoint> {
    if setups == [] then []
    else EndpointsOf(setups[..|setups| - 1], service) + EndpointOf(setups[|setups| - 1], service)
  }

  lemma RegistrationsOfTwo(one: Setup, two: Setup, service: string)
    ensures Registrations([one, two], service) == RegistrationOf(one, service) + RegistrationOf(two, service)
    ensures EndpointsOf([one, two], service) == EndpointOf(one, service) + EndpointOf(two, service)
  {
    assert [one, two][..1] == [one] && [one][..0] == [];
    assert Registrations([one], service) == [] + RegistrationOf(one, service);
    assert EndpointsOf([one], service) == [] + EndpointOf(one, service);
  }

  function SubscriptionOf(s: Setup, service: string): seq<Subscription> {
    match s
    case ServiceRequestConsumer(key, h, _) => [Subscription(ServiceRequestSubject(service, key), key, h, false)]
    case RequestResponseHandler(key, h) => [Subscription(ServiceRequestSubject(service, key), key, h, true)]
    case _ => []
  }

  function SubscriptionsOf(setups: seq<Setup>, service: string): seq<Subscription> {
    if setups == [] then []
    else SubscriptionsOf(setups[..|setups| - 1], service) + SubscriptionOf(setups[|setups| - 1], service)
  }

  function PublishedStreamOf(s: Setup): seq<string> {
    if s.StreamPublisher? then [StreamName(s.stream)] else []
  }

  function PublishedStreams(setups: seq<Setup>): seq<string> {
    if setups == [] then []
    else PublishedStreams(setups[..|setups| - 1]) + PublishedStreamOf(setups[|setups| - 1])
  }

  /** The last WithConsumerDefaults counts. */
  function ConsumerDefaultsAfter(setups: seq<Setup>, initial: ConsumerDefaults): ConsumerDefaults {
    if setups == [] then initial
    else match setups[|setups| - 1]
      case WithConsumerDefaults(d) => d
      case _ => ConsumerDefaultsAfter(setups[..|setups| - 1], initial)
  }

  /** The last WithStreamDefaults counts. */
  function StreamDefaultsAfter(setups: seq<Setup>, initial: StreamLimits): StreamLimits {
    if setups == [] then initial
    else match setups[|setups| - 1]
      case WithStreamDefaults(l) => l
      case _ => StreamDefaultsAfter(setups[..|setups| - 1], initial)
  }

  function OverridesAfter(setups: seq<Setup>, initial: map<string, StreamLimits>): map<string, StreamLimits> {
    if setups == [] then initial
    else
      var rest := OverridesAfter(setups[..|setups| - 1], initial);
      match setups[|setups| - 1]
      case WithStreamConfig(stream, l) => rest[StreamName(stream) := l]
      case _ => rest
  }

  /** What a setup can refuse on its own, without a broker. */
  predicate ValidSetup(s: Setup) {
    match s
    case WithStreamConfig(stream, _) => stream != ""
    case WithRequestTimeout(d) => d > 0
    case StreamConsumer(_, _, _, _, _, opts) => ValidOptions(opts)
    case _ => true
  }

  predicate ValidSetups(setups: seq<Setup>) {
    forall i :: 0 <= i < |setups| ==> ValidSetup(setups[i])
  }

  function After(c: ConnState, setups: seq<Setup>): ConnState {
    c.(subscriptions := c.subscriptions + (if c.collectMode then [] else SubscriptionsOf(setups, c.serviceName)),
       endpoints := c.endpoints + EndpointsOf(setups, c.serviceName),
       pending := c.pending + Registrations(setups, c.serviceName),
       pendingStreams := c.pendingStreams + PublishedStreams(setups),
       streamDefaults := StreamDefaultsAfter(setups, c.streamDefaults),
       streamConfigs := OverridesAfter(setups, c.streamConfigs),
       consumerDefaults := ConsumerDefaultsAfter(setups, c.consumerDefaults),
       requestTimeout := TimeoutAfter(setups, c.requestTimeout))
  }

  /** What one successful setup changes. */
  function Effect(c: ConnState, s: Setup): ConnState {
    c.(subscriptions := c.subscriptions + (if c.collectMode then [] else SubscriptionOf(s, c.serviceName)),
       endpoints := c.endpoints + EndpointOf(s, c.serviceName),
       pending := c.pending + RegistrationOf(s, c.serviceName),
       pendingStreams := c.pendingStreams + PublishedStreamOf(s),
       streamDefaults := if s.WithStreamDefaults? then s.limits else c.streamDefaults,
       streamConfigs :=
         if s.WithStreamConfig? then c.streamConfigs[StreamName(s.stream) := s.limits] else c.streamConfigs,
       consumerDefaults := if s.WithConsumerDefaults? then s.consumerDefaults else c.consumerDefaults,
       requestTimeout := if s.WithRequestTimeout? then s.timeout else c.requestTimeout)
  }

  lemma SetupHasEffect(c: ConnState, b: BrokerState, faults: Faults, s: Setup)
    requires ApplySetup(c, b, faults, s).err.None?
    ensures ApplySetup(c, b, faults, s).conn == Effect(c, s)
  {
    var r, e := ApplySetup(c, b, faults, s).conn, Effect(c, s);
    assert r.subscriptions == e.subscriptions;
    assert r.endpoints == e.endpoints;
    assert r.pending == e.pending;
    assert r.pendingStreams == e.pendingStreams;
  }

  lemma EffectsAddUp(c: ConnState, before: seq<Setup>, s: Setup)
    ensures Effect(After(c, before), s) == After(c, before + [s])
  {
    var all := before + [s];
    assert all[..|before|] == before && all[|before|] == s;
    var e, want := Effect(After(c, before), s), After(c, all);
    assert e.subscriptions == want.subscriptions;
    assert e.endpoints == want.endpoints;
    assert e.pending == want.pending;
    assert e.pendingStreams == want.pendingStreams;
  }

  /** A run of setups leaves exactly what the setups that succeeded describe; the one that
      fails changes nothing on the connection. */
  lemma {:induction false} SetupsOutcome(c: ConnState, b: BrokerState, faults: Faults, setups: seq<Setup>)
    ensures RunSetups(c, b, faults, setups).conn == After(c, setups[..Succeeded(c, b, faults, setups)])
  {
    if setups != [] {
      var n := |setups| - 1;
      var r, next := RunSetups(c, b, faults, setups[..n]), RunSetups(c, b, faults, setups);
      SetupsOutcome(c, b, faults, setups[..n]);
      if r.err.None? {
        assert setups[..n][..n] == setups[..n];
        if next.err.None? {
          SetupHasEffect(r.conn, r.broker, faults, setups[n]);
          EffectsAddUp(c, setups[..n], setups[n]);
          assert setups[..n + 1] == setups[..n] + [setups[n]];
        } else {
          FailedSetupKeeps(r.conn, r.broker, faults, setups[n]);
        }
      } else {
        var k := Succeeded(c, b, faults, setups[..n]);
        assert setups[..n][..k] == setups[..k];
      }
    }
  }

  lemma FailedSetupKeeps(c: ConnState, b: BrokerState, faults: Faults, s: Setup)
    requires ApplySetup(c, b, faults, s).err.Some?
    ensures ApplySetup(c, b, faults, s).conn == c
  {
  }

  /** A run that does not fail leaves what the whole list describes. */
  lemma AllSetupsOutcome(c: ConnState, b: BrokerState, faults: Faults, setups: seq<Setup>)
    requires RunSetups(c, b, faults, setups).err.None?
    ensures RunSetups(c, b, faults, setups).conn == After(c, setups)
  {
    SetupsOutcome(c, b, faults, setups);
    assert setups[..|setups|] == setups;
  }

  /** On a fresh connection the fields simply are what the list describes. */
  lemma AfterFresh(service: string, setups: seq<Setup>)
    ensures var c := After(Fresh(service, false), setups);
      && c.endpoints == EndpointsOf(setups, service)
      && c.pending == Registrations(setups, service)
      && c.subscriptions == SubscriptionsOf(setups, service)
      && c.consumers == [] && !c.started && !c.collectMode && c.serviceName == service
      && c.consumerDefaults == ConsumerDefaultsAfter(setups, NO_CONSUMER_DEFAULTS)
  {
  }

  // ---- collecting simulates starting ---------------------------------------------------

  /** In collect mode setups fail exactly when one of them is invalid, and the broker is
      never called. */
  lemma {:induction false} CollectFailsExactly(c: ConnState, b: BrokerState, faults: Faults, setups: seq<Setup>)
    requires c.collectMode
    ensures RunSetups(c, b, faults, setups).err.None? <==> ValidSetups(setups)
    ensures RunSetups(c, b, faults, setups).broker == b
    ensures RunSetups(c, b, faults, setups).conn.collectMode
  {
    if setups != [] {
      var n := |setups| - 1;
      CollectFailsExactly(c, b, faults, setups[..n]);
      assert forall i :: 0 <= i < n ==> setups[..n][i] == setups[i];
    }
  }

  lemma {:induction false} SuccessIsValid(c: ConnState, b: BrokerState, faults: Faults, setups: seq<Setup>)
    requires RunSetups(c, b, faults, setups).err.None?
    ensures ValidSetups(setups)
  {
    if setups != [] {
      var n := |setups| - 1;
      SuccessIsValid(c, b, faults, setups[..n]);
      assert forall i :: 0 <= i < n ==> setups[..n][i] == setups[i];
    }
  }

  lemma {:induction false} ValidSucceedsWithoutFaults(c: ConnState, b: BrokerState, setups: seq<Setup>)
    requires ValidSetups(setups)
    ensures RunSetups(c, b, {}, setups).err.None?
  {
    if setups != [] {
      var n := |setups| - 1;
      assert forall i :: 0 <= i < n ==> setups[..n][i] == setups[i];
      ValidSucceedsWithoutFaults(c, b, setups[..n]);
    }
  }

  lemma {:induction false} ConsumersSucceedWithoutFaults(c: ConnState, b: BrokerState, plans: seq<JsConsumer>)
    ensures StartConsumers(c, b, {}, plans).err.None?
  {
    if plans != [] {
      ConsumersSucceedWithoutFaults(c, b, plans[..|plans| - 1]);
    }
  }

  /** Valid setups start on a broker without faults. */
  lemma ValidStarts(service: string, b: BrokerState, setups: seq<Setup>)
    requires ValidSetups(setups)
    ensures Start(Fresh(service, false), b, {}, setups).err.None?
  {
    var c, b' := Fresh(service, false), Ticked(Ticked(b));
    ValidSucceedsWithoutFaults(c, b', setups);
    var r := RunSetups(c, b', {}, setups);
    ConsumersSucceedWithoutFaults(r.conn, r.broker, ConsumersOf(r.conn.pending, r.conn.consumerDefaults));
  }

  /** Collect mode simulates Start: whenever Start on a fresh connection succeeds against
      any broker, collecting succeeds with the same endpoints. */
  lemma CollectSimulatesStart(service: string, b: BrokerState, faults: Faults, setups: seq<Setup>, b0: BrokerState)
    requires Start(Fresh(service, false), b, faults, setups).err.None?
    ensures Collect(service, b0, setups).err.None?
    ensures Collect(service, b0, setups).conn.endpoints
      == Start(Fresh(service, false), b, faults, setups).conn.endpoints
    ensures Collect(service, b0, setups).conn.endpoints == EndpointsOf(setups, service)
  {
    var c, b' := Fresh(service, false), Ticked(Ticked(b));
    SuccessIsValid(c, b', faults, setups);
    AllSetupsOutcome(c, b', faults, setups);
    CollectFailsExactly(Fresh(service, true), b0, {}, setups);
    AllSetupsOutcome(Fresh(service, true), b0, {}, setups);
    var r := RunSetups(c, b', faults, setups);
    var i := ConsumersOutcome(r.conn, r.broker, faults, ConsumersOf(r.conn.pending, r.conn.consumerDefaults));
  }

  /** And the other way round: on a broker without faults, Start succeeds exactly when
      collecting does. */
  lemma StartSucceedsExactlyAsCollect(service: string, b: BrokerState, setups: seq<Setup>, b0: BrokerState)
    ensures Start(Fresh(service, false), b, {}, setups).err.None? <==> Collect(service, b0, setups).err.None?
  {
    CollectFailsExactly(Fresh(service, true), b0, {}, setups);
    var c, b' := Fresh(service, false), Ticked(Ticked(b));
    if ValidSetups(setups) {
      ValidStarts(service, b, setups);
    } else if RunSetups(c, b', {}, setups).err.None? {
      SuccessIsValid(c, b', {}, setups);
    }
  }

  // ---- which error, and starting twice ---------------------------------------------------

  /** The error of an invalid setup. */
  predicate RefusedWith(s: Setup, err: ConnError) {
    match s
    case WithStreamConfig(stream, _) => stream == "" && err == EmptyStreamName
    case WithRequestTimeout(d) => d <= 0 && err == NonPositiveTimeout
    case StreamConsumer(_, _, _, _, _, opts) => !ValidOptions(opts) && err == OptionFailed
    case _ => false
  }

  /** A run ends at the first setup that is invalid, with its own error, or at one whose
      broker call fails; the setups before it were valid. */
  lemma {:induction false} FirstErrorIsReported(c: ConnState, b: BrokerState, faults: Faults, setups: seq<Setup>)
    requires RunSetups(c, b, faults, setups).err.Some?
    ensures var k := Succeeded(c, b, faults, setups);
      && k < |setups| && ValidSetups(setups[..k])
      && var err := RunSetups(c, b, faults, setups).err.value;
         if ValidSetup(setups[k]) then !c.collectMode && err == BrokerFailed else RefusedWith(setups[k], err)
  {
    var n := |setups| - 1;
    var r := RunSetups(c, b, faults, setups[..n]);
    if r.err.Some? {
      FirstErrorIsReported(c, b, faults, setups[..n]);
      var k := Succeeded(c, b, faults, setups[..n]);
      assert setups[..n][..k] == setups[..k] && setups[..n][k] == setups[k];
    } else {
      SuccessIsValid(c, b, faults, setups[..n]);
      KeepsCollectMode(c, b, faults, setups[..n]);
      OneSetupError(r.conn, r.broker, faults, setups[n]);
    }
  }

  lemma {:induction false} KeepsCollectMode(c: ConnState, b: BrokerState, faults: Faults, setups: seq<Setup>)
    ensures RunSetups(c, b, faults, setups).conn.collectMode == c.collectMode
  {
    if setups != [] {
      KeepsCollectMode(c, b, faults, setups[..|setups| - 1]);
    }
  }

  lemma OneSetupError(c: ConnState, b: BrokerState, faults: Faults, s: Setup)
    requires ApplySetup(c, b, faults, s).err.Some?
    ensures var err := ApplySetup(c, b, faults, s).err.value;
      if ValidSetup(s) then !c.collectMode && err == BrokerFailed else RefusedWith(s, err)
  {
  }

  /** A connection starts once: after a success every further Start fails, and changes
      nothing on the connection or at the broker. */
  lemma StartsOnce(service: string, b: BrokerState, faults: Faults, setups: seq<Setup>,
                   b2: BrokerState, faults2: Faults, setups2: seq<Setup>)
    requires Start(Fresh(service, false), b, faults, setups).err.None?
    ensures var c := Start(Fresh(service, false), b, faults, setups).conn;
      Start(c, b2, faults2, setups2) == Outcome(c, b2, Some(AlreadyStarted))
  {
    SuccessfulStart(service, b, faults, setups);
  }

  /** Starting in collect mode is collecting, and marks the connection started. */
  lemma StartInCollectMode(service: string, b: BrokerState, faults: Faults, setups: seq<Setup>)
    ensures var r, c := Start(Fresh(service, true), b, faults, setups), Collect(service, b, setups);
      && r.err == c.err && r.broker == b
      && r.conn.endpoints == c.conn.endpoints && r.conn.started == r.err.None?
  {
    CollectSameCourse(Fresh(service, true), b, faults, setups);
  }

  lemma {:induction false} CollectSameCourse(c: ConnState, b: BrokerState, faults: Faults, setups: seq<Setup>)
    requires c.collectMode
    ensures RunSetups(c, b, faults, setups) == RunSetups(c, b, {}, setups)
    ensures RunSetups(c, b, faults, setups).broker == b
    ensures RunSetups(c, b, faults, setups).conn.collectMode
    ensures RunSetups(c, b, faults, setups).conn.started == c.started
  {
    if setups != [] {
      CollectSameCourse(c, b, faults, setups[..|setups| - 1]);
    }
  }

  // ---- the last option counts -----------------------------------------------------------

  /** No option of the kind of setup `i` stands behind it. */
  predicate LastOption(setups: seq<Setup>, i: nat)
    requires i < |setups|
  {
    forall j :: i < j < |setups| ==>
      && (setups[i].WithConsumerDefaults? ==> !setups[j].WithConsumerDefaults?)
      && (setups[i].WithStreamDefaults? ==> !setups[j].WithStreamDefaults?)
      && (setups[i].WithRequestTimeout? ==> !setups[j].WithRequestTimeout?)
      && (setups[i].WithStreamConfig? && setups[j].WithStreamConfig? ==>
            StreamName(setups[i].stream) != StreamName(setups[j].stream))
  }

  lemma {:induction false} LastOptionCounts(c: ConnState, setups: seq<Setup>, i: nat)
    requires i < |setups| && LastOption(setups, i)
    ensures var after := After(c, setups);
      match setups[i]
      case WithConsumerDefaults(d) => after.consumerDefaults == d
      case WithStreamDefaults(l) => after.streamDefaults == l
      case WithRequestTimeout(t) => after.requestTimeout == t
      case WithStreamConfig(stream, l) =>
        StreamName(stream) in after.streamConfigs && after.streamConfigs[StreamName(stream)] == l
      case _ => true
  {
    var n := |setups| - 1;
    if i < n {
      assert setups[..n][i] == setups[i];
      assert forall j :: 0 <= j < n ==> setups[..n][j] == setups[j];
      LastOptionCounts(c, setups[..n], i);
    }
  }

  // ---- how far starting the consumers gets -------------------------------------------------

  function CreatedFor(plans: seq<JsConsumer>): (r: seq<CreatedConsumer>)
    ensures |r| == |plans|
    ensures forall i :: 0 <= i < |plans| ==> r[i] == CreatedConsumer(plans[i].stream, plans[i].config)
  {
    seq(|plans|, i requires 0 <= i < |plans| => CreatedConsumer(plans[i].stream, plans[i].config))
  }

  lemma CreatedSnoc(plans: seq<JsConsumer>, plan: JsConsumer)
    ensures CreatedFor(plans + [plan]) == CreatedFor(plans) + [CreatedConsumer(plan.stream, plan.config)]
  {
  }

  /** One consumer: a handle exactly on success, and at the broker at least then. */
  lemma ConsumerOutcome(c: ConnState, b: BrokerState, faults: Faults, plan: JsConsumer)
    ensures var r, created := StartConsumer(c, b, faults, plan), CreatedConsumer(plan.stream, plan.config);
      && r.conn == (if r.err.None? then c.(consumers := c.consumers + [plan]) else c)
      && (r.broker.consumers == b.consumers + [created] || (r.err.Some? && r.broker.consumers == b.consumers))
  {
  }

  /** Of `plans`, exactly the first `i` got a handle, and the broker holds consumers for
      those and, when a failure came after creation, for the next one. */
  predicate Reached(c: ConnState, b: BrokerState, r: Outcome, plans: seq<JsConsumer>, i: nat) {
    && i <= |plans|
    && (r.err.None? <==> i == |plans|)
    && r.conn == c.(consumers := c.consumers + plans[..i])
    && (|| r.broker.consumers == b.consumers + CreatedFor(plans[..i])
        || (i < |plans| && r.broker.consumers == b.consumers + CreatedFor(plans[..i + 1])))
  }

  lemma ReachedNext(c: ConnState, b: BrokerState, faults: Faults, r: Outcome, plans: seq<JsConsumer>, plan: JsConsumer)
    requires r.err.None? && Reached(c, b, r, plans, |plans|)
    ensures var next := StartConsumer(r.conn, r.broker, faults, plan);
      Reached(c, b, next, plans + [plan], if next.err.None? then |plans| + 1 else |plans|)
  {
    var all, n := plans + [plan], |plans|;
    ConsumerOutcome(r.conn, r.broker, faults, plan);
    CreatedSnoc(plans, plan);
    assert plans[..n] == plans && all[..n] == plans && all[..n + 1] == all;
  }

  lemma ReachedStays(c: ConnState, b: BrokerState, r: Outcome, plans: seq<JsConsumer>, plan: JsConsumer, i: nat)
    requires r.err.Some? && Reached(c, b, r, plans, i)
    ensures Reached(c, b, r, plans + [plan], i)
  {
    var all := plans + [plan];
    assert all[..i] == plans[..i] && all[..i + 1] == plans[..i + 1];
  }

  /** Consumers start in order and stop at the first failure. */
  lemma {:induction false} ConsumersOutcome(c: ConnState, b: BrokerState, faults: Faults, plans: seq<JsConsumer>)
    returns (i: nat)
    ensures Reached(c, b, StartConsumers(c, b, faults, plans), plans, i)
  {
    if plans == [] {
      i := 0;
    } else {
      var n := |plans| - 1;
      i := ConsumersOutcome(c, b, faults, plans[..n]);
      var r := StartConsumers(c, b, faults, plans[..n]);
      assert plans == plans[..n] + [plans[n]];
      if r.err.Some? {
        ReachedStays(c, b, r, plans[..n], plans[n], i);
      } else {
        ReachedNext(c, b, faults, r, plans[..n], plans[n]);
        i := if StartConsumer(r.conn, r.broker, faults, plans[n]).err.None? then n + 1 else n;
      }
    }
  }

  /** The consumers a list of setups asks for. */
  function PlannedConsumers(setups: seq<Setup>, service: string): seq<JsConsumer> {
    ConsumersOf(Registrations(setups, service), ConsumerDefaultsAfter(setups, NO_CONSUMER_DEFAULTS))
  }

  /** The connection was made and every setup succeeded. */
  predicate SetupsRan(service: string, b: BrokerState, faults: Faults, setups: seq<Setup>) {
    && Works(b, faults) && Works(Ticked(b), faults)
    && RunSetups(Fresh(service, false), Ticked(Ticked(b)), faults, setups).err.None?
  }

  /** Starting what is pending, when it succeeds. */
  lemma PendingStarted(c: ConnState, b: BrokerState, faults: Faults)
    requires StartPending(c, b, faults).err.None?
    ensures var r, plans := StartPending(c, b, faults), ConsumersOf(c.pending, c.consumerDefaults);
      && r.conn == c.(consumers := c.consumers + plans, pending := [])
      && r.broker.consumers == b.consumers + CreatedFor(plans)
  {
    var plans := ConsumersOf(c.pending, c.consumerDefaults);
    var i := ConsumersOutcome(c, b, faults, plans);
    assert plans[..i] == plans;
  }

  /** A successful Start is its setups, then its consumers, then the mark. */
  lemma StartUnfolds(service: string, b: BrokerState, faults: Faults, setups: seq<Setup>)
    requires Start(Fresh(service, false), b, faults, setups).err.None?
    ensures SetupsRan(service, b, faults, setups)
    ensures var s := RunSetups(Fresh(service, false), Ticked(Ticked(b)), faults, setups);
      var p := StartPending(s.conn, s.broker, faults);
      p.err.None? && Start(Fresh(service, false), b, faults, setups) == p.(conn := p.conn.(started := true))
  {
  }

  /** The state a successful Start of a fresh connection ends in. */
  lemma SuccessfulStart(service: string, b: BrokerState, faults: Faults, setups: seq<Setup>)
    requires Start(Fresh(service, false), b, faults, setups).err.None?
    ensures var r, plans := Start(Fresh(service, false), b, faults, setups), PlannedConsumers(setups, service);
      && r.conn == After(Fresh(service, false), setups).(started := true, pending := [], consumers := plans)
      && r.broker.consumers == b.consumers + CreatedFor(plans)
  {
    var c, b' := Fresh(service, false), Ticked(Ticked(b));
    StartUnfolds(service, b, faults, setups);
    var s := RunSetups(c, b', faults, setups);
    AllSetupsOutcome(c, b', faults, setups);
    SetupsCreateNoConsumers(c, b', faults, setups);
    AfterFresh(service, setups);
    PendingStarted(s.conn, s.broker, faults);
    var plans := PlannedConsumers(setups, service);
    assert [] + plans == plans;
  }

  lemma SetupCreatesNoConsumer(c: ConnState, b: BrokerState, faults: Faults, s: Setup)
    ensures ApplySetup(c, b, faults, s).broker.consumers == b.consumers
    ensures ApplySetup(c, b, faults, s).conn.consumers == c.consumers
    ensures ApplySetup(c, b, faults, s).conn.started == c.started
  {
  }

  lemma {:induction false} SetupsCreateNoConsumers(c: ConnState, b: BrokerState, faults: Faults, setups: seq<Setup>)
    ensures RunSetups(c, b, faults, setups).broker.consumers == b.consumers
    ensures RunSetups(c, b, faults, setups).conn.consumers == c.consumers
    ensures RunSetups(c, b, faults, setups).conn.started == c.started
  {
    if setups != [] {
      var r := RunSetups(c, b, faults, setups[..|setups| - 1]);
      SetupsCreateNoConsumers(c, b, faults, setups[..|setups| - 1]);
      SetupCreatesNoConsumer(r.conn, r.broker, faults, setups[|setups| - 1]);
    }
  }

  /** Startup prefix: a failed Start is not started and holds handles for exactly the first
      `i` consumers planned for what it had collected, which stays pending; once all setups
      ran, that is every registration and at least one consumer is missing.  Success means
      one handle per distinct group key and nothing pending. */
  lemma StartupPrefix(service: string, b: BrokerState, faults: Faults, setups: seq<Setup>) returns (i: nat)
    ensures var r := Start(Fresh(service, false), b, faults, setups);
      && (r.err.None? ==> r.conn.started && r.conn.pending == []
                          && |r.conn.consumers| == |Order(Registrations(setups, service))|)
      && (r.err.Some? ==>
            var plans := ConsumersOf(r.conn.pending, r.conn.consumerDefaults);
            && !r.conn.started
            && i <= |plans|
            && r.conn.consumers == plans[..i]
            && (SetupsRan(service, b, faults, setups)
                ==> r.conn.pending == Registrations(setups, service) && i < |plans|))
  {
    i := 0;
    var c, b' := Fresh(service, false), Ticked(Ticked(b));
    var r := Start(c, b, faults, setups);
    var s := RunSetups(c, b', faults, setups);
    SetupsCreateNoConsumers(c, b', faults, setups);
    if r.err.None? {
      SuccessfulStart(service, b, faults, setups);
    } else if SetupsRan(service, b, faults, setups) {
      AllSetupsOutcome(c, b', faults, setups);
      AfterFresh(service, setups);
      i := ConsumersOutcome(s.conn, s.broker, faults, ConsumersOf(s.conn.pending, s.conn.consumerDefaults));
      assert s.conn.consumers == [];
    }
  }

  // ---- order independence -------------------------------------------------------------------

  function OnlyConsumers(setups: seq<Setup>): seq<Setup> {
    if setups == [] then []
    else
      var rest, s := OnlyConsumers(setups[..|setups| - 1]), setups[|setups| - 1];
      if s.StreamConsumer? then rest + [s] else rest
  }

  lemma {:induction false} RegistrationsFromConsumers(setups: seq<Setup>, service: string)
    ensures Registrations(setups, service) == Registrations(OnlyConsumers(setups), service)
  {
    if setups != [] {
      var n := |setups| - 1;
      var rest := OnlyConsumers(setups[..n]);
      RegistrationsFromConsumers(setups[..n], service);
      if setups[n].StreamConsumer? {
        assert (rest + [setups[n]])[..|rest|] == rest;
      }
    }
  }

  /** Order independence: the consumers a successful Start creates depend only on the
      consumer registrations among the setups and the last consumer defaults, whatever
      else is interleaved and whatever the broker. */
  lemma ConsumersIgnoreInterleaving(service: string,
                                    b1: BrokerState, faults1: Faults, setups1: seq<Setup>,
                                    b2: BrokerState, faults2: Faults, setups2: seq<Setup>)
    requires Start(Fresh(service, false), b1, faults1, setups1).err.None?
    requires Start(Fresh(service, false), b2, faults2, setups2).err.None?
    requires OnlyConsumers(setups1) == OnlyConsumers(setups2)
    requires ConsumerDefaultsAfter(setups1, NO_CONSUMER_DEFAULTS)
      == ConsumerDefaultsAfter(setups2, NO_CONSUMER_DEFAULTS)
    ensures
      var r1 := Start(Fresh(service, false), b1, faults1, setups1);
      var r2 := Start(Fresh(service, false), b2, faults2, setups2);
      && r1.conn.consumers == r2.conn.consumers
      && |b1.consumers| <= |r1.broker.consumers| && |b2.consumers| <= |r2.broker.consumers|
      && r1.broker.consumers[|b1.consumers|..] == r2.broker.consumers[|b2.consumers|..]
  {
    SuccessfulStart(service, b1, faults1, setups1);
    SuccessfulStart(service, b2, faults2, setups2);
    RegistrationsFromConsumers(setups1, service);
    RegistrationsFromConsumers(setups2, service);
  }
}
