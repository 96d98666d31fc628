/** Calling Start again after it failed: what the first attempt left behind, and when the
    second is as good as a first. */
module Retries {
  import opened Wrappers
  import opened Naming
  import opened Handlers
  import opened ConsumerConfigs
  import opened ConsumerGroups
  import opened Brokers
  import opened Publishers
  import opened Setups
  import opened Startup

  /** What a failed Start of a fresh connection leaves: the setups that succeeded, and
      handles for the groups that started. */
  lemma FailedStart(service: string, b: BrokerState, faults: Faults, setups: seq<Setup>) returns (i: nat)
    requires Start(Fresh(service, false), b, faults, setups).err.Some?
    ensures var c := Fresh(service, false);
      var done := After(c, setups[..SetupsReached(c, b, faults, setups)]);
      var plans := ConsumersOf(done.pending, done.consumerDefaults);
      i <= |plans| && Start(c, b, faults, setups).conn == done.(consumers := plans[..i])
  {
    i := 0;
    var c, b' := Fresh(service, false), Ticked(Ticked(b));
    if Works(b, faults) && Works(Ticked(b), faults) {
      SetupsOutcome(c, b', faults, setups);
      var s := RunSetups(c, b', faults, setups);
      if s.err.None? {
        i := ConsumersOutcome(s.conn, s.broker, faults, ConsumersOf(s.conn.pending, s.conn.consumerDefaults));
        assert s.conn.consumers == [];
      }
    } else {
      NothingDone(c, setups);
    }
  }

  lemma NothingDone(c: ConnState, setups: seq<Setup>)
    ensures After(c, setups[..0]) == c
  {
    assert c.subscriptions + [] == c.subscriptions && c.endpoints + [] == c.endpoints;
    assert c.pending + [] == c.pending && c.pendingStreams + [] == c.pendingStreams;
  }

  // ---- options can be applied twice ----------------------------------------------------

  lemma {:induction false} ConsumerDefaultsTwice(setups: seq<Setup>, d: ConsumerDefaults)
    ensures ConsumerDefaultsAfter(setups, ConsumerDefaultsAfter(setups, d)) == ConsumerDefaultsAfter(setups, d)
  {
    if setups != [] {
      ConsumerDefaultsTwice(setups[..|setups| - 1], d);
    }
  }

  lemma {:induction false} StreamDefaultsTwice(setups: seq<Setup>, l: StreamLimits)
    ensures StreamDefaultsAfter(setups, StreamDefaultsAfter(setups, l)) == StreamDefaultsAfter(setups, l)
  {
    if setups != [] {
      StreamDefaultsTwice(setups[..|setups| - 1], l);
    }
  }

  lemma {:induction false} TimeoutTwice(setups: seq<Setup>, t: int)
    ensures TimeoutAfter(setups, TimeoutAfter(setups, t)) == TimeoutAfter(setups, t)
  {
    if setups != [] {
      TimeoutTwice(setups[..|setups| - 1], t);
    }
  }

  /** What a stream's override was before does not matter once it is written again. */
  lemma {:induction false} LastOverrideCounts(setups: seq<Setup>, m: map<string, StreamLimits>, name: string,
                                              before: StreamLimits, last: StreamLimits)
    ensures OverridesAfter(setups, m[name := before])[name := last] == OverridesAfter(setups, m)[name := last]
  {
    if setups == [] {
      assert m[name := before][name := last] == m[name := last];
    } else {
      var n := |setups| - 1;
      LastOverrideCounts(setups[..n], m, name, before, last);
      if setups[n].WithStreamConfig? {
        var x, y := OverridesAfter(setups[..n], m[name := before]), OverridesAfter(setups[..n], m);
        OverrideBoth(x, y, name, last, StreamName(setups[n].stream), setups[n].limits);
      }
    }
  }

  lemma OverrideBoth(x: map<string, StreamLimits>, y: map<string, StreamLimits>, name: string, last: StreamLimits,
                     other: string, l: StreamLimits)
    requires x[name := last] == y[name := last]
    ensures x[other := l][name := last] == y[other := l][name := last]
  {
    assert x[name := last][other := l] == y[name := last][other := l];
    if other == name {
      assert x[other := l][name := last] == x[name := last];
      assert y[other := l][name := last] == y[name := last];
    } else {
      assert x[other := l][name := last] == x[name := last][other := l];
      assert y[other := l][name := last] == y[name := last][other := l];
    }
  }

  lemma {:induction false} OverridesTwice(setups: seq<Setup>, m: map<string, StreamLimits>)
    ensures OverridesAfter(setups, OverridesAfter(setups, m)) == OverridesAfter(setups, m)
  {
    if setups != [] {
      var n := |setups| - 1;
      var once := OverridesAfter(setups[..n], m);
      OverridesTwice(setups[..n], m);
      if setups[n].WithStreamConfig? {
        LastOverrideCounts(setups[..n], once, StreamName(setups[n].stream), setups[n].limits, setups[n].limits);
      }
    }
  }

  // ---- setups without endpoints ----------------------------------------------------------

  /** Setups that declare no endpoint register, subscribe and publish nothing, and never
      call the broker. */
  lemma {:induction false} NoEndpointsNothingElse(setups: seq<Setup>, service: string)
    requires EndpointsOf(setups, service) == []
    ensures Registrations(setups, service) == [] && SubscriptionsOf(setups, service) == []
      && PublishedStreams(setups) == []
  {
    if setups != [] {
      NoEndpointsNothingElse(setups[..|setups| - 1], service);
      assert EndpointOf(setups[|setups| - 1], service) == [];
    }
  }

  lemma {:induction false} NoEndpointsNoCalls(c: ConnState, b: BrokerState, faults: Faults, setups: seq<Setup>)
    requires EndpointsOf(setups, c.serviceName) == [] && ValidSetups(setups)
    ensures RunSetups(c, b, faults, setups).err.None? && RunSetups(c, b, faults, setups).broker == b
  {
    if setups != [] {
      var n := |setups| - 1;
      assert forall i :: 0 <= i < n ==> setups[..n][i] == setups[i];
      NoEndpointsNoCalls(c, b, faults, setups[..n]);
      assert EndpointOf(setups[n], c.serviceName) == [];
    }
  }

  lemma AppliedTwice(c: ConnState, setups: seq<Setup>)
    requires EndpointsOf(setups, c.serviceName) == []
    ensures After(After(c, setups), setups) == After(c, setups)
  {
    NoEndpointsNothingElse(setups, c.serviceName);
    ConsumerDefaultsTwice(setups, c.consumerDefaults);
    StreamDefaultsTwice(setups, c.streamDefaults);
    OverridesTwice(setups, c.streamConfigs);
    TimeoutTwice(setups, c.requestTimeout);
    var once := After(c, setups);
    NothingDone(once, setups);
  }

  lemma {:induction false} ReachedSetupsAreValid(c: ConnState, b: BrokerState, faults: Faults, setups: seq<Setup>)
    ensures ValidSetups(setups[..Succeeded(c, b, faults, setups)])
  {
    if setups != [] {
      var n, k := |setups| - 1, Succeeded(c, b, faults, setups);
      ReachedSetupsAreValid(c, b, faults, setups[..n]);
      if RunSetups(c, b, faults, setups).err.None? {
        SuccessIsValid(c, b, faults, setups);
        assert setups[..k] == setups;
      } else {
        assert setups[..n][..k] == setups[..k];
      }
    }
  }

  // ---- the second attempt -------------------------------------------------------------------

  /** Behind a prefix after which both stand alike, two runs stay alike. */
  lemma {:induction false} RunsMerge(c: ConnState, d: ConnState, b: BrokerState, faults: Faults, setups: seq<Setup>,
                                     k: nat)
    requires k <= |setups|
    requires RunSetups(c, b, faults, setups[..k]) == RunSetups(d, b, faults, setups[..k])
    ensures RunSetups(c, b, faults, setups) == RunSetups(d, b, faults, setups)
  {
    if k == |setups| {
      assert setups[..k] == setups;
    } else {
      var n := |setups| - 1;
      assert setups[..n][..k] == setups[..k];
      RunsMerge(c, d, b, faults, setups[..n], k);
    }
  }

  /** Which calls a setup makes and whether it fails does not depend on what the connection
      has collected. */
  lemma SameCourseOne(c: ConnState, d: ConnState, b: BrokerState, e: BrokerState, faults: Faults, s: Setup)
    requires c.collectMode == d.collectMode && b.calls == e.calls
    ensures ApplySetup(c, b, faults, s).err == ApplySetup(d, e, faults, s).err
    ensures ApplySetup(c, b, faults, s).broker.calls == ApplySetup(d, e, faults, s).broker.calls
    ensures ApplySetup(c, b, faults, s).conn.collectMode == c.collectMode
  {
  }

  lemma {:induction false} SameCourse(c: ConnState, d: ConnState, b: BrokerState, faults: Faults, setups: seq<Setup>)
    requires c.collectMode == d.collectMode
    ensures var x, y := RunSetups(c, b, faults, setups), RunSetups(d, b, faults, setups);
      x.err == y.err && x.broker.calls == y.broker.calls && x.conn.collectMode == y.conn.collectMode
    ensures Succeeded(c, b, faults, setups) == Succeeded(d, b, faults, setups)
  {
    if setups != [] {
      var n := |setups| - 1;
      SameCourse(c, d, b, faults, setups[..n]);
      var x, y := RunSetups(c, b, faults, setups[..n]), RunSetups(d, b, faults, setups[..n]);
      if x.err.None? {
        SameCourseOne(x.conn, y.conn, x.broker, y.broker, faults, setups[n]);
        SameCourseOne(y.conn, x.conn, y.broker, x.broker, faults, setups[n]);
      }
    }
  }

  /** However far a Start gets, it adds the endpoints of the setups that succeeded. */
  lemma StartAddsEndpoints(c: ConnState, b: BrokerState, faults: Faults, setups: seq<Setup>)
    requires !c.started && !c.collectMode
    ensures Start(c, b, faults, setups).conn.endpoints
      == c.endpoints + EndpointsOf(setups[..SetupsReached(c, b, faults, setups)], c.serviceName)
  {
    if Works(b, faults) && Works(Ticked(b), faults) {
      var b' := Ticked(Ticked(b));
      SetupsOutcome(c, b', faults, setups);
      var s := RunSetups(c, b', faults, setups);
      if s.err.None? {
        var i := ConsumersOutcome(s.conn, s.broker, faults, ConsumersOf(s.conn.pending, s.conn.consumerDefaults));
      }
    } else {
      NothingDone(c, setups);
    }
  }

  lemma NoPendingNoConsumers(defaults: ConsumerDefaults)
    ensures ConsumersOf([], defaults) == []
  {
    assert Order([]) == [];
  }

  /** A failed Start that declared no endpoint left nothing but the options it applied. */
  lemma FailedWithoutEndpoints(service: string, b: BrokerState, faults: Faults, setups: seq<Setup>)
    requires Start(Fresh(service, false), b, faults, setups).err.Some?
    requires Start(Fresh(service, false), b, faults, setups).conn.endpoints == []
    ensures var c := Fresh(service, false);
      var done := setups[..SetupsReached(c, b, faults, setups)];
      EndpointsOf(done, service) == [] && ValidSetups(done) && Start(c, b, faults, setups).conn == After(c, done)
  {
    var c := Fresh(service, false);
    var done := setups[..SetupsReached(c, b, faults, setups)];
    var i := FailedStart(service, b, faults, setups);
    AfterFresh(service, done);
    NoEndpointsNothingElse(done, service);
    NoPendingNoConsumers(After(c, done).consumerDefaults);
    ReachedSetupsAreValid(c, Ticked(Ticked(b)), faults, setups);
  }

  /** A list of setups whose first `k` declare nothing runs alike on a fresh connection and
      on one that has seen those `k` before. */
  lemma OptionsRunAgain(service: string, b: BrokerState, faults: Faults, setups: seq<Setup>, k: nat)
    requires k <= |setups| && EndpointsOf(setups[..k], service) == [] && ValidSetups(setups[..k])
    ensures var c := Fresh(service, false);
      RunSetups(After(c, setups[..k]), b, faults, setups) == RunSetups(c, b, faults, setups)
  {
    var c, done := Fresh(service, false), setups[..k];
    var d := After(c, done);
    NoEndpointsNoCalls(c, b, faults, done);
    NoEndpointsNoCalls(d, b, faults, done);
    AllSetupsOutcome(c, b, faults, done);
    AllSetupsOutcome(d, b, faults, done);
    AppliedTwice(c, done);
    RunsMerge(d, c, b, faults, setups, k);
  }

  lemma {:induction false} NoEndpointsNoWiring(setups: seq<Setup>, p: Publisher, ps: PublisherState, service: string,
                                               timeout: int)
    requires EndpointsOf(setups, service) == []
    ensures WireAll(setups, p, ps, service, false, timeout) == ps
  {
    if setups != [] {
      NoEndpointsNoWiring(setups[..|setups| - 1], p, ps, service, timeout);
      assert EndpointOf(setups[|setups| - 1], service) == [];
    }
  }

  /** A failed attempt that declared no endpoint wired no publisher either. */
  lemma CleanFailureWiresNothing(service: string, b: BrokerState, faults: Faults, setups: seq<Setup>, p: Publisher,
                                 ps: PublisherState, timeout: int)
    requires Start(Fresh(service, false), b, faults, setups).err.Some?
    requires Start(Fresh(service, false), b, faults, setups).conn.endpoints == []
    ensures var done := setups[..SetupsReached(Fresh(service, false), b, faults, setups)];
      WireAll(done, p, ps, service, false, timeout) == ps
  {
    FailedWithoutEndpoints(service, b, faults, setups);
    NoEndpointsNoWiring(setups[..SetupsReached(Fresh(service, false), b, faults, setups)], p, ps, service, timeout);
  }

  /** Connecting and opening JetStream works. */
  predicate Connects(b: BrokerState, faults: Faults) { Works(b, faults) && Works(Ticked(b), faults) }

  /** Retrying a failed Start is starting afresh, call for call and field for field, exactly
      when the failed attempt declared no endpoint.  (A retry that does not connect changes
      nothing.) */
  lemma RetryIsFirstTryExactly(service: string, b: BrokerState, faults: Faults, setups: seq<Setup>,
                               b2: BrokerState, faults2: Faults)
    requires Start(Fresh(service, false), b, faults, setups).err.Some?
    ensures var failed := Start(Fresh(service, false), b, faults, setups).conn;
      if Connects(b2, faults2) then
        (Start(failed, b2, faults2, setups) == Start(Fresh(service, false), b2, faults2, setups)
         <==> failed.endpoints == [])
      else
        Start(failed, b2, faults2, setups).conn == failed
  {
    var c := Fresh(service, false);
    var failed := Start(c, b, faults, setups).conn;
    var i := FailedStart(service, b, faults, setups);
    if Connects(b2, faults2) {
      if failed.endpoints == [] {
        FailedWithoutEndpoints(service, b, faults, setups);
        OptionsRunAgain(service, Ticked(Ticked(b2)), faults2, setups, SetupsReached(c, b, faults, setups));
      } else {
        SameCourse(failed, c, Ticked(Ticked(b2)), faults2, setups);
        StartAddsEndpoints(failed, b2, faults2, setups);
        StartAddsEndpoints(c, b2, faults2, setups);
      }
    }
  }

  /** What the setups of a second attempt find and what they leave. */
  lemma SecondAttempt(service: string, b: BrokerState, faults: Faults, setups: seq<Setup>,
                      b2: BrokerState, faults2: Faults)
    requires Start(Fresh(service, false), b, faults, setups).err.Some?
    requires RunSetups(Start(Fresh(service, false), b, faults, setups).conn, b2, faults2, setups).err.None?
    ensures var failed := Start(Fresh(service, false), b, faults, setups).conn;
      var again := RunSetups(failed, b2, faults2, setups).conn;
      var done := setups[..SetupsReached(Fresh(service, false), b, faults, setups)];
      && failed.endpoints == EndpointsOf(done, service)
      && again.pending == Registrations(done, service) + Registrations(setups, service)
      && again.endpoints == EndpointsOf(done, service) + EndpointsOf(setups, service)
  {
    var done := setups[..SetupsReached(Fresh(service, false), b, faults, setups)];
    var i := FailedStart(service, b, faults, setups);
    AfterFresh(service, done);
    AllSetupsOutcome(Start(Fresh(service, false), b, faults, setups).conn, b2, faults2, setups);
  }

  /** In particular, once the setups of the second attempt succeed, registrations and
      endpoints are those of the list exactly when the first attempt declared no endpoint. */
  lemma RetryCleanExactly(service: string, b: BrokerState, faults: Faults, setups: seq<Setup>,
                          b2: BrokerState, faults2: Faults)
    requires Start(Fresh(service, false), b, faults, setups).err.Some?
    requires RunSetups(Start(Fresh(service, false), b, faults, setups).conn, b2, faults2, setups).err.None?
    ensures var failed := Start(Fresh(service, false), b, faults, setups).conn;
      var again := RunSetups(failed, b2, faults2, setups).conn;
      again.pending == Registrations(setups, service) && again.endpoints == EndpointsOf(setups, service)
      <==> failed.endpoints == []
  {
    var done := setups[..SetupsReached(Fresh(service, false), b, faults, setups)];
    SecondAttempt(service, b, faults, setups, b2, faults2);
    if EndpointsOf(done, service) == [] {
      NoEndpointsNothingElse(done, service);
    }
  }

  /** A first attempt that failed while starting groups doubles everything. */
  lemma RetryAccumulates(service: string, b: BrokerState, faults: Faults, setups: seq<Setup>,
                         b2: BrokerState, faults2: Faults)
    requires SetupsRan(service, b, faults, setups)
    requires Start(Fresh(service, false), b, faults, setups).err.Some?
    requires RunSetups(Start(Fresh(service, false), b, faults, setups).conn, b2, faults2, setups).err.None?
    ensures var again := RunSetups(Start(Fresh(service, false), b, faults, setups).conn, b2, faults2, setups).conn;
      && again.pending == Registrations(setups, service) + Registrations(setups, service)
      && again.endpoints == EndpointsOf(setups, service) + EndpointsOf(setups, service)
  {
    SecondAttempt(service, b, faults, setups, b2, faults2);
    assert setups[..|setups|] == setups;
  }

  lemma RunTwo(c: ConnState, b: BrokerState, faults: Faults, one: Setup, two: Setup)
    ensures var r := ApplySetup(c, b, faults, one);
      RunSetups(c, b, faults, [one, two]) == if r.err.Some? then r else ApplySetup(r.conn, r.broker, faults, two)
  {
    assert [one, two][..1] == [one] && [one][..0] == [];
    assert RunSetups(c, b, faults, [one][..0]) == Outcome(c, b, None);
    assert RunSetups(c, b, faults, [one]) == ApplySetup(c, b, faults, one);
  }

  /** A stream consumer and a request consumer. */
  function TwoConsumers(h: Handler): seq<Setup> {
    [StreamConsumer("events", "k", false, h, "T", []), ServiceRequestConsumer("k", h, "T")]
  }

  const NOTHING_YET := BrokerState(map[], [], 0)

  lemma FirstOfTwoSucceeds(h: Handler)
    ensures var c := Fresh("svc", false);
      var r := ApplySetup(c, Ticked(Ticked(NOTHING_YET)), {2}, TwoConsumers(h)[0]);
      && r.err.None? && r.broker.calls == 2 && !r.conn.started && !r.conn.collectMode && r.conn.serviceName == "svc"
      && r.conn.pending == [ConfigFor("events", "k", false, h, "svc", [])] && |r.conn.endpoints| == 1
  {
    KeepsOtherNames("events");
  }

  lemma SecondOfTwoFails(h: Handler)
    ensures var c := Fresh("svc", false);
      var one := ApplySetup(c, Ticked(Ticked(NOTHING_YET)), {2}, TwoConsumers(h)[0]);
      var r := RunSetups(c, Ticked(Ticked(NOTHING_YET)), {2}, TwoConsumers(h));
      r.err == Some(BrokerFailed) && r.conn == one.conn
  {
    FirstOfTwoSucceeds(h);
    RunTwo(Fresh("svc", false), Ticked(Ticked(NOTHING_YET)), {2}, TwoConsumers(h)[0], TwoConsumers(h)[1]);
  }

  lemma TwoConsumersAre(h: Handler)
    ensures ValidSetups(TwoConsumers(h))
    ensures Registrations(TwoConsumers(h), "svc") == [ConfigFor("events", "k", false, h, "svc", [])]
    ensures |EndpointsOf(TwoConsumers(h), "svc")| == 2
  {
    KeepsOtherNames("events");
    RegistrationsOfTwo(TwoConsumers(h)[0], TwoConsumers(h)[1], "svc");
  }

  /** A first attempt that fails in its setups, and a second without faults. */
  lemma RetryAfterFailedSetup(service: string, b: BrokerState, faults: Faults, setups: seq<Setup>)
    requires Connects(b, faults) && ValidSetups(setups)
    requires RunSetups(Fresh(service, false), Ticked(Ticked(b)), faults, setups).err.Some?
    ensures var c, r := Fresh(service, false), RunSetups(Fresh(service, false), Ticked(Ticked(b)), faults, setups);
      var first := Start(c, b, faults, setups);
      && first.err == r.err && first.conn == r.conn
      && Start(first.conn, first.broker, {}, setups).err.None?
      && RunSetups(first.conn, Ticked(Ticked(first.broker)), {}, setups).conn.pending
         == r.conn.pending + Registrations(setups, service)
      && Start(first.conn, first.broker, {}, setups).conn.endpoints == r.conn.endpoints + EndpointsOf(setups, service)
  {
    SetupsOutcome(Fresh(service, false), Ticked(Ticked(b)), faults, setups);
    var first := Start(Fresh(service, false), b, faults, setups);
    RetryWithoutFaults(first.conn, first.broker, setups);
  }

  /** A concrete case: the request consumer's subscription fails.  The second attempt meets no
      fault and registers the stream consumer twice. */
  lemma RetryDoubles(h: Handler)
    ensures var setups := TwoConsumers(h);
      var first := Start(Fresh("svc", false), NOTHING_YET, {2}, setups);
      var cfg := ConfigFor("events", "k", false, h, "svc", []);
      && first.err == Some(BrokerFailed)
      && Start(first.conn, first.broker, {}, setups).err.None?
      && RunSetups(first.conn, Ticked(Ticked(first.broker)), {}, setups).conn.pending == [cfg, cfg]
      && |Start(first.conn, first.broker, {}, setups).conn.endpoints| == 3
  {
    FirstOfTwoSucceeds(h);
    SecondOfTwoFails(h);
    TwoConsumersAre(h);
    RetryAfterFailedSetup("svc", NOTHING_YET, {2}, TwoConsumers(h));
  }

  /** Without faults, valid setups started again come behind what is there. */
  lemma RetryWithoutFaults(c: ConnState, b: BrokerState, setups: seq<Setup>)
    requires !c.started && !c.collectMode && ValidSetups(setups)
    ensures Start(c, b, {}, setups).err.None?
    ensures RunSetups(c, Ticked(Ticked(b)), {}, setups).conn.pending == c.pending + Registrations(setups, c.serviceName)
    ensures Start(c, b, {}, setups).conn.endpoints == c.endpoints + EndpointsOf(setups, c.serviceName)
  {
    ValidSucceedsWithoutFaults(c, Ticked(Ticked(b)), setups);
    AllSetupsOutcome(c, Ticked(Ticked(b)), {}, setups);
    var r := RunSetups(c, Ticked(Ticked(b)), {}, setups);
    ConsumersSucceedWithoutFaults(r.conn, r.broker, ConsumersOf(r.conn.pending, r.conn.consumerDefaults));
    StartAddsEndpoints(c, b, {}, setups);
    assert setups[..|setups|] == setups;
  }
}
