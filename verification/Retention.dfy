/** Which retention limits the streams end up with. */
module Retention {
  import opened Wrappers
  import opened Naming
  import opened ConsumerGroups
  import opened Brokers
  import opened Setups
  import opened Startup
  import opened Connections

  function Lookup(b: BrokerState, name: string): Option<StreamInfo> {
    if name in b.streams then Some(b.streams[name]) else None
  }

  function InfoFor(name: string, limits: StreamLimits): StreamInfo {
    StreamInfo([StreamSubjects(name)], limits)
  }

  /** The last override given for a stream, by its normalized name. */
  function LastOverride(setups: seq<Setup>, name: string): Option<StreamLimits> {
    if setups == [] then None
    else
      var s := setups[|setups| - 1];
      if s.WithStreamConfig? && StreamName(s.stream) == name then Some(s.limits)
      else LastOverride(setups[..|setups| - 1], name)
  }

  /** The limits a list of setups gives a stream: its last override as a whole, else the
      last defaults, else none. */
  function ResolvedLimits(setups: seq<Setup>, name: string): StreamLimits {
    var o := LastOverride(setups, name);
    if o.Some? then o.value else StreamDefaultsAfter(setups, UNLIMITED)
  }

  lemma {:induction false} OverridesAreLast(setups: seq<Setup>, name: string)
    ensures var m := OverridesAfter(setups, map[]);
      LastOverride(setups, name) == if name in m then Some(m[name]) else None
  {
    if setups != [] {
      OverridesAreLast(setups[..|setups| - 1], name);
    }
  }

  predicate Overrides(s: Setup, name: string) { s.WithStreamConfig? && StreamName(s.stream) == name }

  /** Setup `i` is the last override of the stream. */
  predicate LastOverriding(setups: seq<Setup>, name: string, i: nat) {
    i < |setups| && Overrides(setups[i], name) && forall j :: i < j < |setups| ==> !Overrides(setups[j], name)
  }

  /** Setup `i` is the last one that gives defaults. */
  predicate LastDefaulting(setups: seq<Setup>, i: nat) {
    i < |setups| && setups[i].WithStreamDefaults? && forall j :: i < j < |setups| ==> !setups[j].WithStreamDefaults?
  }

  lemma {:induction false} LastOverrideFound(setups: seq<Setup>, name: string, i: nat)
    requires LastOverriding(setups, name, i)
    ensures LastOverride(setups, name) == Some(setups[i].limits)
  {
    var n := |setups| - 1;
    if i < n {
      assert setups[..n][i] == setups[i];
      assert forall j :: 0 <= j < n ==> setups[..n][j] == setups[j];
      LastOverrideFound(setups[..n], name, i);
    }
  }

  lemma {:induction false} NoOverrideFound(setups: seq<Setup>, name: string)
    requires forall j :: 0 <= j < |setups| ==> !Overrides(setups[j], name)
    ensures LastOverride(setups, name) == None
  {
    if setups != [] {
      var n := |setups| - 1;
      assert forall j :: 0 <= j < n ==> setups[..n][j] == setups[j];
      NoOverrideFound(setups[..n], name);
    }
  }

  lemma {:induction false} LastDefaultsFound(setups: seq<Setup>, i: nat)
    requires LastDefaulting(setups, i)
    ensures StreamDefaultsAfter(setups, UNLIMITED) == setups[i].limits
  {
    var n := |setups| - 1;
    if i < n {
      assert setups[..n][i] == setups[i];
      assert forall j :: 0 <= j < n ==> setups[..n][j] == setups[j];
      LastDefaultsFound(setups[..n], i);
    }
  }

  lemma {:induction false} NoDefaultsFound(setups: seq<Setup>)
    requires forall j :: 0 <= j < |setups| ==> !setups[j].WithStreamDefaults?
    ensures StreamDefaultsAfter(setups, UNLIMITED) == StreamLimits(0, 0, 0)
  {
    if setups != [] {
      var n := |setups| - 1;
      assert forall j :: 0 <= j < n ==> setups[..n][j] == setups[j];
      NoDefaultsFound(setups[..n]);
    }
  }

  /** The last override of a stream counts, as a whole. */
  lemma LastOverrideResolves(setups: seq<Setup>, name: string, i: nat)
    requires LastOverriding(setups, name, i)
    ensures ResolvedLimits(setups, name) == setups[i].limits
  {
    LastOverrideFound(setups, name, i);
  }

  /** Without an override the last defaults count, and without those nothing is limited. */
  lemma DefaultsResolve(setups: seq<Setup>, name: string)
    requires forall j :: 0 <= j < |setups| ==> !Overrides(setups[j], name)
    ensures (forall j :: 0 <= j < |setups| ==> !setups[j].WithStreamDefaults?) ==>
      ResolvedLimits(setups, name) == StreamLimits(0, 0, 0)
    ensures forall i: nat | LastDefaulting(setups, i) :: ResolvedLimits(setups, name) == setups[i].limits
  {
    NoOverrideFound(setups, name);
    if forall j :: 0 <= j < |setups| ==> !setups[j].WithStreamDefaults? {
      NoDefaultsFound(setups);
    }
    forall i: nat | LastDefaulting(setups, i) ensures ResolvedLimits(setups, name) == setups[i].limits {
      LastDefaultsFound(setups, i);
    }
  }

  /** What the last publisher setup of a stream wrote: the limits in force at that point. */
  function PublisherLimits(setups: seq<Setup>, name: string): Option<StreamLimits> {
    if setups == [] then None
    else
      var s, rest := setups[|setups| - 1], setups[..|setups| - 1];
      if s.StreamPublisher? && StreamName(s.stream) == name then Some(ResolvedLimits(rest, name))
      else PublisherLimits(rest, name)
  }

  lemma LimitsInForce(service: string, b: BrokerState, faults: Faults, setups: seq<Setup>, name: string)
    requires RunSetups(Fresh(service, false), b, faults, setups).err.None?
    ensures LimitsFor(RunSetups(Fresh(service, false), b, faults, setups).conn, name) == ResolvedLimits(setups, name)
  {
    AllSetupsOutcome(Fresh(service, false), b, faults, setups);
    OverridesAreLast(setups, name);
  }

  /** One setup touches a stream only when it publishes to it. */
  lemma SetupTouches(c: ConnState, b: BrokerState, faults: Faults, s: Setup, name: string)
    requires !c.collectMode && ApplySetup(c, b, faults, s).err.None?
    ensures Lookup(ApplySetup(c, b, faults, s).broker, name)
      == if s.StreamPublisher? && StreamName(s.stream) == name then Some(InfoFor(name, LimitsFor(c, name)))
         else Lookup(b, name)
  {
  }

  lemma {:induction false} StreamsAfterSetups(service: string, b: BrokerState, faults: Faults, setups: seq<Setup>,
                                              name: string)
    requires RunSetups(Fresh(service, false), b, faults, setups).err.None?
    ensures Lookup(RunSetups(Fresh(service, false), b, faults, setups).broker, name)
      == if PublisherLimits(setups, name).Some? then Some(InfoFor(name, PublisherLimits(setups, name).value))
         else Lookup(b, name)
  {
    if setups != [] {
      var n := |setups| - 1;
      var r := RunSetups(Fresh(service, false), b, faults, setups[..n]);
      StreamsAfterSetups(service, b, faults, setups[..n], name);
      LimitsInForce(service, b, faults, setups[..n], name);
      AllSetupsOutcome(Fresh(service, false), b, faults, setups[..n]);
      SetupTouches(r.conn, r.broker, faults, setups[n], name);
    }
  }

  predicate SomeConsumerOn(consumers: seq<JsConsumer>, name: string) {
    exists i :: 0 <= i < |consumers| && consumers[i].stream == name
  }

  lemma SomeConsumerSnoc(plans: seq<JsConsumer>, plan: JsConsumer, name: string)
    ensures SomeConsumerOn(plans + [plan], name) <==> SomeConsumerOn(plans, name) || plan.stream == name
  {
    var all := plans + [plan];
    assert forall i :: 0 <= i < |plans| ==> all[i] == plans[i];
    assert all[|plans|] == plan;
  }

  lemma ConsumerTouches(c: ConnState, b: BrokerState, faults: Faults, plan: JsConsumer, name: string)
    requires StartConsumer(c, b, faults, plan).err.None?
    ensures Lookup(StartConsumer(c, b, faults, plan).broker, name)
      == if plan.stream == name then Some(InfoFor(name, LimitsFor(c, name))) else Lookup(b, name)
  {
  }

  lemma {:induction false} StreamsAfterConsumers(c: ConnState, b: BrokerState, faults: Faults, plans: seq<JsConsumer>,
                                                 name: string)
    requires StartConsumers(c, b, faults, plans).err.None?
    ensures Lookup(StartConsumers(c, b, faults, plans).broker, name)
      == if SomeConsumerOn(plans, name) then Some(InfoFor(name, LimitsFor(c, name))) else Lookup(b, name)
  {
    if plans != [] {
      var n := |plans| - 1;
      var r := StartConsumers(c, b, faults, plans[..n]);
      StreamsAfterConsumers(c, b, faults, plans[..n], name);
      StartingKeepsSettings(c, b, faults, plans[..n]);
      ConsumerTouches(r.conn, r.broker, faults, plans[n], name);
      SomeConsumerSnoc(plans[..n], plans[n], name);
      assert plans == plans[..n] + [plans[n]];
    }
  }

  /** The broker's streams once setups and deferred consumers have run. */
  lemma StreamsAfterPending(service: string, b: BrokerState, faults: Faults, setups: seq<Setup>, name: string)
    requires RunSetups(Fresh(service, false), b, faults, setups).err.None?
    requires var s := RunSetups(Fresh(service, false), b, faults, setups);
      StartPending(s.conn, s.broker, faults).err.None?
    ensures var s := RunSetups(Fresh(service, false), b, faults, setups);
      Lookup(StartPending(s.conn, s.broker, faults).broker, name)
        == if SomeConsumerOn(PlannedConsumers(setups, service), name)
           then Some(InfoFor(name, ResolvedLimits(setups, name)))
           else if PublisherLimits(setups, name).Some? then Some(InfoFor(name, PublisherLimits(setups, name).value))
           else Lookup(b, name)
  {
    var s := RunSetups(Fresh(service, false), b, faults, setups);
    AllSetupsOutcome(Fresh(service, false), b, faults, setups);
    AfterFresh(service, setups);
    StreamsAfterSetups(service, b, faults, setups, name);
    LimitsInForce(service, b, faults, setups, name);
    StreamsAfterConsumers(s.conn, s.broker, faults, PlannedConsumers(setups, service), name);
  }

  /** Final retention: after a successful Start, a stream with a consumer has the limits of
      the whole list, even when a publisher setup created it earlier under others; a stream
      that is only published to keeps the limits in force at its last publisher setup; and
      every other stream is untouched. */
  lemma FinalRetention(service: string, b: BrokerState, faults: Faults, setups: seq<Setup>, name: string)
    requires Start(Fresh(service, false), b, faults, setups).err.None?
    ensures var r := Start(Fresh(service, false), b, faults, setups);
      Lookup(r.broker, name)
        == if SomeConsumerOn(r.conn.consumers, name) then Some(InfoFor(name, ResolvedLimits(setups, name)))
           else if PublisherLimits(setups, name).Some? then Some(InfoFor(name, PublisherLimits(setups, name).value))
           else Lookup(b, name)
  {
    SuccessfulStart(service, b, faults, setups);
    StartUnfolds(service, b, faults, setups);
    StreamsAfterPending(service, Ticked(Ticked(b)), faults, setups, name);
    assert Lookup(Ticked(Ticked(b)), name) == Lookup(b, name);
  }
}
