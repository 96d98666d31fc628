/** What every run of deliveries keeps. */
module DeliveryInvariants {
  import opened Wrappers
  import opened Sums
  import opened Naming
  import opened Handlers
  import opened RoutingKeyHandlers
  import opened Metrics
  import opened Delivery

  // ---- every delivery is what its phase says ---------------------------------------

  predicate SourceOk(S: Setting, s: State, x: Delivery) {
    match x.source
    case Stream(e) =>
      && e < |s.entries| && EntryOk(S, s.entries[e])
      && x.name == S.consumers[s.entries[e].consumer].name
      && x.key == RoutingKeyOf(s.entries[e].subject)
    case Core(i, _) => i < |S.cores| && x.name == S.cores[i].name && x.key == S.cores[i].routingKey
  }

  /** The called handler is registered under a pattern that matches the key. */
  predicate CallOk(S: Setting, s: State, x: Delivery, h: Handler) {
    CanServe(HandlersAt(S, s, x.source), x.key, h, S.reading)
  }

  predicate PhaseOk(S: Setting, s: State, x: Delivery) {
    match x.phase
    case Arrived => true
    case Counted => true
    case Unrouted => !Routable(HandlersAt(S, s, x.source), x.key, S.reading)
    case Dispatched(h) => CallOk(S, s, x, h)
    case Returned(call) => CallOk(S, s, x, call.handler)
    case Notified(call) => CallOk(S, s, x, call.handler)
    case Acked(call) => CallOk(S, s, x, call.handler) && ErrOf(call).None? && x.source.Stream?
    case Recorded(end) => EndOk(S, s, x, end) && VerdictOf(end) != Ack && (x.source.Core? ==> end.Some?)
    case Done(end) => EndOk(S, s, x, end)
  }

  predicate EndOk(S: Setting, s: State, x: Delivery, end: Option<Called>) {
    if end.None? then !Routable(HandlersAt(S, s, x.source), x.key, S.reading) else CallOk(S, s, x, end.value.handler)
  }

  predicate DeliveryOk(S: Setting, s: State, x: Delivery) { SourceOk(S, s, x) && PhaseOk(S, s, x) }

  predicate SoundDeliveries(S: Setting, s: State) {
    && (forall e :: 0 <= e < |s.entries| ==> EntryOk(S, s.entries[e]))
    && (forall i :: 0 <= i < |s.deliveries| ==> DeliveryOk(S, s, s.deliveries[i]))
  }

  /** Entries only grow, and an entry keeps its consumer and subject. */
  predicate EntriesExtend(s: State, t: State) {
    && |s.entries| <= |t.entries|
    && forall e :: 0 <= e < |s.entries| ==>
      t.entries[e].consumer == s.entries[e].consumer && t.entries[e].subject == s.entries[e].subject
  }

  lemma DeliveryStaysOk(S: Setting, s: State, t: State, x: Delivery)
    requires DeliveryOk(S, s, x) && EntriesExtend(s, t)
    ensures DeliveryOk(S, t, x)
  {
    assert HandlersAt(S, s, x.source) == HandlersAt(S, t, x.source);
  }

  lemma {:induction false} NewEntriesAre(recipients: seq<bool>, subject: string, n: nat)
    requires n <= |recipients|
    ensures forall e :: 0 <= e < |EntriesFor(recipients, subject, n)| ==>
      var x := EntriesFor(recipients, subject, n)[e];
      x.consumer < n && recipients[x.consumer] && x == Entry(x.consumer, subject, 0, false)
  {
    if n > 0 {
      NewEntriesAre(recipients, subject, n - 1);
    }
  }

  lemma NewEntriesOk(S: Setting, subject: string)
    ensures forall e :: 0 <= e < |EntriesFor(Recipients(S.consumers, subject), subject, |S.consumers|)| ==>
      var x := EntriesFor(Recipients(S.consumers, subject), subject, |S.consumers|)[e];
      EntryOk(S, x) && x.subject == subject && x.attempts == 0 && !x.gone
  {
    NewEntriesAre(Recipients(S.consumers, subject), subject, |S.consumers|);
  }

  lemma StepExtends(S: Setting, s: State, a: Action)
    requires Enabled(S, s, a)
    ensures EntriesExtend(s, Apply(S, s, a))
  {
  }

  /** The action works on delivery `d`. */
  function Touched(a: Action): Option<nat> {
    match a
    case Count(d) => Some(d)
    case Route(d, _) => Some(d)
    case Miss(d) => Some(d)
    case Call(d, _) => Some(d)
    case Notify(d, _) => Some(d)
    case Record(d) => Some(d)
    case Settle(d, _) => Some(d)
    case _ => None
  }

  /** A step changes at most one delivery, and of that only the phase; only a delivery or
      a request adds one. */
  lemma StepTouches(S: Setting, s: State, a: Action)
    requires Enabled(S, s, a)
    ensures var t := Apply(S, s, a);
      match Touched(a)
      case Some(d) =>
        && d < |s.deliveries|
        && t.deliveries == s.deliveries[d := s.deliveries[d].(phase := t.deliveries[d].phase)]
      case None =>
        if a.Deliver? || a.Request? then
          |t.deliveries| == |s.deliveries| + 1 && t.deliveries[..|s.deliveries|] == s.deliveries
          && t.deliveries[|s.deliveries|].phase == Arrived
        else t.deliveries == s.deliveries
  {
  }

  lemma RoutedPhaseOk(S: Setting, s: State, a: Action, d: nat)
    requires Enabled(S, s, a) && Touched(a) == Some(d) && d < |s.deliveries| && PhaseOk(S, s, s.deliveries[d])
    requires a.Count? || a.Route? || a.Miss? || a.Call? || a.Notify?
    ensures PhaseOk(S, s, s.deliveries[d].(phase := Apply(S, s, a).deliveries[d].phase))
  {
    var x := s.deliveries[d];
    match a {
      case Count(_) => assert Apply(S, s, a).deliveries[d].phase == Counted;
      case Route(_, p) => assert CallOk(S, s, x, HandlersAt(S, s, x.source)[p]);
      case Miss(_) => assert Apply(S, s, a).deliveries[d].phase == Unrouted;
      case Call(_, input) => assert Apply(S, s, a).deliveries[d].phase == Returned(Called(x.phase.handler, input));
      case Notify(_, _) => assert Apply(S, s, a).deliveries[d].phase == Notified(x.phase.call);
    }
  }

  lemma RecordedPhaseOk(S: Setting, s: State, d: nat)
    requires Enabled(S, s, Record(d)) && PhaseOk(S, s, s.deliveries[d])
    ensures PhaseOk(S, s, s.deliveries[d].(phase := Apply(S, s, Record(d)).deliveries[d].phase))
  {
    var x := s.deliveries[d];
    var end := EndOf(x.phase);
    assert Apply(S, s, Record(d)).deliveries[d].phase == if RecordIsLast(x) then Done(end) else Recorded(end);
    assert EndOk(S, s, x, end);
  }

  lemma SettledPhaseOk(S: Setting, s: State, d: nat, arrives: bool)
    requires Enabled(S, s, Settle(d, arrives)) && PhaseOk(S, s, s.deliveries[d])
    ensures PhaseOk(S, s, s.deliveries[d].(phase := Apply(S, s, Settle(d, arrives)).deliveries[d].phase))
  {
    var x := s.deliveries[d];
    assert Apply(S, s, Settle(d, arrives)).deliveries[d].phase
      == if x.phase.Notified? then Acked(x.phase.call) else Done(x.phase.end);
  }

  lemma TouchedPhaseOk(S: Setting, s: State, a: Action, d: nat)
    requires Enabled(S, s, a) && SoundDeliveries(S, s) && Touched(a) == Some(d) && d < |s.deliveries|
    ensures PhaseOk(S, s, s.deliveries[d].(phase := Apply(S, s, a).deliveries[d].phase))
  {
    assert DeliveryOk(S, s, s.deliveries[d]);
    if a.Record? {
      RecordedPhaseOk(S, s, d);
    } else if a.Settle? {
      SettledPhaseOk(S, s, d, a.arrives);
    } else {
      RoutedPhaseOk(S, s, a, d);
    }
  }

  lemma SoundStep(S: Setting, s: State, a: Action)
    requires SoundDeliveries(S, s) && Enabled(S, s, a)
    ensures SoundDeliveries(S, Apply(S, s, a))
  {
    var t := Apply(S, s, a);
    StepExtends(S, s, a);
    StepTouches(S, s, a);
    NewEntriesOkStep(S, s, a);
    forall i | 0 <= i < |t.deliveries| ensures DeliveryOk(S, t, t.deliveries[i]) {
      if Touched(a) == Some(i) {
        assert DeliveryOk(S, s, s.deliveries[i]);
        TouchedPhaseOk(S, s, a, i);
        var y := s.deliveries[i].(phase := t.deliveries[i].phase);
        assert SourceOk(S, s, y);
        DeliveryStaysOk(S, s, t, y);
      } else if i < |s.deliveries| {
        assert t.deliveries[i] == s.deliveries[i];
        DeliveryStaysOk(S, s, t, s.deliveries[i]);
      } else {
        assert SourceOk(S, t, t.deliveries[i]);
      }
    }
  }

  lemma NewEntriesOkStep(S: Setting, s: State, a: Action)
    requires SoundDeliveries(S, s) && Enabled(S, s, a)
    ensures var t := Apply(S, s, a); forall e :: 0 <= e < |t.entries| ==> EntryOk(S, t.entries[e])
  {
    var t := Apply(S, s, a);
    StepExtends(S, s, a);
    if a.Publish? {
      NewEntriesOk(S, a.subject);
      assert t.entries == s.entries + EntriesFor(Recipients(S.consumers, a.subject), a.subject, |S.consumers|);
    }
    forall e | 0 <= e < |t.entries| ensures EntryOk(S, t.entries[e]) {
      if e < |s.entries| {
        assert EntryOk(S, s.entries[e]);
      }
    }
  }

  // ---- metrics ------------------------------------------------------------------------

  function SampleOf(mapper: string -> string, x: Delivery, metric: Metric): Sample {
    Sample(metric, x.name, RoutingKeyLabel(mapper, x.key))
  }

  /** The end of a delivery, once it is recorded. */
  function EndedWith(phase: Phase): Option<Option<Called>> {
    match phase
    case Recorded(end) => Some(end)
    case Done(end) => Some(end)
    case _ => None
  }

  /** The counter movements one delivery has caused so far. */
  function SamplesOf(mapper: string -> string, x: Delivery): multiset<Sample> {
    var end := EndedWith(x.phase);
    (if x.phase.Arrived? then multiset{} else multiset{SampleOf(mapper, x, Received)})
    + (if end.Some? then multiset{SampleOf(mapper, x, OutcomeMetric(x.source, end.value))} else multiset{})
  }

  function EachSamples(mapper: string -> string, ds: seq<Delivery>): (r: seq<multiset<Sample>>)
    ensures |r| == |ds|
    ensures forall i :: 0 <= i < |ds| ==> r[i] == SamplesOf(mapper, ds[i])
  {
    seq(|ds|, i requires 0 <= i < |ds| => SamplesOf(mapper, ds[i]))
  }

  /** The counters are exactly what the deliveries have caused. */
  predicate CountersExact(S: Setting, s: State) {
    s.metrics == Sum(EachSamples(S.mapper, s.deliveries))
  }

  /** What one action adds to the counters. */
  function Moves(S: Setting, s: State, a: Action): multiset<Sample>
    requires Enabled(S, s, a)
  {
    match a
    case Count(d) => multiset{SampleOf(S.mapper, s.deliveries[d], Received)}
    case Record(d) =>
      var x := s.deliveries[d];
      multiset{SampleOf(S.mapper, x, OutcomeMetric(x.source, EndOf(x.phase)))}
    case _ => multiset{}
  }

  lemma MovesCounters(S: Setting, s: State, a: Action)
    requires Enabled(S, s, a)
    ensures Apply(S, s, a).metrics == s.metrics + Moves(S, s, a)
  {
  }

  /** Counting leaves Arrived, recording writes the end, and no other step does either. */
  lemma StepStage(S: Setting, s: State, a: Action, d: nat)
    requires Enabled(S, s, a) && Touched(a) == Some(d) && d < |s.deliveries|
    ensures var p, q := s.deliveries[d].phase, Apply(S, s, a).deliveries[d].phase;
      && !q.Arrived?
      && (p.Arrived? <==> a.Count?)
      && (a.Record? ==> EndedWith(p).None? && EndedWith(q) == Some(EndOf(p)))
      && (!a.Record? ==> EndedWith(q) == EndedWith(p))
  {
  }

  lemma MovesSamples(S: Setting, s: State, a: Action, d: nat)
    requires Enabled(S, s, a) && Touched(a) == Some(d) && d < |s.deliveries|
    ensures SamplesOf(S.mapper, Apply(S, s, a).deliveries[d]) == SamplesOf(S.mapper, s.deliveries[d]) + Moves(S, s, a)
  {
    StepStage(S, s, a, d);
    StepTouches(S, s, a);
    var x, y := s.deliveries[d], Apply(S, s, a).deliveries[d];
    StageSamples(S.mapper, x, y, Moves(S, s, a), a.Count?, a.Record?);
  }

  lemma StageSamples(mapper: string -> string, x: Delivery, y: Delivery, moves: multiset<Sample>, counts: bool,
                     records: bool)
    requires y == x.(phase := y.phase) && !y.phase.Arrived? && (x.phase.Arrived? <==> counts) && !(counts && records)
    requires records ==> EndedWith(x.phase).None? && EndedWith(y.phase) == Some(EndOf(x.phase))
    requires !records ==> EndedWith(y.phase) == EndedWith(x.phase)
    requires moves == if counts then multiset{SampleOf(mapper, x, Received)}
                      else if records then multiset{SampleOf(mapper, x, OutcomeMetric(x.source, EndOf(x.phase)))}
                      else multiset{}
    ensures SamplesOf(mapper, y) == SamplesOf(mapper, x) + moves
  {
    assert SampleOf(mapper, y, Received) == SampleOf(mapper, x, Received);
  }

  lemma TouchedCounters(S: Setting, s: State, a: Action, d: nat)
    requires CountersExact(S, s) && Enabled(S, s, a) && Touched(a) == Some(d)
    ensures CountersExact(S, Apply(S, s, a))
  {
    var t, moves := Apply(S, s, a), Moves(S, s, a);
    StepTouches(S, s, a);
    MovesCounters(S, s, a);
    MovesSamples(S, s, a, d);
    EachUpdated(S.mapper, s.deliveries, d, t.deliveries[d], moves);
    SumUpdate(EachSamples(S.mapper, s.deliveries), d, moves);
  }

  lemma EachUpdated(mapper: string -> string, ds: seq<Delivery>, d: nat, y: Delivery, moves: multiset<Sample>)
    requires d < |ds|
    requires SamplesOf(mapper, y) == SamplesOf(mapper, ds[d]) + moves
    ensures EachSamples(mapper, ds[d := y]) == EachSamples(mapper, ds)[d := EachSamples(mapper, ds)[d] + moves]
  {
  }

  lemma EachSnoc(mapper: string -> string, ds: seq<Delivery>, x: Delivery)
    ensures EachSamples(mapper, ds + [x]) == EachSamples(mapper, ds) + [SamplesOf(mapper, x)]
  {
  }

  lemma CountersStep(S: Setting, s: State, a: Action)
    requires CountersExact(S, s) && Enabled(S, s, a)
    ensures CountersExact(S, Apply(S, s, a))
  {
    if Touched(a).Some? {
      TouchedCounters(S, s, a, Touched(a).value);
    } else {
      var t, n := Apply(S, s, a), |s.deliveries|;
      StepTouches(S, s, a);
      MovesCounters(S, s, a);
      if a.Deliver? || a.Request? {
        assert t.deliveries == s.deliveries + [t.deliveries[n]];
        EachSnoc(S.mapper, s.deliveries, t.deliveries[n]);
        SumSnoc(EachSamples(S.mapper, s.deliveries), SamplesOf(S.mapper, t.deliveries[n]));
      }
    }
  }

  /** The delivery counts for this counter pair, received and not yet ended. */
  function OneInFlight(mapper: string -> string, x: Delivery, consumer: string, routingKey: string): nat {
    if x.name == consumer && RoutingKeyLabel(mapper, x.key) == routingKey
       && !x.phase.Arrived? && !x.phase.Recorded? && !x.phase.Done? then 1 else 0
  }

  /** Deliveries of one counter pair that are received and not yet counted as ended. */
  function InFlight(mapper: string -> string, ds: seq<Delivery>, consumer: string, routingKey: string): nat {
    if ds == [] then 0
    else
      InFlight(mapper, ds[..|ds| - 1], consumer, routingKey)
      + OneInFlight(mapper, ds[|ds| - 1], consumer, routingKey)
  }

  function Outcomes(m: multiset<Sample>, consumer: string, routingKey: string): nat {
    m[Sample(AckCount, consumer, routingKey)] + m[Sample(NakCount, consumer, routingKey)]
    + m[Sample(WithoutHandler, consumer, routingKey)] + m[Sample(NotParsable, consumer, routingKey)]
  }

  /** The counters balance against a number of deliveries in flight. */
  predicate Balanced(m: multiset<Sample>, consumer: string, routingKey: string, inFlight: nat) {
    m[Sample(Received, consumer, routingKey)] == Outcomes(m, consumer, routingKey) + inFlight
  }

  lemma BalancesAdd(m: multiset<Sample>, n: multiset<Sample>, consumer: string, routingKey: string, i: nat, j: nat)
    requires Balanced(m, consumer, routingKey, i) && Balanced(n, consumer, routingKey, j)
    ensures Balanced(m + n, consumer, routingKey, i + j)
  {
  }

  lemma {:induction false} ConservationOf(mapper: string -> string, ds: seq<Delivery>, consumer: string,
                                          routingKey: string)
    ensures Balanced(Sum(EachSamples(mapper, ds)), consumer, routingKey, InFlight(mapper, ds, consumer, routingKey))
  {
    if ds != [] {
      var n := |ds| - 1;
      var before, own := EachSamples(mapper, ds[..n]), SamplesOf(mapper, ds[n]);
      ConservationOf(mapper, ds[..n], consumer, routingKey);
      OneDeliveryConserves(mapper, ds[n], consumer, routingKey);
      BalancesAdd(Sum(before), own, consumer, routingKey, InFlight(mapper, ds[..n], consumer, routingKey),
                  OneInFlight(mapper, ds[n], consumer, routingKey));
      assert EachSamples(mapper, ds) == before + [own];
      SumSnoc(before, own);
    }
  }

  lemma OneDeliveryConserves(mapper: string -> string, x: Delivery, consumer: string, routingKey: string)
    ensures Balanced(SamplesOf(mapper, x), consumer, routingKey, OneInFlight(mapper, x, consumer, routingKey))
  {
  }

  // ---- steps of one delivery alone ----------------------------------------------------------

  /** All steps are the delivery's own, and they lead from `s` to `t`. */
  ghost predicate OwnRun(S: Setting, s: State, acts: seq<Action>, t: State, d: nat) {
    && Run(S, s, acts) == Some(t)
    && forall i :: 0 <= i < |acts| ==> Touched(acts[i]) == Some(d)
  }

  lemma OwnRunSnoc(S: Setting, s: State, acts: seq<Action>, t: State, d: nat, a: Action)
    requires OwnRun(S, s, acts, t, d)
    requires Enabled(S, t, a) && Touched(a) == Some(d)
    ensures OwnRun(S, s, acts + [a], Apply(S, t, a), d)
  {
    assert (acts + [a])[..|acts|] == acts;
  }
}
