/** What runs amount to, message by message: who gets a copy, whose function is called with
    what, how it ends, and which counter tells. */
module Outcomes {
  import opened Wrappers
  import opened Sums
  import opened Naming
  import opened Handlers
  import opened RoutingKeyHandlers
  import opened GroupMeaning
  import opened Metrics
  import opened Delivery
  import opened DeliveryInvariants
  import opened DeliveryRuns

  // ---- every consumer gets its copy --------------------------------------------------------

  function CopyAt(consumer: nat, subject: string): Entry -> bool {
    (e: Entry) => e.consumer == consumer && e.subject == subject
  }

  function Published(acts: seq<Action>, subject: string): nat {
    CountIf(acts, (a: Action) => a == Publish(subject))
  }

  lemma {:induction false} CopiesOfOne(recipients: seq<bool>, subject: string, n: nat, i: nat, other: string)
    requires n <= |recipients|
    ensures CountIf(EntriesFor(recipients, subject, n), CopyAt(i, other))
      == if i < n && subject == other && recipients[i] then 1 else 0
  {
    if n > 0 {
      CopiesOfOne(recipients, subject, n - 1, i, other);
      CountIfSnoc(EntriesFor(recipients, subject, n - 1), Entry(n - 1, subject, 0, false), CopyAt(i, other));
    }
  }

  /** How many copies a consumer has of the messages under one subject. */
  function CopiesDue(S: Setting, acts: seq<Action>, i: nat, subject: string): nat {
    if i < |S.consumers| && ServerDelivers(S.consumers[i], subject) then Published(acts, subject) else 0
  }

  lemma CopiesStep(S: Setting, s: State, a: Action, i: nat, subject: string)
    requires Enabled(S, s, a)
    ensures CountIf(Apply(S, s, a).entries, CopyAt(i, subject))
      == CountIf(s.entries, CopyAt(i, subject))
         + if a == Publish(subject) && i < |S.consumers| && ServerDelivers(S.consumers[i], subject) then 1 else 0
  {
    var t := Apply(S, s, a);
    if a.Publish? {
      var recipients := Recipients(S.consumers, a.subject);
      CountIfConcat(s.entries, EntriesFor(recipients, a.subject, |S.consumers|), CopyAt(i, subject));
      CopiesOfOne(recipients, a.subject, |S.consumers|, i, subject);
    } else {
      StepExtends(S, s, a);
      CountIfSame(t.entries, s.entries, CopyAt(i, subject));
    }
  }

  lemma PublishedSnoc(acts: seq<Action>, subject: string)
    requires acts != []
    ensures Published(acts, subject)
      == Published(acts[..|acts| - 1], subject) + if acts[|acts| - 1] == Publish(subject) then 1 else 0
  {
  }

  /** Fan-out: in every run, every consumer has as many entries under a subject as messages
      were published under it, if the server delivers the subject there, and none if not. */
  lemma {:induction false} EveryConsumerGetsItsCopy(S: Setting, s: State, acts: seq<Action>, i: nat, subject: string)
    requires Initial(s) && Run(S, s, acts).Some?
    ensures CountIf(Run(S, s, acts).value.entries, CopyAt(i, subject)) == CopiesDue(S, acts, i, subject)
  {
    if acts != [] {
      var n := |acts| - 1;
      EveryConsumerGetsItsCopy(S, s, acts[..n], i, subject);
      CopiesStep(S, Run(S, s, acts[..n]).value, acts[n], i, subject);
      PublishedSnoc(acts, subject);
    }
  }

  /** No copy is stuck: one that is not gone can be delivered while attempts remain, and
      given up by the broker when they are used up. */
  lemma CopyNeverStuck(S: Setting, s: State, acts: seq<Action>, e: nat)
    requires Initial(s) && Run(S, s, acts).Some?
    requires e < |Run(S, s, acts).value.entries| && !Run(S, s, acts).value.entries[e].gone
    ensures var t := Run(S, s, acts).value;
      && t.entries[e].consumer < |S.consumers|
      && var limit := MaxDeliver(S, t.entries[e]);
         && (Enabled(S, t, Deliver(e)) <==> limit <= 0 || DeliveriesOf(t.deliveries, e) < limit)
         && (Enabled(S, t, GiveUp(e)) <==> 0 < limit == DeliveriesOf(t.deliveries, e))
  {
    BoundedRedelivery(S, s, acts, e);
  }

  // ---- nothing is prescribed to the surroundings --------------------------------------------

  /** Messages and requests may come at any time, and a reader may read whatever waits. */
  lemma SurroundingsAreFree(S: Setting, s: State)
    ensures forall subject :: Enabled(S, s, Publish(subject))
    ensures forall i: nat, reply: bool :: Enabled(S, s, Request(i, reply)) <==> i < |S.cores|
    ensures Enabled(S, s, ReadSuccess) <==> s.successCh.Some? && s.successCh.value.buffer != []
    ensures Enabled(S, s, ReadFailure) <==> s.errorCh.Some? && s.errorCh.value.buffer != []
  {
  }

  /** At every stage of a delivery whatever the surroundings decide is possible: any matching
      pattern, any input and result, a reader waiting or not, a settlement lost or not. */
  lemma DeliveryIsFree(S: Setting, s: State, d: nat)
    requires d < |s.deliveries|
    ensures var x := s.deliveries[d];
      && (Enabled(S, s, Count(d)) <==> x.phase.Arrived?)
      && (forall p :: Enabled(S, s, Route(d, p)) <==>
            x.phase.Counted? && p in HandlersAt(S, s, x.source) && MatchRoutingKey(p, x.key, S.reading))
      && (Enabled(S, s, Miss(d)) <==> x.phase.Counted? && !Routable(HandlersAt(S, s, x.source), x.key, S.reading))
      && (forall input :: Enabled(S, s, Call(d, input)) <==> x.phase.Dispatched?)
      && (forall waiting :: Enabled(S, s, Notify(d, waiting)) <==> x.phase.Returned?)
      && (forall arrives :: Enabled(S, s, Settle(d, arrives)) <==> Enabled(S, s, Settle(d, true)))
  {
  }

  // ---- one call per delivery -----------------------------------------------------------------

  /** The call a phase remembers. */
  function CallIn(phase: Phase): Option<Called> {
    match phase
    case Returned(call) => Some(call)
    case Notified(call) => Some(call)
    case Acked(call) => Some(call)
    case Recorded(end) => end
    case Done(end) => end
    case _ => None
  }

  /** The inputs with which a delivery's handler was called in a run. */
  function InputsOf(acts: seq<Action>, d: nat): seq<CallInput> {
    if acts == [] then []
    else
      var rest, a := InputsOf(acts[..|acts| - 1], d), acts[|acts| - 1];
      if a.Call? && a.d == d then rest + [a.input] else rest
  }

  predicate Remembers(s: State, d: nat, inputs: seq<CallInput>) {
    inputs == if d < |s.deliveries| && CallIn(s.deliveries[d].phase).Some?
              then [CallIn(s.deliveries[d].phase).value.input] else []
  }

  lemma CallStep(S: Setting, s: State, a: Action, d: nat)
    requires Enabled(S, s, a) && Touched(a) == Some(d) && d < |s.deliveries|
    ensures var p, q := s.deliveries[d].phase, Apply(S, s, a).deliveries[d].phase;
      && (a.Call? ==> CallIn(p).None? && CallIn(q).Some? && CallIn(q).value.input == a.input)
      && (!a.Call? ==> CallIn(q) == CallIn(p))
  {
  }

  lemma RememberStep(S: Setting, s: State, a: Action, d: nat, inputs: seq<CallInput>)
    requires Enabled(S, s, a) && Remembers(s, d, inputs)
    ensures Remembers(Apply(S, s, a), d, if a.Call? && a.d == d then inputs + [a.input] else inputs)
  {
    var t := Apply(S, s, a);
    StepTouches(S, s, a);
    if Touched(a) == Some(d) {
      CallStep(S, s, a, d);
    } else if d < |s.deliveries| {
      assert t.deliveries[d] == s.deliveries[d];
    }
  }

  /** A delivery calls its handler at most once, with the input it remembers. */
  lemma {:induction false} CalledOnce(S: Setting, s: State, acts: seq<Action>, d: nat)
    requires Initial(s) && Run(S, s, acts).Some?
    ensures Remembers(Run(S, s, acts).value, d, InputsOf(acts, d))
  {
    if acts != [] {
      var n := |acts| - 1;
      CalledOnce(S, s, acts[..n], d);
      RememberStep(S, Run(S, s, acts[..n]).value, acts[n], d, InputsOf(acts[..n], d));
    }
  }

  /** How a finished delivery ended, judged by its handler and the one input it was called
      with. */
  ghost predicate EndsRightly(S: Setting, t: State, x: Delivery, inputs: seq<CallInput>)
    requires x.phase.Done?
  {
    var end := x.phase.end;
    if end.None? then
      inputs == [] && !Routable(HandlersAt(S, t, x.source), x.key, S.reading) && VerdictOf(end) == Term
    else
      var h, input := end.value.handler, end.value.input;
      && inputs == [input]
      && CanServe(HandlersAt(S, t, x.source), x.key, h, S.reading)
      && (CanRun(h, input) ==> Invoke(h, input).called && ErrOf(end.value) == input.result)
      && (!CanRun(h, input) ==> !Invoke(h, input).called)
      && (VerdictOf(end) == Ack <==> CanRun(h, input) && input.result == None)
      && (VerdictOf(end) == Term <==>
            || Undecodable(h, input)
            || LacksType(h, input)
            || (CanRun(h, input) && input.result.Some?
                && (Is(input.result.value, ParseJSON) || Is(input.result.value, NoMessageType))))
  }

  /** Every finished delivery of every run: without a matching handler it is terminated and
      calls nobody.  Otherwise one matching handler is called, once; if its payload decodes
      and its type is known the user's function runs and its result decides, and if not the
      message is terminated without it. */
  lemma FinishedExactly(S: Setting, s: State, acts: seq<Action>, d: nat)
    requires Initial(s) && Run(S, s, acts).Some?
    requires d < |Run(S, s, acts).value.deliveries| && Run(S, s, acts).value.deliveries[d].phase.Done?
    ensures EndsRightly(S, Run(S, s, acts).value, Run(S, s, acts).value.deliveries[d], InputsOf(acts, d))
  {
    RunIsSound(S, s, acts);
    CalledOnce(S, s, acts, d);
    FinishedRightly(S, Run(S, s, acts).value, d, InputsOf(acts, d));
  }

  lemma FinishedRightly(S: Setting, t: State, d: nat, inputs: seq<CallInput>)
    requires SoundDeliveries(S, t) && d < |t.deliveries| && t.deliveries[d].phase.Done?
    requires Remembers(t, d, inputs)
    ensures EndsRightly(S, t, t.deliveries[d], inputs)
  {
    var x := t.deliveries[d];
    assert DeliveryOk(S, t, x);
    if x.phase.end.Some? {
      CalledExactly(x.phase.end.value.handler, x.phase.end.value.input);
      SettlementExactly(x.phase.end.value.handler, x.phase.end.value.input);
    }
  }

  // ---- one settlement per delivery ------------------------------------------------------------

  /** The settlements of a delivery in a run; each says whether it got through. */
  function SettlementsOf(acts: seq<Action>, d: nat): seq<bool> {
    if acts == [] then []
    else
      var rest, a := SettlementsOf(acts[..|acts| - 1], d), acts[|acts| - 1];
      if a.Settle? && a.d == d then rest + [a.arrives] else rest
  }

  /** How a settled delivery is settled. */
  function SettledAs(phase: Phase): Option<Verdict> {
    match phase
    case Acked(_) => Some(Ack)
    case Done(end) => Some(VerdictOf(end))
    case _ => None
  }

  /** A JetStream delivery is settled once, when it should be; if that got through and was no
      Nak, its message is gone. */
  predicate SettledRightly(s: State, d: nat, settlements: seq<bool>) {
    d < |s.deliveries| && s.deliveries[d].source.Stream? ==>
      var x := s.deliveries[d];
      && x.source.entry < |s.entries|
      && (SettledAs(x.phase).None? ==> settlements == [])
      && (SettledAs(x.phase).Some? ==>
            |settlements| == 1
            && (settlements[0] && SettledAs(x.phase).value != Nak ==> s.entries[x.source.entry].gone))
  }

  lemma AckingSettles(S: Setting, s: State, d: nat, arrives: bool)
    requires Enabled(S, s, Settle(d, arrives)) && s.deliveries[d].source.Stream? && s.deliveries[d].phase.Notified?
    ensures var t := Apply(S, s, Settle(d, arrives));
      && t.deliveries[d].phase.Acked?
      && (arrives ==> t.entries[s.deliveries[d].source.entry].gone)
  {
  }

  lemma EndingSettles(S: Setting, s: State, d: nat, arrives: bool)
    requires Enabled(S, s, Settle(d, arrives)) && s.deliveries[d].source.Stream? && s.deliveries[d].phase.Recorded?
    ensures var t, end := Apply(S, s, Settle(d, arrives)), s.deliveries[d].phase.end;
      && t.deliveries[d].phase == Done(end)
      && (arrives && VerdictOf(end) == Term ==> t.entries[s.deliveries[d].source.entry].gone)
  {
  }

  lemma SettlingSettles(S: Setting, s: State, d: nat, arrives: bool)
    requires Enabled(S, s, Settle(d, arrives)) && s.deliveries[d].source.Stream? && DeliveryOk(S, s, s.deliveries[d])
    ensures var t := Apply(S, s, Settle(d, arrives));
      && SettledAs(s.deliveries[d].phase).None? && SettledAs(t.deliveries[d].phase).Some?
      && (arrives && SettledAs(t.deliveries[d].phase).value != Nak ==> t.entries[s.deliveries[d].source.entry].gone)
  {
    if s.deliveries[d].phase.Notified? {
      AckingSettles(S, s, d, arrives);
    } else {
      EndingSettles(S, s, d, arrives);
    }
  }

  lemma OthersSettleNothing(S: Setting, s: State, a: Action, d: nat)
    requires Enabled(S, s, a) && Touched(a) == Some(d) && d < |s.deliveries| && !a.Settle?
    requires s.deliveries[d].source.Stream? && DeliveryOk(S, s, s.deliveries[d])
    ensures SettledAs(Apply(S, s, a).deliveries[d].phase) == SettledAs(s.deliveries[d].phase)
  {
    if a.Record? {
      RecordSettlesNothing(S, s, d);
    }
  }

  lemma RecordSettlesNothing(S: Setting, s: State, d: nat)
    requires Enabled(S, s, Record(d)) && s.deliveries[d].source.Stream? && DeliveryOk(S, s, s.deliveries[d])
    ensures SettledAs(Apply(S, s, Record(d)).deliveries[d].phase) == SettledAs(s.deliveries[d].phase)
  {
  }

  lemma GoneStays(S: Setting, s: State, a: Action)
    requires Enabled(S, s, a)
    ensures forall e :: 0 <= e < |s.entries| && s.entries[e].gone ==> Apply(S, s, a).entries[e].gone
  {
    forall e | 0 <= e < |s.entries| && s.entries[e].gone ensures Apply(S, s, a).entries[e].gone {
      EntryStep(S, s, a, e);
    }
  }

  lemma SettledStep(S: Setting, s: State, a: Action, d: nat, settlements: seq<bool>)
    requires Enabled(S, s, a) && SoundDeliveries(S, s) && SettledRightly(s, d, settlements)
    requires d >= |s.deliveries| ==> settlements == []
    ensures SettledRightly(Apply(S, s, a), d, if a.Settle? && a.d == d then settlements + [a.arrives] else settlements)
  {
    var t := Apply(S, s, a);
    StepTouches(S, s, a);
    GoneStays(S, s, a);
    if d < |s.deliveries| {
      assert DeliveryOk(S, s, s.deliveries[d]);
      if Touched(a) == Some(d) {
        if s.deliveries[d].source.Stream? {
          if a.Settle? {
            SettlingSettles(S, s, d, a.arrives);
          } else {
            OthersSettleNothing(S, s, a, d);
          }
        }
      } else {
        assert t.deliveries[d] == s.deliveries[d];
      }
    } else if d < |t.deliveries| {
      SoundStep(S, s, a);
      assert DeliveryOk(S, t, t.deliveries[d]);
    }
  }

  lemma {:induction false} NothingSettledBefore(S: Setting, s: State, acts: seq<Action>, d: nat)
    requires Run(S, s, acts).Some? && d >= |Run(S, s, acts).value.deliveries|
    ensures SettlementsOf(acts, d) == []
  {
    if acts != [] {
      NothingSettledBefore(S, s, acts[..|acts| - 1], d);
    }
  }

  /** In every run a JetStream delivery is settled at most once, exactly once when it is done,
      as its outcome demands: an Ack or Term that gets through takes the message off. */
  lemma {:induction false} SettledOnce(S: Setting, s: State, acts: seq<Action>, d: nat)
    requires Initial(s) && Run(S, s, acts).Some?
    ensures SettledRightly(Run(S, s, acts).value, d, SettlementsOf(acts, d))
  {
    if acts != [] {
      var n := |acts| - 1;
      var t := Run(S, s, acts[..n]).value;
      SettledOnce(S, s, acts[..n], d);
      RunIsSound(S, s, acts[..n]);
      if d >= |t.deliveries| {
        NothingSettledBefore(S, s, acts[..n], d);
      }
      SettledStep(S, t, acts[n], d, SettlementsOf(acts[..n], d));
    }
  }

  // ---- counters ---------------------------------------------------------------------------------

  /** The error with which a recorded delivery's handler was left. */
  function EndError(x: Delivery): Option<Err> {
    var end := EndedWith(x.phase);
    if end.Some? && end.value.Some? then ErrOf(end.value.value) else None
  }

  /** What each counter counts.  A core delivery knows success and failure only. */
  predicate Moved(metric: Metric, x: Delivery) {
    var end := EndedWith(x.phase);
    var parse := EndError(x).Some? && Is(EndError(x).value, ParseJSON);
    var untyped := EndError(x).Some? && Is(EndError(x).value, NoMessageType);
    match metric
    case Received => !x.phase.Arrived?
    case NotParsable => x.source.Stream? && parse
    case WithoutHandler => end == Some(None) || (x.source.Stream? && untyped && !parse)
    case AckCount => end.Some? && end.value.Some? && EndError(x).None?
    case NakCount => EndError(x).Some? && (x.source.Core? || (!parse && !untyped))
  }

  /** The delivery moves this counter under these labels. */
  function Counts(mapper: string -> string, metric: Metric, consumer: string, routingKey: string): Delivery -> bool {
    (x: Delivery) => x.name == consumer && RoutingKeyLabel(mapper, x.key) == routingKey && Moved(metric, x)
  }

  lemma OneDeliveryCounts(mapper: string -> string, metric: Metric, consumer: string, routingKey: string, x: Delivery)
    ensures SamplesOf(mapper, x)[Sample(metric, consumer, routingKey)]
      == if Counts(mapper, metric, consumer, routingKey)(x) then 1 else 0
  {
  }

  /** Each counter by itself: in every run and under every label it stands at the number of
      deliveries that ended its way. */
  lemma CountersExactly(S: Setting, s: State, acts: seq<Action>, metric: Metric, consumer: string, routingKey: string)
    requires Initial(s) && Run(S, s, acts).Some?
    ensures var t := Run(S, s, acts).value;
      t.metrics[Sample(metric, consumer, routingKey)]
        == CountIf(t.deliveries, Counts(S.mapper, metric, consumer, routingKey))
  {
    RunKeepsInvariant(S, s, acts);
    var t := Run(S, s, acts).value;
    var samples, counts := EachSamples(S.mapper, t.deliveries), Counts(S.mapper, metric, consumer, routingKey);
    forall i | 0 <= i < |t.deliveries|
      ensures samples[i][Sample(metric, consumer, routingKey)] == if counts(t.deliveries[i]) then 1 else 0
    {
      OneDeliveryCounts(S.mapper, metric, consumer, routingKey, t.deliveries[i]);
    }
    SumCounts(t.deliveries, samples, counts, Sample(metric, consumer, routingKey));
  }
}
