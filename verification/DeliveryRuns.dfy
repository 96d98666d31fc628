/** Safety of whole runs: nothing is lost silently, counters balance, redelivery is
    bounded, notifications neither block nor overrun, replies are exact. */
module DeliveryRuns {
  import opened Wrappers
  import opened Naming
  import opened Handlers
  import opened RoutingKeyHandlers
  import opened GroupMeaning
  import opened Notifications
  import opened Delivery
  import opened DeliveryInvariants
  import opened DeliveryNotes
  import opened Sums

  // ---- attempts -------------------------------------------------------------------

  function DeliveriesOf(ds: seq<Delivery>, e: nat): nat {
    if ds == [] then 0
    else DeliveriesOf(ds[..|ds| - 1], e) + if ds[|ds| - 1].source == Stream(e) then 1 else 0
  }

  /** Deliveries of a message whose handler has been called. */
  function CallsOf(ds: seq<Delivery>, e: nat): nat {
    if ds == [] then 0
    else
      var x := ds[|ds| - 1];
      CallsOf(ds[..|ds| - 1], e) + if x.source == Stream(e) && HandlerCalled(x.phase) then 1 else 0
  }

  predicate HandlerCalled(phase: Phase) {
    match phase
    case Returned(_) => true
    case Notified(_) => true
    case Acked(_) => true
    case Recorded(end) => end.Some?
    case Done(end) => end.Some?
    case _ => false
  }

  lemma {:induction false} CallsWithinDeliveries(ds: seq<Delivery>, e: nat)
    ensures CallsOf(ds, e) <= DeliveriesOf(ds, e)
  {
    if ds != [] {
      CallsWithinDeliveries(ds[..|ds| - 1], e);
    }
  }

  lemma {:induction false} DeliveriesUpdate(ds: seq<Delivery>, i: nat, phase: Phase, e: nat)
    requires i < |ds|
    ensures DeliveriesOf(ds[i := ds[i].(phase := phase)], e) == DeliveriesOf(ds, e)
  {
    var n, after := |ds| - 1, ds[i := ds[i].(phase := phase)];
    if i == n {
      assert after[..n] == ds[..n];
    } else {
      assert after[..n] == ds[..n][i := ds[i].(phase := phase)];
      DeliveriesUpdate(ds[..n], i, phase, e);
    }
  }

  /** The broker's attempt count is the number of deliveries made, never above the limit. */
  ghost predicate AttemptsExact(S: Setting, s: State) {
    && (forall e :: 0 <= e < |s.entries| ==> s.entries[e].attempts == DeliveriesOf(s.deliveries, e))
    && (forall e: nat :: |s.entries| <= e ==> DeliveriesOf(s.deliveries, e) == 0)
    && (forall e :: 0 <= e < |s.entries| && s.entries[e].consumer < |S.consumers| && MaxDeliver(S, s.entries[e]) > 0 ==>
          s.entries[e].attempts <= MaxDeliver(S, s.entries[e]))
  }

  lemma DeliveriesStep(S: Setting, s: State, a: Action, e: nat)
    requires Enabled(S, s, a)
    ensures DeliveriesOf(Apply(S, s, a).deliveries, e)
      == DeliveriesOf(s.deliveries, e) + if a == Deliver(e) then 1 else 0
  {
    var t, n := Apply(S, s, a), |s.deliveries|;
    StepTouches(S, s, a);
    if Touched(a).Some? {
      DeliveriesUpdate(s.deliveries, Touched(a).value, t.deliveries[Touched(a).value].phase, e);
    } else if a.Deliver? || a.Request? {
      assert t.deliveries[n].source == if a.Deliver? then Stream(a.entry) else Core(a.index, a.reply);
    }
  }

  /** The settlement takes its message off: an Ack or a Term that gets through. */
  predicate TakesOff(s: State, a: Action, e: nat) {
    && a.Settle? && a.arrives && a.d < |s.deliveries| && s.deliveries[a.d].source == Stream(e)
    && (s.deliveries[a.d].phase.Notified?
        || (s.deliveries[a.d].phase.Recorded? && VerdictOf(s.deliveries[a.d].phase.end) == Term))
  }

  /** A step changes an entry only by delivering it, or by removing it when the broker gives
      up on it or a settlement takes it off. */
  lemma EntryStep(S: Setting, s: State, a: Action, e: nat)
    requires Enabled(S, s, a) && e < |s.entries|
    ensures var x, y := s.entries[e], Apply(S, s, a).entries[e];
      && y == x.(attempts := if a == Deliver(e) then x.attempts + 1 else x.attempts, gone := y.gone)
      && (y.gone <==> x.gone || a == GiveUp(e) || TakesOff(s, a, e))
  {
  }

  lemma AttemptsStep(S: Setting, s: State, a: Action)
    requires SoundDeliveries(S, s) && AttemptsExact(S, s) && Enabled(S, s, a)
    ensures AttemptsExact(S, Apply(S, s, a))
  {
    var t := Apply(S, s, a);
    forall e: nat
      ensures DeliveriesOf(t.deliveries, e) == DeliveriesOf(s.deliveries, e) + if a == Deliver(e) then 1 else 0
    {
      DeliveriesStep(S, s, a, e);
    }
    forall e: nat | e < |t.entries|
      ensures t.entries[e].attempts == DeliveriesOf(t.deliveries, e)
      ensures t.entries[e].consumer < |S.consumers| && MaxDeliver(S, t.entries[e]) > 0 ==>
        t.entries[e].attempts <= MaxDeliver(S, t.entries[e])
    {
      if e < |s.entries| {
        EntryStep(S, s, a, e);
      } else {
        NewEntriesOk(S, a.subject);
      }
    }
  }

  // ---- removals -----------------------------------------------------------------------

  /** This delivery has settled its message for good: acknowledged or terminated. */
  predicate Removes(x: Delivery, e: nat) {
    x.source == Stream(e) && (x.phase.Acked? || (x.phase.Done? && VerdictOf(x.phase.end) != Nak))
  }

  predicate OutOfAttempts(S: Setting, x: Entry)
    requires x.consumer < |S.consumers|
  {
    0 < MaxDeliver(S, x) <= x.attempts
  }

  /** A message is gone only for a reason. */
  ghost predicate GoneJustified(S: Setting, s: State) {
    forall e :: 0 <= e < |s.entries| && s.entries[e].consumer < |S.consumers| && s.entries[e].gone ==>
      (exists i :: 0 <= i < |s.deliveries| && Removes(s.deliveries[i], e)) || OutOfAttempts(S, s.entries[e])
  }

  lemma RemovesStays(S: Setting, s: State, a: Action, i: nat, e: nat)
    requires SoundDeliveries(S, s) && Enabled(S, s, a)
    requires i < |s.deliveries| && Removes(s.deliveries[i], e)
    ensures i < |Apply(S, s, a).deliveries| && Removes(Apply(S, s, a).deliveries[i], e)
  {
    StepTouches(S, s, a);
    assert DeliveryOk(S, s, s.deliveries[i]);
    var t := Apply(S, s, a);
    if Touched(a) != Some(i) {
      assert t.deliveries[i] == s.deliveries[i];
    }
  }

  lemma TakenOffIsRemoved(S: Setting, s: State, a: Action, e: nat)
    requires Enabled(S, s, a) && TakesOff(s, a, e)
    requires DeliveryOk(S, s, s.deliveries[a.d])
    ensures Removes(Apply(S, s, a).deliveries[a.d], e)
  {
    var x, y := s.deliveries[a.d], Apply(S, s, a).deliveries[a.d];
    assert y == x.(phase := if x.phase.Notified? then Acked(x.phase.call) else Done(x.phase.end));
  }

  lemma NewlyGone(S: Setting, s: State, a: Action, e: nat)
    requires SoundDeliveries(S, s) && Enabled(S, s, a)
    requires e < |s.entries| && !s.entries[e].gone && (a == GiveUp(e) || TakesOff(s, a, e))
    ensures var t := Apply(S, s, a);
      (exists i :: 0 <= i < |t.deliveries| && Removes(t.deliveries[i], e)) || OutOfAttempts(S, t.entries[e])
  {
    if TakesOff(s, a, e) {
      assert DeliveryOk(S, s, s.deliveries[a.d]);
      TakenOffIsRemoved(S, s, a, e);
    }
  }

  lemma GoneStep(S: Setting, s: State, a: Action)
    requires SoundDeliveries(S, s) && GoneJustified(S, s) && Enabled(S, s, a)
    ensures GoneJustified(S, Apply(S, s, a))
  {
    var t := Apply(S, s, a);
    forall e | 0 <= e < |t.entries| && t.entries[e].consumer < |S.consumers| && t.entries[e].gone
      ensures (exists i :: 0 <= i < |t.deliveries| && Removes(t.deliveries[i], e)) || OutOfAttempts(S, t.entries[e])
    {
      if e >= |s.entries| {
        NewEntriesOk(S, a.subject);
      } else {
        EntryStep(S, s, a, e);
        if !s.entries[e].gone {
          NewlyGone(S, s, a, e);
        } else if exists i :: 0 <= i < |s.deliveries| && Removes(s.deliveries[i], e) {
          var i :| 0 <= i < |s.deliveries| && Removes(s.deliveries[i], e);
          RemovesStays(S, s, a, i, e);
        }
      }
    }
  }

  // ---- channels and replies --------------------------------------------------------------

  ghost predicate ChannelsSound(s: State) {
    && (s.successCh.Some? ==> Sound(s.successCh.value, s.succeeded))
    && (s.errorCh.Some? ==> Sound(s.errorCh.value, s.failed))
  }

  lemma ChannelsStep(S: Setting, s: State, a: Action)
    requires ChannelsSound(s) && Enabled(S, s, a)
    ensures ChannelsSound(Apply(S, s, a))
  {
    match a {
      case Notify(d, waiting) =>
        var x := s.deliveries[d];
        var note := Note(x.name, x.key, ErrOf(x.phase.call));
        if note.err.None? && s.successCh.Some? {
          OfferKeepsSound(s.successCh.value, s.succeeded, note, waiting);
        }
        if note.err.Some? && s.errorCh.Some? {
          OfferKeepsSound(s.errorCh.value, s.failed, note, waiting);
        }
      case ReadSuccess => ReadKeepsSound(s.successCh.value, s.succeeded);
      case ReadFailure => ReadKeepsSound(s.errorCh.value, s.failed);
      case _ =>
    }
  }

  /** A core delivery with a reply subject whose handler failed, at its end. */
  predicate Answered(x: Delivery) {
    x.source.Core? && x.source.reply && x.phase.Done? && x.phase.end.Some? && ErrOf(x.phase.end.value).Some?
  }

  ghost predicate RepliesExact(s: State) {
    forall d: nat :: s.replies[d] == if d < |s.deliveries| && Answered(s.deliveries[d]) then 1 else 0
  }

  lemma AnsweredStep(S: Setting, s: State, a: Action, d: nat)
    requires SoundDeliveries(S, s) && Enabled(S, s, a) && Touched(a) == Some(d) && d < |s.deliveries|
    ensures !Answered(s.deliveries[d])
    ensures Apply(S, s, a).replies
      == if Answered(Apply(S, s, a).deliveries[d]) then s.replies + multiset{d} else s.replies
  {
    assert DeliveryOk(S, s, s.deliveries[d]);
  }

  lemma TouchedReplies(s: State, t: State, d: nat)
    requires RepliesExact(s) && d < |s.deliveries| == |t.deliveries|
    requires forall i :: 0 <= i < |s.deliveries| && i != d ==> t.deliveries[i] == s.deliveries[i]
    requires !Answered(s.deliveries[d])
    requires t.replies == if Answered(t.deliveries[d]) then s.replies + multiset{d} else s.replies
    ensures RepliesExact(t)
  {
  }

  lemma AddedReplies(s: State, t: State)
    requires RepliesExact(s) && t.replies == s.replies && |s.deliveries| <= |t.deliveries|
    requires forall i :: 0 <= i < |s.deliveries| ==> t.deliveries[i] == s.deliveries[i]
    requires forall i :: |s.deliveries| <= i < |t.deliveries| ==> !Answered(t.deliveries[i])
    ensures RepliesExact(t)
  {
  }

  lemma RepliesStep(S: Setting, s: State, a: Action)
    requires SoundDeliveries(S, s) && RepliesExact(s) && Enabled(S, s, a)
    ensures RepliesExact(Apply(S, s, a))
  {
    var t, n := Apply(S, s, a), |s.deliveries|;
    StepTouches(S, s, a);
    if Touched(a).Some? {
      AnsweredStep(S, s, a, Touched(a).value);
      TouchedReplies(s, t, Touched(a).value);
    } else {
      assert t.replies == s.replies;
      forall i | 0 <= i < n ensures t.deliveries[i] == s.deliveries[i] {
        assert t.deliveries[i] == t.deliveries[..n][i];
      }
      AddedReplies(s, t);
    }
  }

  // ---- the invariant of all runs ------------------------------------------------------------

  ghost predicate Invariant(S: Setting, s: State) {
    && SoundDeliveries(S, s)
    && CountersExact(S, s)
    && AttemptsExact(S, s)
    && GoneJustified(S, s)
    && ChannelsSound(s)
    && NotesExact(s)
    && RepliesExact(s)
  }

  lemma InvariantStep(S: Setting, s: State, a: Action)
    requires Invariant(S, s) && Enabled(S, s, a)
    ensures Invariant(S, Apply(S, s, a))
  {
    SoundStep(S, s, a);
    CountersStep(S, s, a);
    AttemptsStep(S, s, a);
    GoneStep(S, s, a);
    ChannelsStep(S, s, a);
    NotesStep(S, s, a);
    RepliesStep(S, s, a);
  }

  lemma {:induction false} RunKeepsInvariant(S: Setting, s: State, acts: seq<Action>)
    requires Initial(s) && Run(S, s, acts).Some?
    ensures Invariant(S, Run(S, s, acts).value)
  {
    if acts != [] {
      var n := |acts| - 1;
      RunKeepsInvariant(S, s, acts[..n]);
      InvariantStep(S, Run(S, s, acts[..n]).value, acts[n]);
    }
  }

  // ---- main results -----------------------------------------------------------------------

  /** Metric conservation: in every run, for every consumer and label and whatever the
      mapper does to keys, what was received is what ended in one of the four ways plus
      what is still in flight. */
  lemma MetricConservation(S: Setting, s: State, acts: seq<Action>, consumer: string, routingKey: string)
    requires Initial(s) && Run(S, s, acts).Some?
    ensures var t := Run(S, s, acts).value;
      t.metrics[Sample(Received, consumer, routingKey)]
        == Outcomes(t.metrics, consumer, routingKey) + InFlight(S.mapper, t.deliveries, consumer, routingKey)
  {
    RunKeepsInvariant(S, s, acts);
    ConservationOf(S.mapper, Run(S, s, acts).value.deliveries, consumer, routingKey);
  }

  /** Every consumer has a handler for whatever the broker may hand to it. */
  ghost predicate Covered(S: Setting) {
    && (forall i, subject :: 0 <= i < |S.consumers| && ServerDelivers(S.consumers[i], subject) ==>
          Routable(S.consumers[i].handlers, RoutingKeyOf(subject), S.reading))
    && (forall i :: 0 <= i < |S.cores| ==> Routable(S.cores[i].handlers, S.cores[i].routingKey, S.reading))
  }

  predicate RoutedPhase(phase: Phase) {
    !phase.Unrouted? && ((phase.Recorded? || phase.Done?) ==> phase.end.Some?)
  }

  lemma CoveredIsRouted(S: Setting, s: State, x: Delivery)
    requires Covered(S) && DeliveryOk(S, s, x)
    ensures RoutedPhase(x.phase)
  {
    assert Routable(HandlersAt(S, s, x.source), x.key, S.reading) by {
      match x.source
      case Stream(e) => assert ServerDelivers(S.consumers[s.entries[e].consumer], s.entries[e].subject);
      case Core(_, _) =>
    }
    RoutableHasNoMiss(S, s, x);
  }

  lemma RoutableHasNoMiss(S: Setting, s: State, x: Delivery)
    requires PhaseOk(S, s, x) && Routable(HandlersAt(S, s, x.source), x.key, S.reading)
    ensures RoutedPhase(x.phase)
  {
  }

  /** With covered consumers the branch without a handler is never taken. */
  lemma NeverUnrouted(S: Setting, s: State, acts: seq<Action>, d: nat)
    requires Covered(S) && Initial(s) && Run(S, s, acts).Some?
    requires d < |Run(S, s, acts).value.deliveries|
    ensures RoutedPhase(Run(S, s, acts).value.deliveries[d].phase)
  {
    RunKeepsInvariant(S, s, acts);
    var t := Run(S, s, acts).value;
    CoveredIsRouted(S, t, t.deliveries[d]);
  }

  /** The handler call that ends a delivery. */
  predicate EndedBy(x: Delivery, call: Called) {
    x.phase == Acked(call) || x.phase == Done(Some(call))
  }

  /** Why a message may be gone: a registered handler's user function ran and returned nil,
      or a delivery failed with a parse or missing-type error, or its attempts are used up. */
  ghost predicate AccountedFor(S: Setting, s: State, e: nat)
    requires e < |s.entries| && s.entries[e].consumer < |S.consumers|
  {
    || (exists i, call ::
          && 0 <= i < |s.deliveries| && s.deliveries[i].source == Stream(e)
          && EndedBy(s.deliveries[i], call)
          && CanServe(S.consumers[s.entries[e].consumer].handlers, RoutingKeyOf(s.entries[e].subject), call.handler,
                      S.reading)
          && ((Invoke(call.handler, call.input).called && call.input.result.None?)
              || (ErrOf(call).Some? && (Is(ErrOf(call).value, ParseJSON) || Is(ErrOf(call).value, NoMessageType)))))
    || (MaxDeliver(S, s.entries[e]) > 0 && s.entries[e].attempts == MaxDeliver(S, s.entries[e]))
  }

  /** The call with which a delivery removed its message, and what it says. */
  lemma RemovalAccounts(S: Setting, s: State, i: nat, e: nat) returns (call: Called)
    requires e < |s.entries| && EntryOk(S, s.entries[e])
    requires i < |s.deliveries| && Removes(s.deliveries[i], e)
    requires DeliveryOk(S, s, s.deliveries[i]) && RoutedPhase(s.deliveries[i].phase)
    ensures EndedBy(s.deliveries[i], call)
    ensures CanServe(S.consumers[s.entries[e].consumer].handlers, RoutingKeyOf(s.entries[e].subject), call.handler,
                     S.reading)
    ensures Settlement(ErrOf(call)) != Nak
  {
    var x := s.deliveries[i];
    call := if x.phase.Acked? then x.phase.call else x.phase.end.value;
    assert CallOk(S, s, x, call.handler);
  }

  lemma GoneAccountedFor(S: Setting, s: State, e: nat)
    requires Covered(S) && SoundDeliveries(S, s) && AttemptsExact(S, s) && GoneJustified(S, s)
    requires e < |s.entries| && s.entries[e].gone
    ensures s.entries[e].consumer < |S.consumers| && AccountedFor(S, s, e)
  {
    assert EntryOk(S, s.entries[e]);
    if i :| 0 <= i < |s.deliveries| && Removes(s.deliveries[i], e) {
      assert DeliveryOk(S, s, s.deliveries[i]);
      CoveredIsRouted(S, s, s.deliveries[i]);
      var call := RemovalAccounts(S, s, i, e);
      InvokeVerdict(call.handler, call.input);
      assert 0 <= i < |s.deliveries| && s.deliveries[i].source == Stream(e) && EndedBy(s.deliveries[i], call);
    }
  }

  /** No silent loss in any run of covered consumers. */
  lemma NoSilentLoss(S: Setting, s: State, acts: seq<Action>, e: nat)
    requires Covered(S) && Initial(s) && Run(S, s, acts).Some?
    requires e < |Run(S, s, acts).value.entries| && Run(S, s, acts).value.entries[e].gone
    ensures Run(S, s, acts).value.entries[e].consumer < |S.consumers|
    ensures AccountedFor(S, Run(S, s, acts).value, e)
  {
    RunKeepsInvariant(S, s, acts);
    GoneAccountedFor(S, Run(S, s, acts).value, e);
  }

  /** Bounded redelivery: with a limit of n > 0 a message is handed to a handler at most n
      times in any run. */
  lemma BoundedRedelivery(S: Setting, s: State, acts: seq<Action>, e: nat)
    requires Initial(s) && Run(S, s, acts).Some?
    requires e < |Run(S, s, acts).value.entries|
    ensures var t := Run(S, s, acts).value;
      && t.entries[e].consumer < |S.consumers|
      && t.entries[e].attempts == DeliveriesOf(t.deliveries, e)
      && (MaxDeliver(S, t.entries[e]) > 0 ==>
            CallsOf(t.deliveries, e) <= DeliveriesOf(t.deliveries, e) <= MaxDeliver(S, t.entries[e]))
  {
    RunKeepsInvariant(S, s, acts);
    var t := Run(S, s, acts).value;
    assert EntryOk(S, t.entries[e]);
    CallsWithinDeliveries(t.deliveries, e);
  }

  /** What a message may still cost. */
  function Left(S: Setting, x: Entry): nat {
    if x.gone || x.consumer >= |S.consumers| || MaxDeliver(S, x) <= x.attempts then 0 else MaxDeliver(S, x) - x.attempts
  }

  function Remaining(S: Setting, entries: seq<Entry>): nat {
    if entries == [] then 0 else Remaining(S, entries[..|entries| - 1]) + Left(S, entries[|entries| - 1])
  }

  lemma {:induction false} RemainingFalls(S: Setting, before: seq<Entry>, after: seq<Entry>)
    requires |before| == |after|
    requires forall e :: 0 <= e < |before| ==> Left(S, after[e]) <= Left(S, before[e])
    ensures Remaining(S, after) <= Remaining(S, before)
    ensures (exists e :: 0 <= e < |before| && Left(S, after[e]) < Left(S, before[e]))
      ==> Remaining(S, after) < Remaining(S, before)
  {
    if before != [] {
      var n := |before| - 1;
      RemainingFalls(S, before[..n], after[..n]);
      if exists e :: 0 <= e < |before| && Left(S, after[e]) < Left(S, before[e]) {
        var e :| 0 <= e < |before| && Left(S, after[e]) < Left(S, before[e]);
        if e < n {
          assert Left(S, after[..n][e]) < Left(S, before[..n][e]);
        }
      }
    }
  }

  /** The remaining attempts are a measure: every delivery under a limit lowers their sum,
      and nothing but a new message raises it. */
  lemma RemainingIsMeasure(S: Setting, s: State, a: Action)
    requires Enabled(S, s, a) && !a.Publish?
    ensures Remaining(S, Apply(S, s, a).entries) <= Remaining(S, s.entries)
    ensures a.Deliver? && MaxDeliver(S, s.entries[a.entry]) > 0 ==>
      Remaining(S, Apply(S, s, a).entries) < Remaining(S, s.entries)
  {
    var t := Apply(S, s, a);
    forall e | 0 <= e < |s.entries| ensures Left(S, t.entries[e]) <= Left(S, s.entries[e]) {
      EntryStep(S, s, a, e);
    }
    RemainingFalls(S, s.entries, t.entries);
    if a.Deliver? && MaxDeliver(S, s.entries[a.entry]) > 0 {
      assert Left(S, t.entries[a.entry]) < Left(S, s.entries[a.entry]);
    }
  }

  /** Delivery attempts made under a limit. */
  function LimitedDeliveries(S: Setting, s: State, acts: seq<Action>): nat
    requires Run(S, s, acts).Some?
  {
    if acts == [] then 0
    else
      var before, a := acts[..|acts| - 1], acts[|acts| - 1];
      var t := Run(S, s, before).value;
      LimitedDeliveries(S, s, before) + if a.Deliver? && MaxDeliver(S, t.entries[a.entry]) > 0 then 1 else 0
  }

  /** Redelivery ends: until something new is published, a run makes no more deliveries
      under a limit than attempts remained when it began, whatever the handlers return. */
  lemma {:induction false} RedeliveryEnds(S: Setting, s: State, acts: seq<Action>)
    requires Run(S, s, acts).Some?
    requires forall i :: 0 <= i < |acts| ==> !acts[i].Publish?
    ensures LimitedDeliveries(S, s, acts) + Remaining(S, Run(S, s, acts).value.entries) <= Remaining(S, s.entries)
  {
    if acts != [] {
      var n := |acts| - 1;
      assert forall i :: 0 <= i < n ==> acts[..n][i] == acts[i];
      RedeliveryEnds(S, s, acts[..n]);
      RemainingIsMeasure(S, Run(S, s, acts[..n]).value, acts[n]);
    }
  }

  /** A channel against what was reported: within capacity, taken or waiting in the order of
      the reports, and nothing unaccounted for. */
  predicate Accounted(ch: Channel<Note>, reports: seq<Note>, outcomes: nat) {
    && |ch.buffer| <= ch.capacity
    && Subsequence(ch.received + ch.buffer, reports)
    && |ch.received| + |ch.buffer| + ch.dropped == |reports| == outcomes
  }

  lemma ChannelsAccounted(t: State)
    requires ChannelsSound(t) && NotesExact(t)
    ensures t.successCh.Some? ==> Accounted(t.successCh.value, t.succeeded, CountIf(t.deliveries, NotifiedSuccess))
    ensures t.errorCh.Some? ==> Accounted(t.errorCh.value, t.failed, CountIf(t.deliveries, NotifiedFailure))
  {
    if t.successCh.Some? {
      SuccessesCounted(t);
    }
    if t.errorCh.Some? {
      FailuresCounted(t);
    }
  }

  lemma OffersFromStart(S: Setting, s: State, acts: seq<Action>)
    requires s.succeeded == [] && s.failed == [] && Run(S, s, acts).Some?
    ensures var t := Run(S, s, acts).value;
      && t.successCh.Some? == s.successCh.Some? && t.errorCh.Some? == s.errorCh.Some?
      && (s.successCh.Some? ==> t.succeeded == Successes(S, s, acts))
      && (s.errorCh.Some? ==> t.failed == Failures(S, s, acts))
  {
    OffersAreOutcomes(S, s, acts);
    OfferedFromNothing(s, Run(S, s, acts).value, Successes(S, s, acts), Failures(S, s, acts));
  }

  lemma OfferedFromNothing(s: State, t: State, successes: seq<Note>, failures: seq<Note>)
    requires s.succeeded == [] && s.failed == [] && Offered(s, t, successes, failures)
    ensures t.successCh.Some? == s.successCh.Some? && t.errorCh.Some? == s.errorCh.Some?
    ensures s.successCh.Some? ==> t.succeeded == successes
    ensures s.errorCh.Some? ==> t.failed == failures
  {
  }

  lemma RunIsNoted(S: Setting, s: State, acts: seq<Action>)
    requires Initial(s) && Run(S, s, acts).Some?
    ensures ChannelsSound(Run(S, s, acts).value) && NotesExact(Run(S, s, acts).value)
  {
    RunKeepsInvariant(S, s, acts);
  }

  /** Notifications: in every run every handler call that returned nil was offered to the
      success channel and every other one to the error channel, in the order in which the
      handlers returned; buffers stay within capacity, what was sent is an in-order
      subsequence of these, and sent plus dropped are as many as the deliveries tell. */
  lemma NotificationsNeverOverrun(S: Setting, s: State, acts: seq<Action>)
    requires Initial(s) && Run(S, s, acts).Some?
    ensures var t := Run(S, s, acts).value;
      && (s.successCh.Some? ==>
            t.successCh.Some?
            && Accounted(t.successCh.value, Successes(S, s, acts), CountIf(t.deliveries, NotifiedSuccess)))
      && (s.errorCh.Some? ==>
            t.errorCh.Some?
            && Accounted(t.errorCh.value, Failures(S, s, acts), CountIf(t.deliveries, NotifiedFailure)))
  {
    RunIsNoted(S, s, acts);
    OffersFromStart(S, s, acts);
    ChannelsAccounted(Run(S, s, acts).value);
  }

  /** And what was offered is, delivery by delivery, the note of its own outcome. */
  lemma NotificationsAreOutcomes(S: Setting, s: State, acts: seq<Action>)
    requires Initial(s) && Run(S, s, acts).Some?
    ensures var t := Run(S, s, acts).value;
      && (s.successCh.Some? ==> multiset(Successes(S, s, acts)) == Sum(Each(t.deliveries, SuccessNotes)))
      && (s.errorCh.Some? ==> multiset(Failures(S, s, acts)) == Sum(Each(t.deliveries, FailureNotes)))
  {
    RunIsNoted(S, s, acts);
    OffersAreOutcomes(S, s, acts);
  }

  /** A plain service request consumer replies exactly to failed requests with a reply
      subject, once each, and never on success. */
  lemma CoreRepliesExactly(S: Setting, s: State, acts: seq<Action>, d: nat)
    requires Initial(s) && Run(S, s, acts).Some?
    ensures var t := Run(S, s, acts).value;
      t.replies[d] == if d < |t.deliveries| && Answered(t.deliveries[d]) then 1 else 0
  {
    RunKeepsInvariant(S, s, acts);
  }

  function Rank(phase: Phase): nat {
    match phase
    case Arrived => 7
    case Counted => 6
    case Unrouted => 4
    case Dispatched(_) => 5
    case Returned(_) => 4
    case Notified(_) => 3
    case Recorded(_) => 2
    case Acked(_) => 2
    case Done(_) => 0
  }

  /** The next step of an unfinished delivery. */
  lemma NextStep(S: Setting, s: State, d: nat, input: CallInput) returns (a: Action)
    requires d < |s.deliveries| && DeliveryOk(S, s, s.deliveries[d]) && !s.deliveries[d].phase.Done?
    ensures Enabled(S, s, a) && Touched(a) == Some(d)
  {
    var x := s.deliveries[d];
    match x.phase {
      case Arrived => a := Count(d);
      case Counted =>
        if p :| p in HandlersAt(S, s, x.source) && MatchRoutingKey(p, x.key, S.reading) {
          a := Route(d, p);
        } else {
          a := Miss(d);
        }
      case Unrouted => a := Record(d);
      case Dispatched(_) => a := Call(d, input);
      case Returned(_) => a := Notify(d, false);
      case Notified(call) =>
        a := if x.source.Core? || ErrOf(call).Some? then Record(d) else Settle(d, true);
      case Recorded(_) => a := Settle(d, true);
      case Acked(_) => a := Record(d);
    }
  }

  lemma SettleLowersRank(S: Setting, s: State, d: nat, arrives: bool)
    requires Enabled(S, s, Settle(d, arrives))
    ensures Rank(Apply(S, s, Settle(d, arrives)).deliveries[d].phase) < Rank(s.deliveries[d].phase)
  {
  }

  /** Every step of a delivery brings it closer to its end. */
  lemma StepLowersRank(S: Setting, s: State, a: Action, d: nat)
    requires Enabled(S, s, a) && Touched(a) == Some(d) && d < |s.deliveries|
    ensures d < |Apply(S, s, a).deliveries|
    ensures Rank(Apply(S, s, a).deliveries[d].phase) < Rank(s.deliveries[d].phase)
  {
    if a.Settle? {
      SettleLowersRank(S, s, d, a.arrives);
    }
  }

  /** Whatever is done for a delivery alone ends after at most as many steps as its rank. */
  lemma {:induction false} OwnRunsAreShort(S: Setting, s: State, acts: seq<Action>, t: State, d: nat)
    requires OwnRun(S, s, acts, t, d) && d < |s.deliveries|
    ensures d < |t.deliveries| && |acts| + Rank(t.deliveries[d].phase) <= Rank(s.deliveries[d].phase)
  {
    if acts != [] {
      var n := |acts| - 1;
      var u := Run(S, s, acts[..n]).value;
      assert forall i :: 0 <= i < n ==> acts[..n][i] == acts[i];
      OwnRunsAreShort(S, s, acts[..n], u, d);
      StepLowersRank(S, u, acts[n], d);
    }
  }

  /** Steps of the delivery alone can be continued until it is done. */
  lemma CanFinish(S: Setting, s: State, before: seq<Action>, t: State, d: nat, input: CallInput)
    returns (acts: seq<Action>, end: State)
    requires SoundDeliveries(S, t) && OwnRun(S, s, before, t, d) && d < |t.deliveries|
    ensures OwnRun(S, s, acts, end, d)
    ensures d < |end.deliveries| && end.deliveries[d].phase.Done?
    decreases Rank(t.deliveries[d].phase)
  {
    if t.deliveries[d].phase.Done? {
      acts, end := before, t;
    } else {
      var a := NextStep(S, t, d, input);
      StepLowersRank(S, t, a, d);
      SoundStep(S, t, a);
      OwnRunSnoc(S, s, before, t, d, a);
      acts, end := CanFinish(S, s, before + [a], Apply(S, t, a), d, input);
    }
  }

  lemma RunIsSound(S: Setting, s: State, acts: seq<Action>)
    requires Initial(s) && Run(S, s, acts).Some?
    ensures SoundDeliveries(S, Run(S, s, acts).value)
  {
    RunKeepsInvariant(S, s, acts);
  }

  lemma FinishesAlone(S: Setting, t: State, d: nat, input: CallInput) returns (more: seq<Action>, end: State)
    requires SoundDeliveries(S, t) && d < |t.deliveries|
    ensures OwnRun(S, t, more, end, d) && |more| <= 7
    ensures d < |end.deliveries| && end.deliveries[d].phase.Done?
  {
    more, end := CanFinish(S, t, [], t, d, input);
    OwnRunsAreShort(S, t, more, end, d);
  }

  /** Nothing blocks a delivery: from every state of every run, steps of the delivery alone
      lead to its end, whatever the channels hold and whatever its handler returns, in at
      most seven steps. */
  lemma DeliveryNeverBlocks(S: Setting, s: State, acts: seq<Action>, d: nat, input: CallInput)
    returns (more: seq<Action>, end: State)
    requires Initial(s) && Run(S, s, acts).Some?
    requires d < |Run(S, s, acts).value.deliveries|
    ensures OwnRun(S, Run(S, s, acts).value, more, end, d) && |more| <= 7
    ensures d < |end.deliveries| && end.deliveries[d].phase.Done?
  {
    RunIsSound(S, s, acts);
    more, end := FinishesAlone(S, Run(S, s, acts).value, d, input);
  }
}
