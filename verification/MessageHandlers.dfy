/** The message handlers as they run: ordered effects on counters, handler, channels and
    message.  Each is proved to be a run of the step relation on its own delivery. */
module MessageHandlers {
  import opened Wrappers
  import opened Naming
  import opened Handlers
  import opened RoutingKeyHandlers
  import opened Notifications
  import opened Metrics
  import opened Delivery
  import opened DeliveryInvariants

  /** The pending messages after a verdict on entry `e`: Ack and Term take it off, Nak and
      a lost settlement leave everything as it was. */
  function SettledEntries(entries: seq<Entry>, e: nat, verdict: Verdict, arrives: bool): seq<Entry>
    requires e < |entries|
  {
    if arrives && verdict != Nak then entries[e := entries[e].(gone := true)] else entries
  }

  /** Recording is the last step of a core delivery that sends no error. */
  lemma CoreRecordEnds(S: Setting, s: State, d: nat, end: Option<Called>)
    requires d < |s.deliveries| && s.deliveries[d].source.Core?
    requires s.deliveries[d].phase == (if end.None? then Unrouted else Notified(end.value))
    requires end.Some? ==> ErrOf(end.value).None?
    ensures Enabled(S, s, Record(d))
    ensures Apply(S, s, Record(d))
      == WithPhase(Counting(S, s, d, OutcomeMetric(s.deliveries[d].source, end)), d, Done(end))
  {
  }

  /** Recording an unrouted or failed delivery leaves its settlement open. */
  lemma RecordStays(S: Setting, s: State, d: nat, end: Option<Called>)
    requires d < |s.deliveries|
    requires s.deliveries[d].phase == (if end.None? then Unrouted else Notified(end.value))
    requires if end.None? then s.deliveries[d].source.Stream? else ErrOf(end.value).Some?
    ensures Enabled(S, s, Record(d))
    ensures Apply(S, s, Record(d))
      == WithPhase(Counting(S, s, d, OutcomeMetric(s.deliveries[d].source, end)), d, Recorded(end))
  {
  }

  /** An Ack goes out before its counter moves. */
  lemma AckSettles(S: Setting, s: State, d: nat, call: Called, arrives: bool)
    requires d < |s.deliveries| && s.deliveries[d].source.Stream? && s.deliveries[d].source.entry < |s.entries|
    requires s.deliveries[d].phase == Notified(call) && ErrOf(call).None?
    ensures Enabled(S, s, Settle(d, arrives))
    ensures Apply(S, s, Settle(d, arrives))
      == WithPhase(if arrives then RemoveEntry(s, s.deliveries[d].source.entry) else s, d, Acked(call))
  {
  }

  lemma AckRecords(S: Setting, s: State, d: nat, call: Called)
    requires d < |s.deliveries| && s.deliveries[d].phase == Acked(call) && ErrOf(call).None?
    ensures Enabled(S, s, Record(d))
    ensures Apply(S, s, Record(d)) == WithPhase(Counting(S, s, d, AckCount), d, Done(Some(call)))
  {
  }

  /** A recorded core delivery answers, if it can, and is done. */
  lemma CoreSettleEnds(S: Setting, s: State, d: nat, end: Option<Called>)
    requires d < |s.deliveries| && s.deliveries[d].source.Core? && s.deliveries[d].phase == Recorded(end)
    ensures Enabled(S, s, Settle(d, true))
    ensures var answered := if s.deliveries[d].source.reply then s.(replies := s.replies + multiset{d}) else s;
      Apply(S, s, Settle(d, true)) == WithPhase(answered, d, Done(end))
  {
  }

  class Runtime {
    const setting: Setting
    var entries: seq<Entry>
    var deliveries: seq<Delivery>
    var metrics: multiset<Sample>
    var replies: multiset<nat>
    var successCh: Option<Channel<Note>>
    var errorCh: Option<Channel<Note>>
    var succeeded: seq<Note>
    var failed: seq<Note>

    function Snapshot(): State
      reads this
    {
      State.State(entries, deliveries, metrics, replies, successCh, errorCh, succeeded, failed)
    }

    constructor (setting: Setting, successCh: Option<nat>, errorCh: Option<nat>)
      ensures this.setting == setting && Initial(Snapshot())
    {
      this.setting := setting;
      entries, deliveries, metrics, replies := [], [], multiset{}, multiset{};
      this.successCh := if successCh.Some? then Some(Channel(successCh.value, [], [], 0)) else None;
      this.errorCh := if errorCh.Some? then Some(Channel(errorCh.value, [], [], 0)) else None;
      succeeded, failed := [], [];
    }

    method MoveTo(d: nat, phase: Phase)
      requires d < |deliveries|
      modifies `deliveries
      ensures deliveries == old(deliveries)[d := old(deliveries)[d].(phase := phase)]
    {
      deliveries := deliveries[d := deliveries[d].(phase := phase)];
    }

    method Increment(d: nat, metric: Metric)
      requires d < |deliveries|
      modifies `metrics
      ensures metrics == old(metrics)
        + multiset{Sample(metric, deliveries[d].name, RoutingKeyLabel(setting.mapper, deliveries[d].key))}
    {
      var routingKey := setting.mapper(deliveries[d].key);
      if routingKey == "" {
        routingKey := "unknown";
      }
      metrics := metrics + multiset{Sample(metric, deliveries[d].name, routingKey)};
    }

    /** Offers a success to the notification channel, if there is one. */
    method NotifySucceed(note: Note, waiting: bool)
      requires note.err.None?
      modifies `successCh, `succeeded
      ensures Snapshot() == Notifying(old(Snapshot()), note, waiting)
    {
      if successCh.Some? {
        var ch := successCh.value;
        if waiting && ch.buffer == [] {
          ch := ch.(received := ch.received + [note]);
        } else if |ch.buffer| < ch.capacity {
          ch := ch.(buffer := ch.buffer + [note]);
        } else {
          ch := ch.(dropped := ch.dropped + 1);
        }
        successCh, succeeded := Some(ch), succeeded + [note];
      }
    }

    method NotifyFailed(note: Note, waiting: bool)
      requires note.err.Some?
      modifies `errorCh, `failed
      ensures Snapshot() == Notifying(old(Snapshot()), note, waiting)
    {
      if errorCh.Some? {
        var ch := errorCh.value;
        if waiting && ch.buffer == [] {
          ch := ch.(received := ch.received + [note]);
        } else if |ch.buffer| < ch.capacity {
          ch := ch.(buffer := ch.buffer + [note]);
        } else {
          ch := ch.(dropped := ch.dropped + 1);
        }
        errorCh, failed := Some(ch), failed + [note];
      }
    }

    /** Ack and Term take the message off the consumer, if they get through. */
    method Remove(e: nat, arrives: bool)
      requires e < |entries|
      modifies `entries
      ensures Snapshot() == if arrives then RemoveEntry(old(Snapshot()), e) else old(Snapshot())
    {
      if arrives {
        entries := entries[e := entries[e].(gone := true)];
      }
    }

    /** The call and its notification, common to both kinds of messages. */
    method CallAndNotify(d: nat, pattern: string, handlers: HandlerMap, input: CallInput, waiting: bool,
                         ghost s0: State, ghost before: seq<Action>)
      returns (call: Called, ghost acts: seq<Action>)
      requires OwnRun(setting, s0, before, Snapshot(), d)
      requires d < |deliveries| && deliveries[d].phase.Counted?
      requires handlers == HandlersAt(setting, Snapshot(), deliveries[d].source)
      requires pattern in handlers && MatchRoutingKey(pattern, deliveries[d].key, setting.reading)
      modifies this
      ensures OwnRun(setting, s0, acts, Snapshot(), d)
      ensures d < |deliveries| && deliveries[d] == old(deliveries[d]).(phase := Notified(call))
      ensures call == Called(handlers[pattern], input)
      ensures entries == old(entries)
    {
      var x := deliveries[d];
      MoveTo(d, Dispatched(handlers[pattern]));
      OwnRunSnoc(setting, s0, before, old(Snapshot()), d, Route(d, pattern));
      acts := before + [Route(d, pattern)];
      ghost var s1 := Snapshot();
      call := Called(handlers[pattern], input);
      var r := Invoke(call.handler, input);
      MoveTo(d, Returned(call));
      OwnRunSnoc(setting, s0, acts, s1, d, Action.Call(d, input));
      acts := acts + [Action.Call(d, input)];
      ghost var s2 := Snapshot();
      if r.err.Some? {
        NotifyFailed(Note(x.name, x.key, r.err), waiting);
      } else {
        NotifySucceed(Note(x.name, x.key, r.err), waiting);
      }
      MoveTo(d, Notified(call));
      OwnRunSnoc(setting, s0, acts, s2, d, Notify(d, waiting));
      acts := acts + [Notify(d, waiting)];
    }

    /** Counts a message as received. */
    method Receive(d: nat) returns (ghost acts: seq<Action>)
      requires d < |deliveries| && deliveries[d].phase.Arrived?
      modifies `metrics, `deliveries
      ensures OwnRun(setting, old(Snapshot()), acts, Snapshot(), d)
      ensures d < |deliveries| && deliveries[d] == old(deliveries[d]).(phase := Counted)
    {
      ghost var s0 := Snapshot();
      Increment(d, Received);
      MoveTo(d, Counted);
      assert OwnRun(setting, s0, [], s0, d);
      OwnRunSnoc(setting, s0, [], s0, d, Count(d));
      acts := [] + [Count(d)];
    }

    /** No handler was found. */
    method Unroute(d: nat, ghost s0: State, ghost before: seq<Action>) returns (ghost acts: seq<Action>)
      requires OwnRun(setting, s0, before, Snapshot(), d)
      requires d < |deliveries| && deliveries[d].phase.Counted?
      requires !Routable(HandlersAt(setting, Snapshot(), deliveries[d].source), deliveries[d].key, setting.reading)
      modifies `deliveries
      ensures OwnRun(setting, s0, acts, Snapshot(), d)
      ensures d < |deliveries| && deliveries[d] == old(deliveries[d]).(phase := Unrouted)
    {
      ghost var s1 := Snapshot();
      MoveTo(d, Unrouted);
      OwnRunSnoc(setting, s0, before, s1, d, Miss(d));
      acts := before + [Miss(d)];
    }

    /** One JetStream message: count it, look up the handler, and either terminate it or
        call the handler and settle by its result. */
    method HandleMessage(d: nat, input: CallInput, waiting: bool, arrives: bool) returns (ghost acts: seq<Action>)
      requires d < |deliveries| && deliveries[d].phase.Arrived? && deliveries[d].source.Stream?
      requires SourceOk(setting, Snapshot(), deliveries[d])
      modifies this
      ensures OwnRun(setting, old(Snapshot()), acts, Snapshot(), d)
      ensures d < |deliveries| && deliveries[d].phase.Done?
      ensures var handlers := HandlersAt(setting, old(Snapshot()), old(deliveries[d].source));
        match deliveries[d].phase.end
        case None => !Routable(handlers, old(deliveries[d].key), setting.reading)
        case Some(call) =>
          call.input == input && CanServe(handlers, old(deliveries[d].key), call.handler, setting.reading)
      ensures entries
        == SettledEntries(old(entries), old(deliveries[d].source.entry), VerdictOf(deliveries[d].phase.end), arrives)
    {
      var x := deliveries[d];
      var handlers := setting.consumers[entries[x.source.entry].consumer].handlers;
      ghost var s0 := Snapshot();
      acts := Receive(d);
      var pattern := FindPattern(handlers, x.key, setting.reading);
      if pattern.None? {
        acts := Unroute(d, s0, acts);
        acts := Finish(d, WithoutHandler, None, Term, arrives, s0, acts);
        return;
      }
      acts := HandleDelivery(d, pattern.value, handlers, input, waiting, arrives, s0, acts);
    }

    /** Calls the handler found for a counted message and settles by its result. */
    method HandleDelivery(d: nat, pattern: string, handlers: HandlerMap, input: CallInput, waiting: bool, arrives: bool,
                          ghost s0: State, ghost before: seq<Action>)
      returns (ghost acts: seq<Action>)
      requires OwnRun(setting, s0, before, Snapshot(), d)
      requires d < |deliveries| && deliveries[d].phase.Counted?
      requires deliveries[d].source.Stream? && deliveries[d].source.entry < |entries|
      requires handlers == HandlersAt(setting, Snapshot(), deliveries[d].source)
      requires pattern in handlers && MatchRoutingKey(pattern, deliveries[d].key, setting.reading)
      modifies this
      ensures OwnRun(setting, s0, acts, Snapshot(), d)
      ensures d < |deliveries| && deliveries[d].phase == Done(Some(Called(handlers[pattern], input)))
      ensures entries
        == SettledEntries(old(entries), old(deliveries[d].source.entry), VerdictOf(deliveries[d].phase.end), arrives)
    {
      var call;
      call, acts := CallAndNotify(d, pattern, handlers, input, waiting, s0, before);
      var err := ErrOf(call);
      if err.Some? {
        if Is(err.value, ParseJSON) {
          acts := Finish(d, NotParsable, Some(call), Term, arrives, s0, acts);
        } else if Is(err.value, NoMessageType) {
          acts := Finish(d, WithoutHandler, Some(call), Term, arrives, s0, acts);
        } else {
          acts := Finish(d, NakCount, Some(call), Nak, arrives, s0, acts);
        }
        return;
      }
      acts := Succeed(d, call, arrives, s0, acts);
    }

    /** The success tail of a JetStream message: Ack, then count. */
    method Succeed(d: nat, call: Called, arrives: bool, ghost s0: State, ghost before: seq<Action>)
      returns (ghost acts: seq<Action>)
      requires OwnRun(setting, s0, before, Snapshot(), d)
      requires d < |deliveries| && deliveries[d].source.Stream? && deliveries[d].source.entry < |entries|
      requires deliveries[d].phase == Notified(call) && ErrOf(call).None?
      modifies this
      ensures OwnRun(setting, s0, acts, Snapshot(), d)
      ensures d < |deliveries| && deliveries[d].phase == Done(Some(call))
      ensures entries == SettledEntries(old(entries), old(deliveries[d].source.entry), Ack, arrives)
    {
      ghost var s1 := Snapshot();
      AckSettles(setting, s1, d, call, arrives);
      Remove(deliveries[d].source.entry, arrives);
      MoveTo(d, Acked(call));
      OwnRunSnoc(setting, s0, before, s1, d, Settle(d, arrives));
      acts := before + [Settle(d, arrives)];
      ghost var s2 := Snapshot();
      AckRecords(setting, s2, d, call);
      Increment(d, AckCount);
      MoveTo(d, Done(Some(call)));
      OwnRunSnoc(setting, s0, acts, s2, d, Record(d));
      acts := acts + [Record(d)];
    }

    /** The failure tail of a JetStream message: move one counter, then Term or Nak. */
    method Finish(d: nat, metric: Metric, end: Option<Called>, verdict: Verdict, arrives: bool,
                  ghost s0: State, ghost before: seq<Action>)
      returns (ghost acts: seq<Action>)
      requires OwnRun(setting, s0, before, Snapshot(), d)
      requires d < |deliveries| && deliveries[d].source.Stream? && deliveries[d].source.entry < |entries|
      requires deliveries[d].phase == (if end.None? then Unrouted else Notified(end.value))
      requires metric == OutcomeMetric(deliveries[d].source, end) && verdict == VerdictOf(end) && verdict != Ack
      modifies this
      ensures OwnRun(setting, s0, acts, Snapshot(), d)
      ensures d < |deliveries| && deliveries[d].phase == Done(end)
      ensures entries == SettledEntries(old(entries), old(deliveries[d].source.entry), verdict, arrives)
    {
      acts := RecordEnd(d, metric, end, s0, before);
      acts := TermOrNak(d, end, verdict, arrives, s0, acts);
    }

    method RecordEnd(d: nat, metric: Metric, end: Option<Called>, ghost s0: State, ghost before: seq<Action>)
      returns (ghost acts: seq<Action>)
      requires OwnRun(setting, s0, before, Snapshot(), d)
      requires d < |deliveries|
      requires deliveries[d].phase == (if end.None? then Unrouted else Notified(end.value))
      requires metric == OutcomeMetric(deliveries[d].source, end)
      requires if end.None? then deliveries[d].source.Stream? else ErrOf(end.value).Some?
      modifies `metrics, `deliveries
      ensures OwnRun(setting, s0, acts, Snapshot(), d)
      ensures d < |deliveries| && deliveries[d] == old(deliveries[d]).(phase := Recorded(end))
    {
      ghost var s1 := Snapshot();
      RecordStays(setting, s1, d, end);
      Increment(d, metric);
      MoveTo(d, Recorded(end));
      OwnRunSnoc(setting, s0, before, s1, d, Record(d));
      acts := before + [Record(d)];
    }

    method TermOrNak(d: nat, end: Option<Called>, verdict: Verdict, arrives: bool, ghost s0: State,
                     ghost before: seq<Action>)
      returns (ghost acts: seq<Action>)
      requires OwnRun(setting, s0, before, Snapshot(), d)
      requires d < |deliveries| && deliveries[d].source.Stream? && deliveries[d].source.entry < |entries|
      requires deliveries[d].phase == Recorded(end) && verdict == VerdictOf(end) && verdict != Ack
      modifies `entries, `deliveries
      ensures OwnRun(setting, s0, acts, Snapshot(), d)
      ensures d < |deliveries| && deliveries[d].phase == Done(end)
      ensures entries == SettledEntries(old(entries), old(deliveries[d].source.entry), verdict, arrives)
    {
      ghost var s1 := Snapshot();
      if verdict == Term {
        Remove(deliveries[d].source.entry, arrives);
      }
      MoveTo(d, Done(end));
      OwnRunSnoc(setting, s0, before, s1, d, Settle(d, arrives));
      acts := before + [Settle(d, arrives)];
    }

    /** One core message: the same without a settlement, with an error reply when the
        handler failed and there is somewhere to reply to. */
    method HandleCoreMessage(d: nat, input: CallInput, waiting: bool) returns (ghost acts: seq<Action>)
      requires d < |deliveries| && deliveries[d].phase.Arrived? && deliveries[d].source.Core?
      requires SourceOk(setting, Snapshot(), deliveries[d])
      modifies this
      ensures OwnRun(setting, old(Snapshot()), acts, Snapshot(), d)
      ensures d < |deliveries| && deliveries[d].phase.Done?
      ensures entries == old(entries)
    {
      var x := deliveries[d];
      var handlers := setting.cores[x.source.index].handlers;
      ghost var s0 := Snapshot();
      acts := Receive(d);
      var pattern := FindPattern(handlers, x.key, setting.reading);
      if pattern.None? {
        acts := Unroute(d, s0, acts);
        acts := FinishCore(d, WithoutHandler, None, s0, acts);
        return;
      }
      var call;
      call, acts := CallAndNotify(d, pattern.value, handlers, input, waiting, s0, acts);
      if ErrOf(call).Some? {
        acts := FailCore(d, call, s0, acts);
        return;
      }
      acts := FinishCore(d, AckCount, Some(call), s0, acts);
    }

    /** A core message that sends nothing ends with its counter. */
    method FinishCore(d: nat, metric: Metric, end: Option<Called>, ghost s0: State, ghost before: seq<Action>)
      returns (ghost acts: seq<Action>)
      requires OwnRun(setting, s0, before, Snapshot(), d)
      requires d < |deliveries| && deliveries[d].source.Core?
      requires deliveries[d].phase == (if end.None? then Unrouted else Notified(end.value))
      requires metric == OutcomeMetric(deliveries[d].source, end) && (end.Some? ==> ErrOf(end.value).None?)
      modifies `metrics, `deliveries
      ensures OwnRun(setting, s0, acts, Snapshot(), d)
      ensures d < |deliveries| && deliveries[d].phase == Done(end)
    {
      ghost var s1 := Snapshot();
      CoreRecordEnds(setting, s1, d, end);
      Increment(d, metric);
      MoveTo(d, Done(end));
      OwnRunSnoc(setting, s0, before, s1, d, Record(d));
      acts := before + [Record(d)];
    }

    /** A failed core message counts as negatively acknowledged and answers the requester. */
    method FailCore(d: nat, call: Called, ghost s0: State, ghost before: seq<Action>)
      returns (ghost acts: seq<Action>)
      requires OwnRun(setting, s0, before, Snapshot(), d)
      requires d < |deliveries| && deliveries[d].source.Core?
      requires deliveries[d].phase == Notified(call) && ErrOf(call).Some?
      modifies `metrics, `deliveries, `replies
      ensures OwnRun(setting, s0, acts, Snapshot(), d)
      ensures d < |deliveries| && deliveries[d].phase == Done(Some(call))
      ensures replies == old(replies) + if old(deliveries[d].source.reply) then multiset{d} else multiset{}
    {
      acts := RecordEnd(d, NakCount, Some(call), s0, before);
      acts := Answer(d, call, s0, acts);
    }

    method Answer(d: nat, call: Called, ghost s0: State, ghost before: seq<Action>) returns (ghost acts: seq<Action>)
      requires OwnRun(setting, s0, before, Snapshot(), d)
      requires d < |deliveries| && deliveries[d].source.Core? && deliveries[d].phase == Recorded(Some(call))
      modifies `deliveries, `replies
      ensures OwnRun(setting, s0, acts, Snapshot(), d)
      ensures d < |deliveries| && deliveries[d].phase == Done(Some(call))
      ensures replies == old(replies) + if old(deliveries[d].source.reply) then multiset{d} else multiset{}
    {
      ghost var s1 := Snapshot();
      CoreSettleEnds(setting, s1, d, Some(call));
      if deliveries[d].source.reply {
        replies := replies + multiset{d};
      }
      MoveTo(d, Done(Some(call)));
      OwnRunSnoc(setting, s0, before, s1, d, Settle(d, true));
      acts := before + [Settle(d, true)];
    }
  }
}
