/** The broker as the connection sees it: calls that may fail, streams that creation
    overwrites, and the consumers created so far. */
module Brokers {
  import opened Naming
  import opened ConsumerGroups

  /** Zero means unlimited. */
  datatype StreamLimits = StreamLimits(maxAge: int, maxBytes: int, maxMsgs: int)

  const UNLIMITED := StreamLimits(0, 0, 0)

  datatype StreamInfo = StreamInfo(subjects: seq<string>, limits: StreamLimits)

  datatype CreatedConsumer = CreatedConsumer(stream: string, config: JsConfig)

  datatype BrokerState = BrokerState(
    streams: map<string, StreamInfo>,
    consumers: seq<CreatedConsumer>,
    calls: nat)

  /** The numbers of the calls that fail; everything else succeeds. */
  type Faults = set<nat>

  predicate Works(b: BrokerState, faults: Faults) { b.calls !in faults }

  function Ticked(b: BrokerState): BrokerState { b.(calls := b.calls + 1) }

  function PutStream(b: BrokerState, name: string, limits: StreamLimits): BrokerState {
    Ticked(b).(streams := b.streams[name := StreamInfo([StreamSubjects(name)], limits)])
  }

  function PutConsumer(b: BrokerState, stream: string, config: JsConfig): BrokerState {
    Ticked(b).(consumers := b.consumers + [CreatedConsumer(stream, config)])
  }

  class Broker {
    var state: BrokerState
    const faults: Faults

    constructor (faults: Faults)
      ensures this.faults == faults
      ensures state == BrokerState(map[], [], 0)
    {
      this.faults := faults;
      state := BrokerState(map[], [], 0);
    }

    /** A call without lasting effect: connecting, opening JetStream, subscribing,
        starting to consume. */
    method Call() returns (ok: bool)
      modifies this
      ensures ok == Works(old(state), faults)
      ensures state == Ticked(old(state))
    {
      ok := state.calls !in faults;
      state := state.(calls := state.calls + 1);
    }

    method CreateOrUpdateStream(name: string, subjects: seq<string>, limits: StreamLimits) returns (ok: bool)
      requires subjects == [StreamSubjects(name)]
      modifies this
      ensures ok == Works(old(state), faults)
      ensures state == if ok then PutStream(old(state), name, limits) else Ticked(old(state))
    {
      ok := Call();
      if ok {
        state := state.(streams := state.streams[name := StreamInfo(subjects, limits)]);
      }
    }

    method CreateOrUpdateConsumer(stream: string, config: JsConfig) returns (ok: bool)
      modifies this
      ensures ok == Works(old(state), faults)
      ensures state == if ok then PutConsumer(old(state), stream, config) else Ticked(old(state))
    {
      ok := Call();
      if ok {
        state := state.(consumers := state.consumers + [CreatedConsumer(stream, config)]);
      }
    }
  }
}
