/** The routing key to handler map of one consumer. */
module RoutingKeyHandlers {
  import opened Wrappers
  import opened Naming
  import opened Handlers

  type HandlerMap = map<string, Handler>

  /** Some map iteration order makes the lookup of `key` return `h`. */
  predicate CanServe(entries: HandlerMap, key: string, h: Handler, reading: HashReading) {
    exists p :: p in entries && MatchRoutingKey(p, key, reading) && entries[p] == h
  }

  predicate Routable(entries: HandlerMap, key: string, reading: HashReading) {
    exists p :: p in entries && MatchRoutingKey(p, key, reading)
  }

  /** Walks the map in no particular order and stops at the first matching pattern. */
  method FindPattern(entries: HandlerMap, key: string, reading: HashReading) returns (pattern: Option<string>)
    ensures pattern.Some? <==> Routable(entries, key, reading)
    ensures pattern.Some? ==> pattern.value in entries && MatchRoutingKey(pattern.value, key, reading)
  {
    var todo := entries.Keys;
    while todo != {}
      invariant todo <= entries.Keys
      invariant forall p :: p in entries && p !in todo ==> !MatchRoutingKey(p, key, reading)
      decreases |todo|
    {
      var p :| p in todo;
      if MatchRoutingKey(p, key, reading) {
        return Some(p);
      }
      todo := todo - {p};
    }
    return None;
  }

  class RoutingKeyHandler {
    var entries: HandlerMap

    constructor ()
      ensures entries == map[]
    {
      entries := map[];
    }

    method Add(routingKey: string, handler: Handler)
      modifies this
      ensures entries == old(entries)[routingKey := handler]
    {
      entries := entries[routingKey := handler];
    }

    method Get(key: string, reading: HashReading) returns (handler: Option<Handler>)
      ensures handler.Some? <==> Routable(entries, key, reading)
      ensures handler.Some? ==> CanServe(entries, key, handler.value, reading)
    {
      var pattern := FindPattern(entries, key, reading);
      if pattern.Some? {
        return Some(entries[pattern.value]);
      }
      return None;
    }
  }

  /** The lookup of a key has one possible result in every iteration order exactly when
      all matching patterns carry the same handler. */
  lemma LookupDeterministic(entries: HandlerMap, key: string, reading: HashReading)
    ensures (forall g, h :: CanServe(entries, key, g, reading) && CanServe(entries, key, h, reading) ==> g == h)
      <==> (forall p, q | p in entries && q in entries ::
              MatchRoutingKey(p, key, reading) && MatchRoutingKey(q, key, reading) ==> entries[p] == entries[q])
  {
    if forall g, h :: CanServe(entries, key, g, reading) && CanServe(entries, key, h, reading) ==> g == h {
      forall p, q | p in entries && q in entries
              && MatchRoutingKey(p, key, reading) && MatchRoutingKey(q, key, reading)
        ensures entries[p] == entries[q]
      {
        assert CanServe(entries, key, entries[p], reading) && CanServe(entries, key, entries[q], reading);
      }
    }
  }
}
