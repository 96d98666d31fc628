/** The label under which counters see a routing key. */
module Metrics {

  function RoutingKeyLabel(mapper: string -> string, key: string): (r: string)
    ensures r != ""
    ensures mapper(key) != "" ==> r == mapper(key)
    ensures mapper(key) == "" ==> r == "unknown"
  {
    var mapped := mapper(key);
    if mapped == "" then "unknown" else mapped
  }
}
