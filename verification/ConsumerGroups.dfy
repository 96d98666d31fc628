/** Grouping of the collected consumer registrations: one broker consumer per stream and
    consumer name, with the filters and handlers of all its members. */
module ConsumerGroups {
  import opened Wrappers
  import opened Naming
  import opened Handlers
  import opened RoutingKeyHandlers
  import opened ConsumerConfigs

  type Configs = seq<ConsumerConfig>

  function GroupKey(cfg: ConsumerConfig): string {
    cfg.stream + ":" + cfg.consumerName
  }

  /** The distinct group keys in order of first occurrence. */
  function Order(cfgs: Configs): seq<string> {
    if cfgs == [] then []
    else
      var rest, key := Order(cfgs[..|cfgs| - 1]), GroupKey(cfgs[|cfgs| - 1]);
      if key in rest then rest else rest + [key]
  }

  /** The registrations with group key `key`, in registration order. */
  function Members(cfgs: Configs, key: string): Configs {
    if cfgs == [] then []
    else
      var rest, cfg := Members(cfgs[..|cfgs| - 1], key), cfgs[|cfgs| - 1];
      if GroupKey(cfg) == key then rest + [cfg] else rest
  }

  function GroupsAlong(cfgs: Configs, order: seq<string>): (r: seq<Configs>)
    ensures |r| == |order|
    ensures forall i :: 0 <= i < |order| ==> r[i] == Members(cfgs, order[i])
  {
    seq(|order|, i requires 0 <= i < |order| => Members(cfgs, order[i]))
  }

  function Groups(cfgs: Configs): (r: seq<Configs>)
    ensures |r| == |Order(cfgs)|
    ensures forall i :: 0 <= i < |r| ==> r[i] == Members(cfgs, Order(cfgs)[i])
  {
    GroupsAlong(cfgs, Order(cfgs))
  }

  /** The grouping loop: a map from key to members and the list of keys as first seen. */
  method GroupPending(pending: Configs) returns (groups: map<string, Configs>, order: seq<string>)
    ensures order == Order(pending)
    ensures forall key :: key in groups <==> key in order
    ensures forall key :: key in order ==> groups[key] == Members(pending, key)
  {
    groups, order := map[], [];
    for i := 0 to |pending|
      invariant order == Order(pending[..i])
      invariant forall key :: key in groups <==> key in order
      invariant forall key :: key in order ==> groups[key] == Members(pending[..i], key)
    {
      var cfg := pending[i];
      var key := GroupKey(cfg);
      assert pending[..i + 1][..i] == pending[..i];
      var g := [];
      if key in groups {
        g := groups[key];
      } else {
        NotYetAMember(pending[..i], key);
        order := order + [key];
      }
      groups := groups[key := g + [cfg]];
    }
    assert pending[..|pending|] == pending;
  }

  // ---- the loop is a stable partition ------------------------------------------

  lemma {:induction false} OrderHolds(cfgs: Configs, key: string)
    ensures key in Order(cfgs) <==> exists i :: 0 <= i < |cfgs| && GroupKey(cfgs[i]) == key
  {
    if cfgs != [] {
      var n := |cfgs| - 1;
      OrderHolds(cfgs[..n], key);
      if key in Order(cfgs[..n]) {
        var i :| 0 <= i < n && GroupKey(cfgs[..n][i]) == key;
        assert GroupKey(cfgs[i]) == key;
      } else if exists i :: 0 <= i < |cfgs| && GroupKey(cfgs[i]) == key {
        var i :| 0 <= i < |cfgs| && GroupKey(cfgs[i]) == key;
        assert i < n ==> GroupKey(cfgs[..n][i]) == key;
      }
    }
  }

  lemma {:induction false} NotYetAMember(cfgs: Configs, key: string)
    requires key !in Order(cfgs)
    ensures Members(cfgs, key) == []
  {
    if cfgs != [] {
      NotYetAMember(cfgs[..|cfgs| - 1], key);
    }
  }

  /** Position of the first registration with this key, or the length when there is none. */
  function FirstIndex(cfgs: Configs, key: string): (i: nat)
    ensures i <= |cfgs|
    ensures i < |cfgs| ==> GroupKey(cfgs[i]) == key
    ensures forall j :: 0 <= j < i ==> GroupKey(cfgs[j]) != key
  {
    if cfgs == [] then 0
    else if GroupKey(cfgs[0]) == key then 0
    else FirstIndex(cfgs[1..], key) + 1
  }

  lemma FirstIndexPrefix(cfgs: Configs, key: string)
    requires cfgs != []
    requires FirstIndex(cfgs[..|cfgs| - 1], key) < |cfgs| - 1
    ensures FirstIndex(cfgs, key) == FirstIndex(cfgs[..|cfgs| - 1], key)
  {
    var n, k := |cfgs| - 1, FirstIndex(cfgs[..|cfgs| - 1], key);
    assert cfgs[..n][k] == cfgs[k];
    assert forall j :: 0 <= j < n ==> cfgs[..n][j] == cfgs[j];
  }

  lemma NewKeyComesLast(before: Configs, cfg: ConsumerConfig)
    requires GroupKey(cfg) !in Order(before)
    ensures FirstIndex(before + [cfg], GroupKey(cfg)) == |before|
  {
    var cfgs, key := before + [cfg], GroupKey(cfg);
    OrderHolds(before, key);
    assert forall k :: 0 <= k < |before| ==> GroupKey(cfgs[k]) == GroupKey(before[k]);
    assert GroupKey(cfgs[|before|]) == key;
  }

  /** The positions at which the keys of an order first occur increase. */
  predicate FirstOccurrences(cfgs: Configs, order: seq<string>) {
    && (forall i :: 0 <= i < |order| ==> FirstIndex(cfgs, order[i]) < |cfgs|)
    && (forall i, j :: 0 <= i < j < |order| ==> FirstIndex(cfgs, order[i]) < FirstIndex(cfgs, order[j]))
  }

  lemma FirstOccurrencesStay(before: Configs, cfg: ConsumerConfig, order: seq<string>)
    requires FirstOccurrences(before, order)
    ensures FirstOccurrences(before + [cfg], order)
    ensures forall i :: 0 <= i < |order| ==> FirstIndex(before + [cfg], order[i]) < |before|
  {
    var cfgs := before + [cfg];
    assert cfgs[..|cfgs| - 1] == before;
    forall i | 0 <= i < |order| ensures FirstIndex(cfgs, order[i]) == FirstIndex(before, order[i]) {
      FirstIndexPrefix(cfgs, order[i]);
    }
  }

  /** Keys are distinct and stand in the order in which they first occur. */
  lemma {:induction false} OrderIsFirstOccurrence(cfgs: Configs)
    ensures FirstOccurrences(cfgs, Order(cfgs))
  {
    if cfgs != [] {
      var n := |cfgs| - 1;
      OrderIsFirstOccurrence(cfgs[..n]);
      assert cfgs == cfgs[..n] + [cfgs[n]];
      FirstOccurrencesStay(cfgs[..n], cfgs[n], Order(cfgs[..n]));
      if GroupKey(cfgs[n]) !in Order(cfgs[..n]) {
        NewKeyComesLast(cfgs[..n], cfgs[n]);
      }
    }
  }

  function Flatten(groups: seq<Configs>): Configs {
    if groups == [] then [] else Flatten(groups[..|groups| - 1]) + groups[|groups| - 1]
  }

  lemma FlattenSnoc(groups: seq<Configs>, last: Configs)
    ensures Flatten(groups + [last]) == Flatten(groups) + last
  {
    assert (groups + [last])[..|groups|] == groups;
  }

  lemma {:induction false} FlattenUpdate(groups: seq<Configs>, i: nat, cfg: ConsumerConfig)
    requires i < |groups|
    ensures multiset(Flatten(groups[i := groups[i] + [cfg]])) == multiset(Flatten(groups)) + multiset{cfg}
  {
    var n := |groups| - 1;
    var before, last := groups[..n], groups[n];
    assert groups == before + [last];
    FlattenSnoc(before, last);
    if i == n {
      assert groups[i := last + [cfg]] == before + [last + [cfg]];
      FlattenSnoc(before, last + [cfg]);
      assert Flatten(before) + (last + [cfg]) == Flatten(before) + last + [cfg];
    } else {
      var updated := before[i := before[i] + [cfg]];
      assert groups[i := groups[i] + [cfg]] == updated + [last];
      FlattenSnoc(updated, last);
      FlattenUpdate(before, i, cfg);
    }
  }

  /** A registration whose key is already listed joins that group and no other. */
  lemma JoinsGroup(before: Configs, cfg: ConsumerConfig, i: nat)
    requires i < |Order(before)| && Order(before)[i] == GroupKey(cfg)
    ensures Groups(before + [cfg]) == Groups(before)[i := Groups(before)[i] + [cfg]]
  {
    var cfgs, order := before + [cfg], Order(before);
    assert cfgs[..|before|] == before;
    OrderIsFirstOccurrence(before);
    assert Order(cfgs) == order;
    forall j | 0 <= j < |order| && j != i ensures order[j] != order[i] {
      assert FirstIndex(before, order[i]) != FirstIndex(before, order[j]);
    }
  }

  /** A registration with a new key opens a group of its own behind the others. */
  lemma OpensGroup(before: Configs, cfg: ConsumerConfig)
    requires GroupKey(cfg) !in Order(before)
    ensures Groups(before + [cfg]) == Groups(before) + [[cfg]]
  {
    var cfgs, order, key := before + [cfg], Order(before), GroupKey(cfg);
    assert cfgs[..|before|] == before;
    NotYetAMember(before, key);
    assert Order(cfgs) == order + [key];
    assert cfgs[|before|] == cfg;
    assert Members(cfgs, key) == [] + [cfg];
    forall i | 0 <= i < |order| ensures Groups(cfgs)[i] == Groups(before)[i] {
      assert order[i] in order;
    }
  }

  /** Nothing is lost and nothing is doubled: the groups together hold exactly the
      registrations. */
  lemma {:induction false} GroupsConserve(cfgs: Configs)
    ensures multiset(Flatten(Groups(cfgs))) == multiset(cfgs)
  {
    if cfgs != [] {
      var n := |cfgs| - 1;
      var before, cfg := cfgs[..n], cfgs[n];
      GroupsConserve(before);
      assert cfgs == before + [cfg];
      if GroupKey(cfg) in Order(before) {
        var i :| 0 <= i < |Order(before)| && Order(before)[i] == GroupKey(cfg);
        JoinsGroup(before, cfg, i);
        FlattenUpdate(Groups(before), i, cfg);
      } else {
        OpensGroup(before, cfg);
        assert (Groups(before) + [[cfg]])[..|Groups(before)|] == Groups(before);
      }
    }
  }

  /** Positions of the members of one group. */
  function Positions(cfgs: Configs, key: string): seq<nat> {
    if cfgs == [] then []
    else
      var rest := Positions(cfgs[..|cfgs| - 1], key);
      if GroupKey(cfgs[|cfgs| - 1]) == key then rest + [|cfgs| - 1] else rest
  }

  /** A group is its registrations read off at strictly increasing positions, and no
      position with its key is skipped. */
  lemma {:induction false} MembersKeepOrder(cfgs: Configs, key: string)
    ensures var at := Positions(cfgs, key);
      && |at| == |Members(cfgs, key)|
      && (forall i :: 0 <= i < |at| ==> at[i] < |cfgs| && cfgs[at[i]] == Members(cfgs, key)[i])
      && (forall i, j :: 0 <= i < j < |at| ==> at[i] < at[j])
      && (forall k :: 0 <= k < |cfgs| ==> (GroupKey(cfgs[k]) == key <==> k in at))
  {
    if cfgs != [] {
      var n := |cfgs| - 1;
      MembersKeepOrder(cfgs[..n], key);
      var rest := Positions(cfgs[..n], key);
      assert forall k :: 0 <= k < n ==> cfgs[..n][k] == cfgs[k];
      if GroupKey(cfgs[n]) == key {
        assert Positions(cfgs, key) == rest + [n];
      }
    }
  }

  /** Members of a group carry its key; a listed group is not empty. */
  lemma MembersShareKey(cfgs: Configs, key: string)
    ensures forall i :: 0 <= i < |Members(cfgs, key)| ==> GroupKey(Members(cfgs, key)[i]) == key
    ensures forall i :: 0 <= i < |Members(cfgs, key)| ==> Members(cfgs, key)[i] in cfgs
    ensures key in Order(cfgs) ==> Members(cfgs, key) != []
  {
    MembersKeepOrder(cfgs, key);
    var at := Positions(cfgs, key);
    forall i | 0 <= i < |Members(cfgs, key)|
      ensures GroupKey(Members(cfgs, key)[i]) == key && Members(cfgs, key)[i] in cfgs
    {
      assert at[i] in at;
    }
    OrderHolds(cfgs, key);
  }

  /** The whole statement about the grouping: a stable partition. */
  lemma StablePartition(cfgs: Configs)
    ensures multiset(Flatten(Groups(cfgs))) == multiset(cfgs)
    ensures |Flatten(Groups(cfgs))| == |cfgs|
    ensures forall i, j :: 0 <= i < j < |Order(cfgs)| ==> Order(cfgs)[i] != Order(cfgs)[j]
    ensures forall i :: 0 <= i < |Groups(cfgs)| ==> Groups(cfgs)[i] != []
    ensures forall k :: 0 <= k < |cfgs| ==>
      exists i :: 0 <= i < |Order(cfgs)| && Order(cfgs)[i] == GroupKey(cfgs[k]) && cfgs[k] in Groups(cfgs)[i]
  {
    GroupsConserve(cfgs);
    assert |multiset(Flatten(Groups(cfgs)))| == |multiset(cfgs)|;
    OrderIsFirstOccurrence(cfgs);
    forall i | 0 <= i < |Groups(cfgs)| ensures Groups(cfgs)[i] != [] {
      MembersShareKey(cfgs, Order(cfgs)[i]);
    }
    forall k | 0 <= k < |cfgs|
      ensures exists i :: 0 <= i < |Order(cfgs)| && Order(cfgs)[i] == GroupKey(cfgs[k]) && cfgs[k] in Groups(cfgs)[i]
    {
      var _ := GroupOf(cfgs, k);
    }
  }

  /** The group a registration lands in. */
  lemma GroupOf(cfgs: Configs, k: nat) returns (i: nat)
    requires k < |cfgs|
    ensures i < |Order(cfgs)| && Order(cfgs)[i] == GroupKey(cfgs[k]) && cfgs[k] in Groups(cfgs)[i]
  {
    var key := GroupKey(cfgs[k]);
    OrderHolds(cfgs, key);
    i :| 0 <= i < |Order(cfgs)| && Order(cfgs)[i] == key;
    MembersKeepOrder(cfgs, key);
    var at := Positions(cfgs, key);
    assert k in at;
    var m :| 0 <= m < |at| && at[m] == k;
    assert Members(cfgs, key)[m] == cfgs[k];
  }

  // ---- what a shared key means ---------------------------------------------------

  /** `a`'s stream name swallows a colon and part of `b`'s consumer name. */
  predicate Swallows(a: ConsumerConfig, b: ConsumerConfig) {
    && |b.stream| < |a.stream|
    && var part := a.stream[|b.stream| + 1..];
       a.stream == b.stream + ":" + part && b.consumerName == part + ":" + a.consumerName
  }

  /** Exactly when two registrations share a group key: same stream and same name, or one
      stream name that reaches across a colon into the other's consumer name. */
  lemma SharedKeyExactly(a: ConsumerConfig, b: ConsumerConfig)
    ensures GroupKey(a) == GroupKey(b)
      <==> (a.stream == b.stream && a.consumerName == b.consumerName) || Swallows(a, b) || Swallows(b, a)
  {
    var ka, kb := GroupKey(a), GroupKey(b);
    if ka == kb {
      if |a.stream| == |b.stream| {
        assert a.stream == ka[..|a.stream|] == b.stream;
        assert a.consumerName == ka[|a.stream| + 1..] == b.consumerName;
      } else if |b.stream| < |a.stream| {
        LongerStreamSwallows(a, b);
      } else {
        LongerStreamSwallows(b, a);
      }
    } else {
      if Swallows(a, b) { SwallowingShares(a, b); }
      if Swallows(b, a) { SwallowingShares(b, a); }
    }
  }

  lemma LongerStreamSwallows(a: ConsumerConfig, b: ConsumerConfig)
    requires GroupKey(a) == GroupKey(b) && |b.stream| < |a.stream|
    ensures Swallows(a, b)
  {
    var k, n := GroupKey(a), |b.stream|;
    var part := a.stream[n + 1..];
    assert k[..n] == b.stream == a.stream[..n];
    assert k[n] == ':' == a.stream[n];
    assert a.stream == a.stream[..n] + [a.stream[n]] + part;
    assert b.consumerName == k[n + 1..] == part + ":" + a.consumerName;
  }

  lemma SwallowingShares(a: ConsumerConfig, b: ConsumerConfig)
    requires Swallows(a, b)
    ensures GroupKey(a) == GroupKey(b)
  {
    var part := a.stream[|b.stream| + 1..];
    assert GroupKey(a) == b.stream + ":" + part + ":" + a.consumerName;
    assert GroupKey(b) == b.stream + ":" + (part + ":" + a.consumerName);
  }

  lemma SwallowingNeedsColon(a: ConsumerConfig, b: ConsumerConfig)
    ensures Swallows(a, b) ==> ':' in a.stream
  {
    if Swallows(a, b) {
      assert a.stream[|b.stream|] == ':';
    }
  }

  /** Built on the connection of `service`: named by kind and suffix. */
  predicate NamedBy(cfg: ConsumerConfig, service: string) {
    cfg.consumerName == NameFor(cfg.ephemeral, service, cfg.suffix)
  }

  /** Reading only the first member is sound for identity: with colon-free streams on one
      connection, sharing a group means same stream, same durability and same suffix. */
  lemma SharedKeyIsSharedIdentity(a: ConsumerConfig, b: ConsumerConfig, service: string)
    requires service != "" && NamedBy(a, service) && NamedBy(b, service)
    requires ':' !in a.stream && ':' !in b.stream
    ensures GroupKey(a) == GroupKey(b)
      <==> a.stream == b.stream && ((a.ephemeral && b.ephemeral)
                                    || (!a.ephemeral && !b.ephemeral && a.suffix == b.suffix))
  {
    SharedKeyExactly(a, b);
    NamesTellKinds(service, a.ephemeral, a.suffix, b.ephemeral, b.suffix);
    SwallowingNeedsColon(a, b);
    SwallowingNeedsColon(b, a);
  }

  /** Colon-freedom is needed: with a service named "x:", a durable registration on stream
      "a" and an ephemeral one on stream "a:x" fall into one group. */
  lemma ColonsCollide(h: Handler)
    ensures var a := ConfigFor("a", "k", false, h, "x:", []);
      var b := ConfigFor("a:x", "k", true, h, "x:", []);
      GroupKey(a) == GroupKey(b) && a.stream != b.stream && a.ephemeral != b.ephemeral
  {
  }

  // ---- the broker consumer of a group -----------------------------------------------

  datatype ConsumerDefaults = ConsumerDefaults(maxDeliver: int, backOff: Option<seq<int>>)

  /** What is handed to the broker.  One filter goes into `filterSubject`, several into
      `filterSubjects`; an empty `durable` makes the consumer ephemeral; `maxDeliver` 0
      leaves deliveries unlimited. */
  datatype JsConfig = JsConfig(
    durable: string,
    filterSubject: string,
    filterSubjects: seq<string>,
    maxDeliver: int,
    backOff: seq<int>)

  /** A running consumer: its name, its stream, its handlers and the broker's view of it. */
  datatype JsConsumer = JsConsumer(name: string, stream: string, handlers: HandlerMap, config: JsConfig)

  function FiltersOf(group: Configs): (r: seq<string>)
    ensures |r| == |group|
    ensures forall i :: 0 <= i < |group| ==> r[i] == FilterSubject(group[i].stream, group[i].routingKey)
  {
    seq(|group|, i requires 0 <= i < |group| => FilterSubject(group[i].stream, group[i].routingKey))
  }

  function HandlersOf(group: Configs): HandlerMap {
    if group == [] then map[]
    else HandlersOf(group[..|group| - 1])[group[|group| - 1].routingKey := group[|group| - 1].handler]
  }

  function ResolvedMaxDeliver(first: ConsumerConfig, defaults: ConsumerDefaults): int {
    var n := if first.maxDeliver > 0 then first.maxDeliver else defaults.maxDeliver;
    if n > 0 then n else 0
  }

  function ResolvedBackOff(first: ConsumerConfig, defaults: ConsumerDefaults): seq<int> {
    var b := if first.backOff.Some? then first.backOff else defaults.backOff;
    if b.Some? then b.value else []
  }

  function JsConfigOf(group: Configs, defaults: ConsumerDefaults): JsConfig
    requires group != []
  {
    JsConfig(if group[0].ephemeral then "" else group[0].consumerName,
             if |group| == 1 then FiltersOf(group)[0] else "",
             if |group| == 1 then [] else FiltersOf(group),
             ResolvedMaxDeliver(group[0], defaults),
             ResolvedBackOff(group[0], defaults))
  }

  function JsConsumerOf(group: Configs, defaults: ConsumerDefaults): JsConsumer
    requires group != []
  {
    JsConsumer(group[0].consumerName, group[0].stream, HandlersOf(group), JsConfigOf(group, defaults))
  }

  predicate NonEmptyGroups(groups: seq<Configs>) {
    forall i :: 0 <= i < |groups| ==> groups[i] != []
  }

  lemma GroupsNonEmpty(cfgs: Configs)
    ensures NonEmptyGroups(Groups(cfgs))
  {
    StablePartition(cfgs);
  }

  /** The consumers for a list of groups. */
  function ConsumersFor(groups: seq<Configs>, defaults: ConsumerDefaults): (r: seq<JsConsumer>)
    requires NonEmptyGroups(groups)
    ensures |r| == |groups|
    ensures forall i :: 0 <= i < |groups| ==> r[i] == JsConsumerOf(groups[i], defaults)
  {
    seq(|groups|, i requires 0 <= i < |groups| => JsConsumerOf(groups[i], defaults))
  }

  /** The consumers a list of registrations asks for: one per group, in group order. */
  function ConsumersOf(cfgs: Configs, defaults: ConsumerDefaults): (r: seq<JsConsumer>)
    ensures |r| == |Groups(cfgs)|
    ensures NonEmptyGroups(Groups(cfgs))
    ensures r == ConsumersFor(Groups(cfgs), defaults)
  {
    GroupsNonEmpty(cfgs);
    ConsumersFor(Groups(cfgs), defaults)
  }

  lemma PlanAt(cfgs: Configs, defaults: ConsumerDefaults, i: nat)
    requires i < |Order(cfgs)|
    ensures Members(cfgs, Order(cfgs)[i]) != []
    ensures ConsumersOf(cfgs, defaults)[i] == JsConsumerOf(Members(cfgs, Order(cfgs)[i]), defaults)
  {
    GroupsNonEmpty(cfgs);
  }

  /** The filters the broker applies. */
  function EffectiveFilters(config: JsConfig): seq<string> {
    if config.filterSubjects == [] then [config.filterSubject] else config.filterSubjects
  }

  /** Either field carries exactly the members' filters, one per registration. */
  lemma EffectiveFiltersAreMembers(group: Configs, defaults: ConsumerDefaults)
    requires group != []
    ensures EffectiveFilters(JsConfigOf(group, defaults)) == FiltersOf(group)
  {
    if |group| == 1 {
      assert FiltersOf(group) == [FiltersOf(group)[0]];
    }
  }

  /** Collects filters and handlers from all members of a group. */
  method CollectGroup(configs: Configs) returns (filters: seq<string>, handlers: RoutingKeyHandler)
    ensures fresh(handlers)
    ensures filters == FiltersOf(configs)
    ensures handlers.entries == HandlersOf(configs)
  {
    filters := [];
    handlers := new RoutingKeyHandler();
    for i := 0 to |configs|
      invariant fresh(handlers)
      invariant filters == FiltersOf(configs[..i])
      invariant handlers.entries == HandlersOf(configs[..i])
    {
      assert configs[..i + 1][..i] == configs[..i];
      filters := filters + [FilterSubject(configs[i].stream, configs[i].routingKey)];
      handlers.Add(configs[i].routingKey, configs[i].handler);
    }
    assert configs[..|configs|] == configs;
  }

  /** Builds the consumer of a group: filters and handlers from all members, everything
      else from the first. */
  method PlanGroup(configs: Configs, defaults: ConsumerDefaults) returns (plan: JsConsumer)
    requires configs != []
    ensures plan == JsConsumerOf(configs, defaults)
  {
    var first := configs[0];
    var filters, handlers := CollectGroup(configs);
    var jsCfg := JsConfig("", "", [], 0, []);
    if !first.ephemeral {
      jsCfg := jsCfg.(durable := first.consumerName);
    }
    if |filters| == 1 {
      jsCfg := jsCfg.(filterSubject := filters[0]);
    } else {
      jsCfg := jsCfg.(filterSubjects := filters);
    }
    var maxDeliver := defaults.maxDeliver;
    if first.maxDeliver > 0 {
      maxDeliver := first.maxDeliver;
    }
    if maxDeliver > 0 {
      jsCfg := jsCfg.(maxDeliver := maxDeliver);
    }
    var backOff := defaults.backOff;
    if first.backOff.Some? {
      backOff := first.backOff;
    }
    if backOff.Some? && |backOff.value| > 0 {
      jsCfg := jsCfg.(backOff := backOff.value);
    }
    plan := JsConsumer(first.consumerName, first.stream, handlers.entries, jsCfg);
  }

  // ---- only the first member's delivery limit counts -----------------------------------

  /** A member's own positive limit is in force exactly when the first member asks for the
      same, or asks for nothing and the default happens to be the same. */
  lemma MaxDeliverTakesEffect(group: Configs, defaults: ConsumerDefaults, i: nat)
    requires i < |group| && group[i].maxDeliver > 0
    ensures JsConfigOf(group, defaults).maxDeliver == group[i].maxDeliver
      <==> group[0].maxDeliver == group[i].maxDeliver
           || (group[0].maxDeliver <= 0 && defaults.maxDeliver == group[i].maxDeliver)
  {
  }

  /** Neither does a later backoff list count: a member's own list is in force exactly when
      the first member has the same, or has none and the default is the same. */
  lemma BackOffTakesEffect(group: Configs, defaults: ConsumerDefaults, i: nat)
    requires i < |group| && group[i].backOff.Some? && group[i].backOff.value != []
    ensures JsConfigOf(group, defaults).backOff == group[i].backOff.value
      <==> group[0].backOff == group[i].backOff
           || (group[0].backOff.None? && defaults.backOff == group[i].backOff)
  {
  }

  /** The documented example: a default of 5, and a second registration that asks for 10. */
  lemma LaterMaxDeliverIgnored(h: Handler)
    ensures var first := ConfigFor("events", "Order.Created", false, h, "svc", []);
      var second := ConfigFor("events", "Order.Shipped", false, h, "svc", [WithMaxDeliver(10)]);
      && GroupKey(first) == GroupKey(second)
      && second.maxDeliver == 10
      && JsConfigOf([first, second], ConsumerDefaults(5, None)).maxDeliver == 5
  {
  }
}
