/** The grouped consumer against one consumer per registration: what each calls for a
    published message. */
module GroupMeaning {
  import opened Words
  import opened Naming
  import opened Handlers
  import opened RoutingKeyHandlers
  import opened ConsumerConfigs
  import opened ConsumerGroups

  /** The broker hands a subject to a consumer when its stream captures it and one of
      the consumer's filters admits it. */
  predicate ServerDelivers(c: JsConsumer, subject: string) {
    && SubjectMatches(StreamSubjects(c.stream), subject)
    && exists i :: 0 <= i < |EffectiveFilters(c.config)| && SubjectMatches(EffectiveFilters(c.config)[i], subject)
  }

  /** The handler calls one message may cause on a consumer; the map's iteration order
      picks among the matching patterns. */
  predicate CanCall(c: JsConsumer, subject: string, reading: HashReading, calls: multiset<Handler>) {
    if ServerDelivers(c, subject) && Routable(c.handlers, RoutingKeyOf(subject), reading) then
      exists p :: p in c.handlers && MatchRoutingKey(p, RoutingKeyOf(subject), reading)
                  && calls == multiset{c.handlers[p]}
    else
      calls == multiset{}
  }

  predicate Admits(cfg: ConsumerConfig, subject: string) {
    SubjectMatches(FilterSubject(cfg.stream, cfg.routingKey), subject)
  }

  /** All members on one plain stream, with plain patterns. */
  predicate PlainGroup(group: Configs) {
    && group != []
    && PlainStream(group[0].stream)
    && forall i :: 0 <= i < |group| ==> group[i].stream == group[0].stream && PlainPattern(group[i].routingKey)
  }

  // ---- delivery and dispatch of a group ------------------------------------------------

  lemma {:induction false} PatternIsMapped(group: Configs, i: nat)
    requires i < |group|
    ensures group[i].routingKey in HandlersOf(group)
  {
    var n := |group| - 1;
    if i < n {
      PatternIsMapped(group[..n], i);
    }
  }

  lemma AdmitsExactly(group: Configs, i: nat, from: string, key: string)
    requires PlainGroup(group) && PlainStream(from) && i < |group|
    ensures Admits(group[i], SubjectName(from, key))
      <==> from == group[0].stream && MatchRoutingKey(group[i].routingKey, key, OneOrMore)
  {
    FilterAdmitsExactly(group[i].stream, group[i].routingKey, from, key);
  }

  /** The broker hands a published message to the group's consumer exactly when it was
      published to the group's stream under a key that one of the patterns matches. */
  lemma DeliversExactly(group: Configs, defaults: ConsumerDefaults, from: string, key: string)
    requires PlainGroup(group) && PlainStream(from)
    ensures ServerDelivers(JsConsumerOf(group, defaults), SubjectName(from, key))
      <==> from == group[0].stream
           && exists i :: 0 <= i < |group| && MatchRoutingKey(group[i].routingKey, key, OneOrMore)
    ensures ServerDelivers(JsConsumerOf(group, defaults), SubjectName(from, key))
      <==> exists i :: 0 <= i < |group| && Admits(group[i], SubjectName(from, key))
  {
    var c, subject := JsConsumerOf(group, defaults), SubjectName(from, key);
    EffectiveFiltersAreMembers(group, defaults);
    CapturedByOwnStreamOnly(from, c.stream, key);
    forall i | 0 <= i < |group|
      ensures Admits(group[i], subject) <==>
        from == group[0].stream && MatchRoutingKey(group[i].routingKey, key, OneOrMore)
      ensures Admits(group[i], subject) <==> SubjectMatches(EffectiveFilters(c.config)[i], subject)
    {
      AdmitsExactly(group, i, from, key);
    }
  }

  /** No message is without a handler: whatever the broker hands to a group's consumer is
      found again by the dispatcher, under either reading of `#`, with the published key. */
  lemma DeliveredIsRoutable(group: Configs, defaults: ConsumerDefaults, from: string, key: string, reading: HashReading)
    requires PlainGroup(group) && PlainStream(from)
    requires ServerDelivers(JsConsumerOf(group, defaults), SubjectName(from, key))
    ensures RoutingKeyOf(SubjectName(from, key)) == key
    ensures Routable(HandlersOf(group), key, reading)
  {
    DeliversExactly(group, defaults, from, key);
    KeyRoundTrip(from, key);
    var i :| 0 <= i < |group| && MatchRoutingKey(group[i].routingKey, key, OneOrMore);
    PatternIsMapped(group, i);
    ReadingMonotone(Split(group[i].routingKey), Split(key), reading);
  }

  // ---- one message seen by every registration --------------------------------------------

  /** How one registration stands to one message: whether its own filter admits it and
      whether its pattern matches the key in the dispatcher. */
  datatype Case = Case(pattern: string, handler: Handler, admits: bool, matches: bool)

  function CasesOf(group: Configs, subject: string, reading: HashReading): (r: seq<Case>)
    ensures |r| == |group|
    ensures forall i :: 0 <= i < |r| ==>
      r[i] == Case(group[i].routingKey, group[i].handler, Admits(group[i], subject),
                   MatchRoutingKey(group[i].routingKey, RoutingKeyOf(subject), reading))
  {
    seq(|group|, i requires 0 <= i < |group| =>
      Case(group[i].routingKey, group[i].handler, Admits(group[i], subject),
           MatchRoutingKey(group[i].routingKey, RoutingKeyOf(subject), reading)))
  }

  function SoloCalls(c: Case): multiset<Handler> {
    if c.admits then multiset{c.handler} else multiset{}
  }

  /** What separate consumers, one per registration, call together. */
  function SeparateCalls(cases: seq<Case>): multiset<Handler> {
    if cases == [] then multiset{}
    else SeparateCalls(cases[..|cases| - 1]) + SoloCalls(cases[|cases| - 1])
  }

  /** The grouped handler map: the last registration of a pattern wins. */
  function Mapped(cases: seq<Case>): HandlerMap {
    if cases == [] then map[]
    else Mapped(cases[..|cases| - 1])[cases[|cases| - 1].pattern := cases[|cases| - 1].handler]
  }

  predicate SomeAdmit(cases: seq<Case>) { exists i :: 0 <= i < |cases| && cases[i].admits }

  /** What the one grouped consumer may call. */
  predicate GroupedCalls(cases: seq<Case>, calls: multiset<Handler>) {
    if SomeAdmit(cases) then
      exists j :: 0 <= j < |cases| && cases[j].matches && cases[j].pattern in Mapped(cases)
                  && calls == multiset{Mapped(cases)[cases[j].pattern]}
    else
      calls == multiset{}
  }

  /** A registration that admits the message shares it with no other admitting one, and
      every other pattern the dispatcher could pick leads to the same handler. */
  predicate Unambiguous(cases: seq<Case>) {
    forall i, j | 0 <= i < |cases| && 0 <= j < |cases| && i != j ::
      cases[i].admits && cases[j].matches ==>
        !cases[j].admits && cases[j].pattern in Mapped(cases) && Mapped(cases)[cases[j].pattern] == cases[i].handler
  }

  /** Admitting implies matching, and both depend only on the pattern. */
  predicate Consistent(cases: seq<Case>) {
    && (forall i :: 0 <= i < |cases| && cases[i].admits ==> cases[i].matches)
    && (forall i, j :: 0 <= i < |cases| && 0 <= j < |cases| && cases[i].pattern == cases[j].pattern ==>
          cases[i].admits == cases[j].admits)
  }

  lemma {:induction false} LastWriterServes(cases: seq<Case>, i: nat) returns (j: nat)
    requires i < |cases|
    ensures i <= j < |cases| && cases[j].pattern == cases[i].pattern
    ensures cases[i].pattern in Mapped(cases) && Mapped(cases)[cases[i].pattern] == cases[j].handler
  {
    var n := |cases| - 1;
    if cases[n].pattern == cases[i].pattern {
      j := n;
    } else {
      j := LastWriterServes(cases[..n], i);
    }
  }

  function Without(cases: seq<Case>, i: nat): seq<Case>
    requires i < |cases|
  {
    cases[..i] + cases[i + 1..]
  }

  lemma {:induction false} SeparateConcat(a: seq<Case>, b: seq<Case>)
    ensures SeparateCalls(a + b) == SeparateCalls(a) + SeparateCalls(b)
  {
    if b == [] {
      assert a + b == a;
    } else {
      var n := |b| - 1;
      assert (a + b)[..|a| + n] == a + b[..n];
      SeparateConcat(a, b[..n]);
    }
  }

  lemma SeparateMiddle(before: seq<Case>, c: Case, behind: seq<Case>)
    ensures SeparateCalls(before + [c] + behind) == SoloCalls(c) + SeparateCalls(before + behind)
  {
    SeparateConcat(before + [c], behind);
    SeparateConcat(before, behind);
    assert (before + [c])[..|before|] == before;
  }

  lemma CutAround(cases: seq<Case>, i: nat)
    requires i < |cases|
    ensures cases[..i] + [cases[i]] + cases[i + 1..] == cases
  {
  }

  lemma SeparateSplit(cases: seq<Case>, i: nat)
    requires i < |cases|
    ensures SeparateCalls(cases) == SoloCalls(cases[i]) + SeparateCalls(Without(cases, i))
  {
    CutAround(cases, i);
    SeparateMiddle(cases[..i], cases[i], cases[i + 1..]);
  }

  lemma {:induction false} SeparateNone(cases: seq<Case>)
    requires !SomeAdmit(cases)
    ensures SeparateCalls(cases) == multiset{}
  {
    if cases != [] {
      var n := |cases| - 1;
      assert forall i :: 0 <= i < n ==> cases[..n][i] == cases[i];
      SeparateNone(cases[..n]);
    }
  }

  lemma {:induction false} SeparateOne(cases: seq<Case>, i: nat)
    requires i < |cases| && cases[i].admits
    requires forall j :: 0 <= j < |cases| && j != i ==> !cases[j].admits
    ensures SeparateCalls(cases) == multiset{cases[i].handler}
  {
    var n := |cases| - 1;
    if i == n {
      SeparateNone(cases[..n]);
    } else {
      SeparateOne(cases[..n], i);
    }
  }

  lemma SeparateTwo(cases: seq<Case>, i: nat, j: nat)
    requires i < |cases| && j < |cases| && i != j
    requires cases[i].admits && cases[j].admits
    ensures |SeparateCalls(cases)| >= 2
  {
    SeparateSplit(cases, i);
    var rest, j' := Without(cases, i), if j < i then j else j - 1;
    assert rest[j'] == cases[j];
    SeparateSplit(rest, j');
    assert |SoloCalls(cases[i])| == 1 && |SoloCalls(cases[j])| == 1;
  }

  lemma UnambiguousCalls(cases: seq<Case>, calls: multiset<Handler>)
    requires Consistent(cases) && Unambiguous(cases)
    requires GroupedCalls(cases, calls)
    ensures calls == SeparateCalls(cases)
  {
    if SomeAdmit(cases) {
      var i :| 0 <= i < |cases| && cases[i].admits;
      SeparateOne(cases, i);
      var j :| 0 <= j < |cases| && cases[j].matches && cases[j].pattern in Mapped(cases)
               && calls == multiset{Mapped(cases)[cases[j].pattern]};
      var last := LastWriterServes(cases, j);
      assert cases[last].admits == cases[j].admits;
    } else {
      SeparateNone(cases);
    }
  }

  lemma SameCallsUnambiguous(cases: seq<Case>)
    requires Consistent(cases)
    requires forall calls :: GroupedCalls(cases, calls) ==> calls == SeparateCalls(cases)
    ensures Unambiguous(cases)
  {
    forall i, j | 0 <= i < |cases| && 0 <= j < |cases| && i != j && cases[i].admits && cases[j].matches
      ensures !cases[j].admits
      ensures cases[j].pattern in Mapped(cases) && Mapped(cases)[cases[j].pattern] == cases[i].handler
    {
      var last := LastWriterServes(cases, j);
      var called := multiset{Mapped(cases)[cases[j].pattern]};
      assert GroupedCalls(cases, called);
      assert |called| == 1;
      if cases[j].admits {
        SeparateTwo(cases, i, j);
      }
      SeparateSplit(cases, i);
      assert cases[i].handler in SeparateCalls(cases);
    }
  }

  // ---- the cases stand for the consumers ---------------------------------------------------

  lemma {:induction false} MappedIsHandlersOf(group: Configs, subject: string, reading: HashReading)
    ensures Mapped(CasesOf(group, subject, reading)) == HandlersOf(group)
  {
    if group != [] {
      var n := |group| - 1;
      assert CasesOf(group, subject, reading)[..n] == CasesOf(group[..n], subject, reading);
      MappedIsHandlersOf(group[..n], subject, reading);
    }
  }

  lemma CasesConsistent(group: Configs, from: string, key: string, reading: HashReading)
    requires PlainGroup(group) && PlainStream(from)
    ensures Consistent(CasesOf(group, SubjectName(from, key), reading))
  {
    KeyRoundTrip(from, key);
    var cases := CasesOf(group, SubjectName(from, key), reading);
    forall i | 0 <= i < |cases| && cases[i].admits ensures cases[i].matches {
      AdmitsExactly(group, i, from, key);
      ReadingMonotone(Split(group[i].routingKey), Split(key), reading);
    }
  }

  lemma HandlersArePatterns(group: Configs, p: string) returns (i: nat)
    requires p in HandlersOf(group)
    ensures i < |group| && group[i].routingKey == p
  {
    var n := |group| - 1;
    if group[n].routingKey == p {
      i := n;
    } else {
      i := HandlersArePatterns(group[..n], p);
    }
  }

  lemma DeliveredIsSomeAdmit(group: Configs, defaults: ConsumerDefaults, from: string, key: string,
                             reading: HashReading)
    requires PlainGroup(group) && PlainStream(from)
    ensures ServerDelivers(JsConsumerOf(group, defaults), SubjectName(from, key))
      <==> SomeAdmit(CasesOf(group, SubjectName(from, key), reading))
  {
    var subject := SubjectName(from, key);
    var cases := CasesOf(group, subject, reading);
    DeliversExactly(group, defaults, from, key);
    if i :| 0 <= i < |cases| && cases[i].admits {
      assert Admits(group[i], subject);
    }
    if i :| 0 <= i < |group| && Admits(group[i], subject) {
      assert cases[i].admits;
    }
  }

  /** A pattern the dispatcher may pick is a matching case, and the other way round. */
  lemma PickedIsCase(group: Configs, subject: string, reading: HashReading, calls: multiset<Handler>)
    ensures var cases := CasesOf(group, subject, reading);
      (exists p :: p in HandlersOf(group) && MatchRoutingKey(p, RoutingKeyOf(subject), reading)
                   && calls == multiset{HandlersOf(group)[p]})
      <==> (exists j :: 0 <= j < |cases| && cases[j].matches && cases[j].pattern in Mapped(cases)
                        && calls == multiset{Mapped(cases)[cases[j].pattern]})
  {
    var cases := CasesOf(group, subject, reading);
    MappedIsHandlersOf(group, subject, reading);
    if p :| p in HandlersOf(group) && MatchRoutingKey(p, RoutingKeyOf(subject), reading)
            && calls == multiset{HandlersOf(group)[p]}
    {
      var j := HandlersArePatterns(group, p);
      assert cases[j].matches && cases[j].pattern == p;
    }
    if j :| 0 <= j < |cases| && cases[j].matches && cases[j].pattern in Mapped(cases)
            && calls == multiset{Mapped(cases)[cases[j].pattern]} {
      assert cases[j].pattern in HandlersOf(group);
    }
  }

  /** The calls of the grouped consumer are the grouped calls of the cases. */
  lemma CanCallIsGroupedCalls(group: Configs, defaults: ConsumerDefaults, from: string, key: string,
                              reading: HashReading, calls: multiset<Handler>)
    requires PlainGroup(group) && PlainStream(from)
    ensures CanCall(JsConsumerOf(group, defaults), SubjectName(from, key), reading, calls)
      <==> GroupedCalls(CasesOf(group, SubjectName(from, key), reading), calls)
  {
    DeliveredIsSomeAdmit(group, defaults, from, key, reading);
    PickedIsCase(group, SubjectName(from, key), reading, calls);
    if ServerDelivers(JsConsumerOf(group, defaults), SubjectName(from, key)) {
      DeliveredIsRoutable(group, defaults, from, key, reading);
    }
  }

  lemma SoloGrouped(c: Case, calls: multiset<Handler>)
    requires c.admits ==> c.matches
    ensures GroupedCalls([c], calls) <==> calls == SoloCalls(c)
  {
    assert [c][..0] == [];
    assert Mapped([c]) == map[c.pattern := c.handler];
    if c.admits {
      assert [c][0].admits;
    }
  }

  /** A registration's own consumer makes exactly the call its case asks for. */
  lemma SoloExactly(cfg: ConsumerConfig, defaults: ConsumerDefaults, from: string, key: string,
                    reading: HashReading, calls: multiset<Handler>)
    requires PlainGroup([cfg]) && PlainStream(from)
    ensures CanCall(JsConsumerOf([cfg], defaults), SubjectName(from, key), reading, calls)
      <==> calls == SoloCalls(CasesOf([cfg], SubjectName(from, key), reading)[0])
  {
    var cases := CasesOf([cfg], SubjectName(from, key), reading);
    CanCallIsGroupedCalls([cfg], defaults, from, key, reading, calls);
    CasesConsistent([cfg], from, key, reading);
    assert cases == [cases[0]];
    SoloGrouped(cases[0], calls);
  }

  /** Grouping preserves meaning exactly on the unambiguous messages: there, and only
      there, every iteration order of the grouped consumer's map makes the same calls as
      one consumer per registration does. */
  lemma GroupingPreservesMeaningExactly(group: Configs, defaults: ConsumerDefaults, from: string, key: string,
                                        reading: HashReading)
    requires PlainGroup(group) && PlainStream(from)
    ensures var cases := CasesOf(group, SubjectName(from, key), reading);
      (forall calls :: CanCall(JsConsumerOf(group, defaults), SubjectName(from, key), reading, calls)
                       ==> calls == SeparateCalls(cases))
      <==> Unambiguous(cases)
  {
    var c, subject := JsConsumerOf(group, defaults), SubjectName(from, key);
    var cases := CasesOf(group, subject, reading);
    CasesConsistent(group, from, key, reading);
    forall calls ensures CanCall(c, subject, reading, calls) <==> GroupedCalls(cases, calls) {
      CanCallIsGroupedCalls(group, defaults, from, key, reading, calls);
    }
    if Unambiguous(cases) {
      forall calls | CanCall(c, subject, reading, calls) ensures calls == SeparateCalls(cases) {
        UnambiguousCalls(cases, calls);
      }
    } else if forall calls :: CanCall(c, subject, reading, calls) ==> calls == SeparateCalls(cases) {
      SameCallsUnambiguous(cases);
    }
  }

  /** In particular, a key matched by at most one of a group's patterns keeps its meaning. */
  lemma DisjointPatternsPreserveMeaning(group: Configs, defaults: ConsumerDefaults, from: string, key: string,
                                        reading: HashReading, calls: multiset<Handler>)
    requires PlainGroup(group) && PlainStream(from)
    requires forall i, j | 0 <= i < j < |group| ::
      !(MatchRoutingKey(group[i].routingKey, key, reading) && MatchRoutingKey(group[j].routingKey, key, reading))
    requires CanCall(JsConsumerOf(group, defaults), SubjectName(from, key), reading, calls)
    ensures calls == SeparateCalls(CasesOf(group, SubjectName(from, key), reading))
  {
    var cases := CasesOf(group, SubjectName(from, key), reading);
    KeyRoundTrip(from, key);
    CasesConsistent(group, from, key, reading);
    CanCallIsGroupedCalls(group, defaults, from, key, reading, calls);
    forall i, j | 0 <= i < |cases| && 0 <= j < |cases| && i != j
      ensures !(cases[i].admits && cases[j].matches)
    {
      assert !(cases[i].matches && cases[j].matches);
    }
    UnambiguousCalls(cases, calls);
  }
}
