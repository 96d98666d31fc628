/** Grouping seen from the whole service: all started consumers together against one
    consumer per registration. */
module ServiceMeaning {
  import opened Sums
  import opened Naming
  import opened Handlers
  import opened ConsumerConfigs
  import opened ConsumerGroups
  import opened GroupMeaning
  import opened Overlaps
  import opened Brokers
  import opened Setups
  import opened Startup
  import opened EndToEnd

  // ---- lists of cases, one per group -----------------------------------------------------

  function SeparateEach(groups: seq<seq<Case>>): (r: seq<multiset<Handler>>)
    ensures |r| == |groups|
    ensures forall i :: 0 <= i < |groups| ==> r[i] == SeparateCalls(groups[i])
  {
    seq(|groups|, i requires 0 <= i < |groups| => SeparateCalls(groups[i]))
  }

  /** One possible call outcome for every group. */
  ghost predicate Possible(groups: seq<seq<Case>>, each: seq<multiset<Handler>>) {
    |each| == |groups| && forall i :: 0 <= i < |groups| ==> GroupedCalls(groups[i], each[i])
  }

  ghost predicate AllConsistent(groups: seq<seq<Case>>) {
    forall i :: 0 <= i < |groups| ==> Consistent(groups[i])
  }

  /** Some outcome is always possible. */
  lemma SomeCalls(cases: seq<Case>) returns (calls: multiset<Handler>)
    requires Consistent(cases)
    ensures GroupedCalls(cases, calls)
  {
    if i :| 0 <= i < |cases| && cases[i].admits {
      var j := LastWriterServes(cases, i);
      calls := multiset{Mapped(cases)[cases[i].pattern]};
    } else {
      calls := multiset{};
    }
  }

  /** None calls more handlers than separate consumers do. */
  lemma GroupedCallsNoMore(cases: seq<Case>, calls: multiset<Handler>)
    requires GroupedCalls(cases, calls)
    ensures |calls| <= |SeparateCalls(cases)|
  {
    if i :| 0 <= i < |cases| && cases[i].admits {
      SeparateSplit(cases, i);
      assert |SoloCalls(cases[i])| == 1;
    }
  }

  /** If at most one registration is to be called, calling just it is possible. */
  lemma LoneCallPossible(cases: seq<Case>)
    requires Consistent(cases) && |SeparateCalls(cases)| <= 1
    ensures GroupedCalls(cases, SeparateCalls(cases))
  {
    if i :| 0 <= i < |cases| && cases[i].admits {
      forall j | 0 <= j < |cases| && j != i ensures !cases[j].admits {
        if cases[j].admits {
          SeparateTwo(cases, i, j);
        }
      }
      SeparateOne(cases, i);
      var last := LastWriterServes(cases, i);
      assert cases[last].admits;
    } else {
      SeparateNone(cases);
    }
  }

  lemma {:induction false} SomeForEach(groups: seq<seq<Case>>) returns (each: seq<multiset<Handler>>)
    requires AllConsistent(groups)
    ensures Possible(groups, each)
  {
    if groups == [] {
      each := [];
    } else {
      var n := |groups| - 1;
      var rest := SomeForEach(groups[..n]);
      var calls := SomeCalls(groups[n]);
      each := rest + [calls];
    }
  }

  /** Whatever the iteration orders, the groups together call `want`. */
  ghost predicate AlwaysTotal(groups: seq<seq<Case>>, want: multiset<Handler>) {
    forall each :: Possible(groups, each) ==> Sum(each) == want
  }

  ghost predicate AllUnambiguous(groups: seq<seq<Case>>) {
    forall i :: 0 <= i < |groups| ==> Unambiguous(groups[i])
  }

  lemma PossibleIsSmaller(groups: seq<seq<Case>>, each: seq<multiset<Handler>>, i: nat)
    requires Possible(groups, each) && i < |groups|
    ensures |each[i]| <= |SeparateEach(groups)[i]|
  {
    assert GroupedCalls(groups[i], each[i]);
    GroupedCallsNoMore(groups[i], each[i]);
  }

  lemma GroupedAtMostOne(cases: seq<Case>, calls: multiset<Handler>)
    requires GroupedCalls(cases, calls)
    ensures |calls| <= 1
  {
  }

  /** If the total is always that of separate consumers, no group has more than one
      registration to call. */
  lemma SameTotalsAreLone(groups: seq<seq<Case>>, i: nat)
    requires AllConsistent(groups) && i < |groups|
    requires AlwaysTotal(groups, Sum(SeparateEach(groups)))
    ensures |SeparateCalls(groups[i])| <= 1
  {
    var each := SomeForEach(groups);
    forall k | 0 <= k < |groups| ensures |each[k]| <= |SeparateEach(groups)[k]| {
      PossibleIsSmaller(groups, each, k);
    }
    SumSizes(each, SeparateEach(groups));
    GroupedAtMostOne(groups[i], each[i]);
  }

  lemma SeparatePossible(groups: seq<seq<Case>>)
    requires AllConsistent(groups)
    requires AlwaysTotal(groups, Sum(SeparateEach(groups)))
    ensures Possible(groups, SeparateEach(groups))
  {
    forall k | 0 <= k < |groups| ensures GroupedCalls(groups[k], SeparateEach(groups)[k]) {
      SameTotalsAreLone(groups, k);
      LoneCallPossible(groups[k]);
    }
  }

  lemma PossibleUpdate(groups: seq<seq<Case>>, each: seq<multiset<Handler>>, i: nat, calls: multiset<Handler>)
    requires Possible(groups, each) && i < |groups| && GroupedCalls(groups[i], calls)
    ensures Possible(groups, each[i := calls])
  {
  }

  /** And every outcome of every group is that of separate consumers. */
  lemma SameTotalsSameCalls(groups: seq<seq<Case>>, i: nat, calls: multiset<Handler>)
    requires AllConsistent(groups) && i < |groups|
    requires AlwaysTotal(groups, Sum(SeparateEach(groups)))
    requires GroupedCalls(groups[i], calls)
    ensures calls == SeparateCalls(groups[i])
  {
    SeparatePossible(groups);
    PossibleUpdate(groups, SeparateEach(groups), i, calls);
    SameSumSameTerm(SeparateEach(groups), i, calls);
  }

  lemma UnambiguousTotal(groups: seq<seq<Case>>, each: seq<multiset<Handler>>)
    requires AllConsistent(groups) && AllUnambiguous(groups) && Possible(groups, each)
    ensures each == SeparateEach(groups)
  {
    forall i | 0 <= i < |groups| ensures each[i] == SeparateEach(groups)[i] {
      UnambiguousCalls(groups[i], each[i]);
    }
  }

  /** All groups together make the calls of separate consumers in every iteration order
      exactly when every single group is unambiguous: no group makes up for another. */
  lemma TotalsExactly(groups: seq<seq<Case>>)
    requires AllConsistent(groups)
    ensures AlwaysTotal(groups, Sum(SeparateEach(groups))) <==> AllUnambiguous(groups)
  {
    if AllUnambiguous(groups) {
      forall each | Possible(groups, each) ensures Sum(each) == Sum(SeparateEach(groups)) {
        UnambiguousTotal(groups, each);
      }
    }
    if AlwaysTotal(groups, Sum(SeparateEach(groups))) {
      forall i | 0 <= i < |groups| ensures Unambiguous(groups[i]) {
        forall calls | GroupedCalls(groups[i], calls) ensures calls == SeparateCalls(groups[i]) {
          SameTotalsSameCalls(groups, i, calls);
        }
        SameCallsUnambiguous(groups[i]);
      }
    }
  }

  // ---- the groups' cases are all cases -----------------------------------------------------

  function CasesEach(groups: seq<Configs>, subject: string, reading: HashReading): (r: seq<seq<Case>>)
    ensures |r| == |groups|
    ensures forall i :: 0 <= i < |groups| ==> r[i] == CasesOf(groups[i], subject, reading)
  {
    seq(|groups|, i requires 0 <= i < |groups| => CasesOf(groups[i], subject, reading))
  }

  // ---- whatever registrations contribute, grouping keeps the total ---------------------------

  function Total<T>(cfgs: Configs, own: ConsumerConfig -> multiset<T>): multiset<T> {
    if cfgs == [] then multiset{} else Total(cfgs[..|cfgs| - 1], own) + own(cfgs[|cfgs| - 1])
  }

  function TotalEach<T>(groups: seq<Configs>, own: ConsumerConfig -> multiset<T>): (r: seq<multiset<T>>)
    ensures |r| == |groups|
    ensures forall i :: 0 <= i < |groups| ==> r[i] == Total(groups[i], own)
  {
    seq(|groups|, i requires 0 <= i < |groups| => Total(groups[i], own))
  }

  lemma TotalSnoc<T>(cfgs: Configs, cfg: ConsumerConfig, own: ConsumerConfig -> multiset<T>)
    ensures Total(cfgs + [cfg], own) == Total(cfgs, own) + own(cfg)
  {
    assert (cfgs + [cfg])[..|cfgs|] == cfgs;
  }

  lemma JoiningAdds<T>(groups: seq<Configs>, i: nat, cfg: ConsumerConfig, own: ConsumerConfig -> multiset<T>)
    requires i < |groups|
    ensures Sum(TotalEach(groups[i := groups[i] + [cfg]], own)) == Sum(TotalEach(groups, own)) + own(cfg)
  {
    var sums := TotalEach(groups, own);
    TotalSnoc(groups[i], cfg, own);
    assert TotalEach(groups[i := groups[i] + [cfg]], own) == sums[i := sums[i] + own(cfg)];
    SumUpdate(sums, i, own(cfg));
  }

  lemma OpeningAdds<T>(groups: seq<Configs>, cfg: ConsumerConfig, own: ConsumerConfig -> multiset<T>)
    ensures Sum(TotalEach(groups + [[cfg]], own)) == Sum(TotalEach(groups, own)) + own(cfg)
  {
    var sums := TotalEach(groups, own);
    TotalSnoc([], cfg, own);
    assert [] + [cfg] == [cfg];
    assert Total([cfg], own) == own(cfg);
    assert TotalEach(groups + [[cfg]], own) == sums + [own(cfg)];
    SumSnoc(sums, own(cfg));
  }

  lemma GroupsAddOne<T>(before: Configs, cfg: ConsumerConfig, own: ConsumerConfig -> multiset<T>)
    ensures Sum(TotalEach(Groups(before + [cfg]), own)) == Sum(TotalEach(Groups(before), own)) + own(cfg)
  {
    if GroupKey(cfg) in Order(before) {
      var i :| 0 <= i < |Order(before)| && Order(before)[i] == GroupKey(cfg);
      JoinsGroup(before, cfg, i);
      JoiningAdds(Groups(before), i, cfg, own);
    } else {
      OpensGroup(before, cfg);
      OpeningAdds(Groups(before), cfg, own);
    }
  }

  lemma {:induction false} GroupsKeepTotal<T>(cfgs: Configs, own: ConsumerConfig -> multiset<T>)
    ensures Sum(TotalEach(Groups(cfgs), own)) == Total(cfgs, own)
  {
    if cfgs == [] {
      assert Groups([]) == [];
    } else {
      var before, cfg := cfgs[..|cfgs| - 1], cfgs[|cfgs| - 1];
      GroupsKeepTotal(before, own);
      GroupsAddOne(before, cfg, own);
      assert cfgs == before + [cfg];
    }
  }

  lemma {:induction false} SeparateIsTotal(cases: seq<Case>, cfgs: Configs, own: ConsumerConfig -> multiset<Handler>)
    requires |cases| == |cfgs|
    requires forall i :: 0 <= i < |cases| ==> SoloCalls(cases[i]) == own(cfgs[i])
    ensures SeparateCalls(cases) == Total(cfgs, own)
  {
    if cases != [] {
      SeparateIsTotal(cases[..|cases| - 1], cfgs[..|cfgs| - 1], own);
    }
  }

  /** What one registration alone calls. */
  function OwnCalls(cfg: ConsumerConfig, subject: string): multiset<Handler> {
    if Admits(cfg, subject) then multiset{cfg.handler} else multiset{}
  }

  /** Separate consumers call the same in total however the registrations are grouped. */
  lemma GroupsCoverCases(cfgs: Configs, subject: string, reading: HashReading)
    ensures Sum(SeparateEach(CasesEach(Groups(cfgs), subject, reading)))
      == SeparateCalls(CasesOf(cfgs, subject, reading))
  {
    var own := cfg => OwnCalls(cfg, subject);
    forall i | 0 <= i < |Groups(cfgs)|
      ensures SeparateCalls(CasesOf(Groups(cfgs)[i], subject, reading)) == TotalEach(Groups(cfgs), own)[i]
    {
      SeparateIsTotal(CasesOf(Groups(cfgs)[i], subject, reading), Groups(cfgs)[i], own);
    }
    assert SeparateEach(CasesEach(Groups(cfgs), subject, reading)) == TotalEach(Groups(cfgs), own);
    GroupsKeepTotal(cfgs, own);
    SeparateIsTotal(CasesOf(cfgs, subject, reading), cfgs, own);
  }

  // ---- a started service ---------------------------------------------------------------------

  /** One possible call outcome for every consumer. */
  ghost predicate EachCanCall(consumers: seq<JsConsumer>, subject: string, reading: HashReading,
                              each: seq<multiset<Handler>>) {
    |each| == |consumers| && forall i :: 0 <= i < |consumers| ==> CanCall(consumers[i], subject, reading, each[i])
  }

  /** The handler calls a message may cause on all consumers together. */
  ghost predicate AllCanCall(consumers: seq<JsConsumer>, subject: string, reading: HashReading,
                             total: multiset<Handler>) {
    exists each :: EachCanCall(consumers, subject, reading, each) && total == Sum(each)
  }

  /** One consumer per registration. */
  function Ungrouped(cfgs: Configs, d: ConsumerDefaults): (r: seq<JsConsumer>)
    ensures |r| == |cfgs|
    ensures forall i :: 0 <= i < |cfgs| ==> r[i] == JsConsumerOf([cfgs[i]], d)
  {
    seq(|cfgs|, i requires 0 <= i < |cfgs| => JsConsumerOf([cfgs[i]], d))
  }

  function SoloEach(cases: seq<Case>): (r: seq<multiset<Handler>>)
    ensures |r| == |cases|
    ensures forall i :: 0 <= i < |cases| ==> r[i] == SoloCalls(cases[i])
  {
    seq(|cases|, i requires 0 <= i < |cases| => SoloCalls(cases[i]))
  }

  lemma {:induction false} SoloEachSum(cases: seq<Case>)
    ensures Sum(SoloEach(cases)) == SeparateCalls(cases)
  {
    if cases != [] {
      var n := |cases| - 1;
      SoloEachSum(cases[..n]);
      assert SoloEach(cases)[..n] == SoloEach(cases[..n]);
    }
  }

  lemma SoloAt(cfgs: Configs, d: ConsumerDefaults, from: string, key: string, reading: HashReading, i: nat,
               calls: multiset<Handler>)
    requires PlainRegistrations(cfgs) && PlainStream(from) && i < |cfgs|
    ensures CanCall(Ungrouped(cfgs, d)[i], SubjectName(from, key), reading, calls)
      <==> calls == SoloEach(CasesOf(cfgs, SubjectName(from, key), reading))[i]
  {
    SoloExactly(cfgs[i], d, from, key, reading, calls);
    assert CasesOf([cfgs[i]], SubjectName(from, key), reading)[0] == CasesOf(cfgs, SubjectName(from, key), reading)[i];
  }

  lemma SoloEachExactly(cfgs: Configs, d: ConsumerDefaults, from: string, key: string, reading: HashReading,
                        each: seq<multiset<Handler>>)
    requires PlainRegistrations(cfgs) && PlainStream(from)
    ensures EachCanCall(Ungrouped(cfgs, d), SubjectName(from, key), reading, each)
      <==> each == SoloEach(CasesOf(cfgs, SubjectName(from, key), reading))
  {
    if |each| == |cfgs| {
      forall i | 0 <= i < |cfgs|
        ensures CanCall(Ungrouped(cfgs, d)[i], SubjectName(from, key), reading, each[i])
          <==> each[i] == SoloEach(CasesOf(cfgs, SubjectName(from, key), reading))[i]
      {
        SoloAt(cfgs, d, from, key, reading, i, each[i]);
      }
    }
  }

  /** One consumer per registration calls, together, the separate calls of the cases, and
      nothing else. */
  lemma UngroupedExactly(cfgs: Configs, d: ConsumerDefaults, from: string, key: string, reading: HashReading,
                         total: multiset<Handler>)
    requires PlainRegistrations(cfgs) && PlainStream(from)
    ensures AllCanCall(Ungrouped(cfgs, d), SubjectName(from, key), reading, total)
      <==> total == SeparateCalls(CasesOf(cfgs, SubjectName(from, key), reading))
  {
    var subject, consumers := SubjectName(from, key), Ungrouped(cfgs, d);
    var solo := SoloEach(CasesOf(cfgs, subject, reading));
    SoloEachSum(CasesOf(cfgs, subject, reading));
    SoloEachExactly(cfgs, d, from, key, reading, solo);
    if each :| EachCanCall(consumers, subject, reading, each) && total == Sum(each) {
      SoloEachExactly(cfgs, d, from, key, reading, each);
    }
  }

  /** Outcomes of the groups' cases are outcomes of their consumers. */
  lemma PossibleIsCanCall(cfgs: Configs, d: ConsumerDefaults, from: string, key: string, reading: HashReading,
                          each: seq<multiset<Handler>>)
    requires PlainRegistrations(cfgs) && PlainStream(from)
    ensures Possible(CasesEach(Groups(cfgs), SubjectName(from, key), reading), each)
      <==> EachCanCall(ConsumersOf(cfgs, d), SubjectName(from, key), reading, each)
  {
    if |each| == |Groups(cfgs)| {
      forall i | 0 <= i < |Groups(cfgs)|
        ensures CanCall(ConsumersOf(cfgs, d)[i], SubjectName(from, key), reading, each[i])
          <==> GroupedCalls(CasesOf(Groups(cfgs)[i], SubjectName(from, key), reading), each[i])
      {
        GroupsArePlain(cfgs, i);
        CanCallIsGroupedCalls(Groups(cfgs)[i], d, from, key, reading, each[i]);
      }
    }
  }

  /** Whatever the iteration orders, the consumers together call `want`. */
  ghost predicate AlwaysCalls(consumers: seq<JsConsumer>, subject: string, reading: HashReading,
                              want: multiset<Handler>) {
    forall total :: AllCanCall(consumers, subject, reading, total) ==> total == want
  }

  lemma TotalsOfConsumers(cfgs: Configs, d: ConsumerDefaults, from: string, key: string, reading: HashReading,
                          want: multiset<Handler>)
    requires PlainRegistrations(cfgs) && PlainStream(from)
    ensures AlwaysCalls(ConsumersOf(cfgs, d), SubjectName(from, key), reading, want)
      <==> AlwaysTotal(CasesEach(Groups(cfgs), SubjectName(from, key), reading), want)
  {
    var subject, consumers := SubjectName(from, key), ConsumersOf(cfgs, d);
    var groups := CasesEach(Groups(cfgs), subject, reading);
    if AlwaysCalls(consumers, subject, reading, want) {
      forall each | Possible(groups, each) ensures Sum(each) == want {
        PossibleIsCanCall(cfgs, d, from, key, reading, each);
        assert AllCanCall(consumers, subject, reading, Sum(each));
      }
    }
    if AlwaysTotal(groups, want) {
      forall total | AllCanCall(consumers, subject, reading, total) ensures total == want {
        var each :| EachCanCall(consumers, subject, reading, each) && total == Sum(each);
        PossibleIsCanCall(cfgs, d, from, key, reading, each);
      }
    }
  }

  lemma GroupsAreConsistent(cfgs: Configs, from: string, key: string, reading: HashReading)
    requires PlainRegistrations(cfgs) && PlainStream(from)
    ensures AllConsistent(CasesEach(Groups(cfgs), SubjectName(from, key), reading))
  {
    var groups := CasesEach(Groups(cfgs), SubjectName(from, key), reading);
    forall i | 0 <= i < |groups| ensures Consistent(groups[i]) {
      GroupsArePlain(cfgs, i);
      CasesConsistent(Groups(cfgs)[i], from, key, reading);
    }
  }

  /** For one message, all consumers together call what one consumer per registration would,
      in every iteration order, exactly when the message is unambiguous in every group. */
  lemma ServiceKeepsMessageExactly(cfgs: Configs, d: ConsumerDefaults, from: string, key: string, reading: HashReading)
    requires PlainRegistrations(cfgs) && PlainStream(from)
    ensures AlwaysCalls(ConsumersOf(cfgs, d), SubjectName(from, key), reading,
                        SeparateCalls(CasesOf(cfgs, SubjectName(from, key), reading)))
      <==> AllUnambiguous(CasesEach(Groups(cfgs), SubjectName(from, key), reading))
  {
    var groups := CasesEach(Groups(cfgs), SubjectName(from, key), reading);
    GroupsAreConsistent(cfgs, from, key, reading);
    TotalsExactly(groups);
    GroupsCoverCases(cfgs, SubjectName(from, key), reading);
    TotalsOfConsumers(cfgs, d, from, key, reading, Sum(SeparateEach(groups)));
  }

  /** Every message is unambiguous in a group exactly when its patterns pass the test. */
  lemma GroupPassesExactly(group: Configs, reading: HashReading)
    requires PlainGroup(group)
    ensures NeverAmbiguous(group, reading)
      <==> forall from, key | PlainStream(from) :: Unambiguous(CasesOf(group, SubjectName(from, key), reading))
  {
    NeverAmbiguousExactly(group, reading);
    forall from, key | PlainStream(from) && from != group[0].stream
      ensures Unambiguous(CasesOf(group, SubjectName(from, key), reading))
    {
      forall i | 0 <= i < |group| ensures !Admits(group[i], SubjectName(from, key)) {
        AdmitsExactly(group, i, from, key);
      }
    }
    if forall from, key | PlainStream(from) :: Unambiguous(CasesOf(group, SubjectName(from, key), reading)) {
      forall key ensures Unambiguous(CasesOf(group, SubjectName(group[0].stream, key), reading)) {
        assert PlainStream(group[0].stream);
      }
    }
  }

  /** Every message published to a plain stream is handled as by one consumer per registration. */
  ghost predicate KeepsAllMessages(cfgs: Configs, consumers: seq<JsConsumer>, reading: HashReading) {
    forall from, key | PlainStream(from) ::
      AlwaysCalls(consumers, SubjectName(from, key), reading,
                  SeparateCalls(CasesOf(cfgs, SubjectName(from, key), reading)))
  }

  predicate AllNeverAmbiguous(cfgs: Configs, reading: HashReading) {
    forall i :: 0 <= i < |Groups(cfgs)| ==> NeverAmbiguous(Groups(cfgs)[i], reading)
  }

  ghost predicate AllMessagesUnambiguous(cfgs: Configs, reading: HashReading) {
    forall from, key | PlainStream(from) ::
      AllUnambiguous(CasesEach(Groups(cfgs), SubjectName(from, key), reading))
  }

  lemma AllPassExactly(cfgs: Configs, reading: HashReading)
    requires PlainRegistrations(cfgs)
    ensures AllNeverAmbiguous(cfgs, reading)
      <==> AllMessagesUnambiguous(cfgs, reading)
  {
    if AllNeverAmbiguous(cfgs, reading) {
      forall from, key | PlainStream(from)
        ensures AllUnambiguous(CasesEach(Groups(cfgs), SubjectName(from, key), reading))
      {
        forall i | 0 <= i < |Groups(cfgs)|
          ensures Unambiguous(CasesEach(Groups(cfgs), SubjectName(from, key), reading)[i])
        {
          GroupsArePlain(cfgs, i);
          GroupPassesExactly(Groups(cfgs)[i], reading);
        }
      }
    }
    if AllMessagesUnambiguous(cfgs, reading) {
      forall i | 0 <= i < |Groups(cfgs)| ensures NeverAmbiguous(Groups(cfgs)[i], reading) {
        GroupsArePlain(cfgs, i);
        forall from, key | PlainStream(from)
          ensures Unambiguous(CasesOf(Groups(cfgs)[i], SubjectName(from, key), reading))
        {
          assert Unambiguous(CasesEach(Groups(cfgs), SubjectName(from, key), reading)[i]);
        }
        GroupPassesExactly(Groups(cfgs)[i], reading);
      }
    }
  }

  lemma GroupingInvisibleExactly(cfgs: Configs, d: ConsumerDefaults, reading: HashReading)
    requires PlainRegistrations(cfgs)
    ensures KeepsAllMessages(cfgs, ConsumersOf(cfgs, d), reading) <==> AllNeverAmbiguous(cfgs, reading)
  {
    AllPassExactly(cfgs, reading);
    forall from, key | PlainStream(from)
      ensures AlwaysCalls(ConsumersOf(cfgs, d), SubjectName(from, key), reading,
                          SeparateCalls(CasesOf(cfgs, SubjectName(from, key), reading)))
        <==> AllUnambiguous(CasesEach(Groups(cfgs), SubjectName(from, key), reading))
    {
      ServiceKeepsMessageExactly(cfgs, d, from, key, reading);
    }
  }

  /** Grouping is invisible exactly when the registered patterns pass the test: the consumers
      of a successful Start call, for every message and in every iteration order, what one
      consumer per registration would.  The test reads patterns and handlers only. */
  lemma StartedServiceKeepsMeaningExactly(service: string, b: BrokerState, faults: Faults, setups: seq<Setup>,
                                          reading: HashReading)
    requires Start(Fresh(service, false), b, faults, setups).err.None?
    requires PlainRegistrations(Registrations(setups, service))
    ensures KeepsAllMessages(Registrations(setups, service),
                             Start(Fresh(service, false), b, faults, setups).conn.consumers, reading)
      <==> AllNeverAmbiguous(Registrations(setups, service), reading)
  {
    SuccessfulStart(service, b, faults, setups);
    GroupingInvisibleExactly(Registrations(setups, service), ConsumerDefaultsAfter(setups, NO_CONSUMER_DEFAULTS),
                             reading);
  }
}
