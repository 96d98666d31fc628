/** When grouping loses or misdirects calls: concrete groups, and a test on the patterns
    alone that tells whether some message ever will. */
module Overlaps {
  import opened Words
  import opened Naming
  import opened Handlers
  import opened ConsumerConfigs
  import opened ConsumerGroups
  import opened GroupMeaning

  // ---- the test ------------------------------------------------------------------------

  /** Some key is matched by `p`, with `#` as one or more words, and by `q` under the given
      reading.  Both are plain. */
  predicate Overlap(p: seq<string>, q: seq<string>, reading: HashReading) {
    if p == ["#"] then q != []
    else if q == ["#"] then p != [] || reading.ZeroOrMore?
    else if p == [] || q == [] then p == q
    else (p[0] == "*" || q[0] == "*" || p[0] == q[0]) && Overlap(p[1..], q[1..], reading)
  }

  predicate DotFreeWords(words: seq<string>) { forall i :: 0 <= i < |words| ==> DotFree(words[i]) }

  lemma TailIsPlain(words: seq<string>)
    requires PlainPatternWords(words) && words != []
    ensures PlainPatternWords(words[1..])
    ensures words[0] == "#" ==> words == ["#"]
  {
    assert forall i :: 0 <= i < |words[1..]| ==> words[1..][i] == words[i + 1];
  }

  /** A key word that both pattern words accept. */
  function CommonWord(a: string, b: string): string {
    if a != "*" then a else if b != "*" then b else "x"
  }

  lemma MatchCons(p: seq<string>, word: string, key: seq<string>, reading: HashReading)
    requires p != [] && p[0] != "#" && (p[0] == "*" || p[0] == word)
    ensures WordsMatch(p, [word] + key, reading) <==> WordsMatch(p[1..], key, reading)
  {
    assert ([word] + key)[1..] == key;
  }

  lemma HashTakesAll(key: seq<string>, reading: HashReading)
    requires key != [] || reading.ZeroOrMore?
    ensures WordsMatch(["#"], key, reading)
  {
    if key != [] {
      HashTakesOneOrMore(key);
      ReadingMonotone(["#"], key, reading);
    } else {
      assert WordsMatch(["#"][1..], key, reading);
    }
  }

  /** A plain pattern matches some key, of at least one word if it has any itself. */
  lemma {:induction false} MatchesSomething(p: seq<string>) returns (key: seq<string>)
    requires PlainPatternWords(p) && DotFreeWords(p)
    ensures DotFreeWords(key) && WordsMatch(p, key, OneOrMore) && (p != [] ==> key != [])
  {
    if p == [] {
      key := [];
    } else {
      TailIsPlain(p);
      if p[0] == "#" {
        key := ["x"];
        HashTakesAll(key, OneOrMore);
      } else {
        key := MatchesSomething(p[1..]);
        MatchCons(p, CommonWord(p[0], p[0]), key, OneOrMore);
        key := [CommonWord(p[0], p[0])] + key;
      }
    }
  }

  lemma {:induction false} OverlapHasKey(p: seq<string>, q: seq<string>, reading: HashReading)
    returns (key: seq<string>)
    requires PlainPatternWords(p) && PlainPatternWords(q) && DotFreeWords(p) && DotFreeWords(q)
    requires Overlap(p, q, reading)
    ensures DotFreeWords(key) && (p != [] ==> key != [])
    ensures WordsMatch(p, key, OneOrMore) && WordsMatch(q, key, reading)
  {
    if p == ["#"] {
      key := MatchesSomething(q);
      HashTakesAll(key, OneOrMore);
      ReadingMonotone(q, key, reading);
    } else if q == ["#"] {
      key := MatchesSomething(p);
      HashTakesAll(key, reading);
    } else if p == [] {
      key := [];
    } else {
      TailIsPlain(p);
      TailIsPlain(q);
      key := OverlapHasKey(p[1..], q[1..], reading);
      var word := CommonWord(p[0], q[0]);
      MatchCons(p, word, key, OneOrMore);
      MatchCons(q, word, key, reading);
      key := [word] + key;
    }
  }

  lemma {:induction false} KeyMeansOverlap(p: seq<string>, q: seq<string>, key: seq<string>, reading: HashReading)
    requires PlainPatternWords(p) && PlainPatternWords(q)
    requires WordsMatch(p, key, OneOrMore) && WordsMatch(q, key, reading)
    ensures Overlap(p, q, reading)
  {
    if p == ["#"] {
      HashTakesOneOrMore(key);
    } else if q == ["#"] {
      if p == [] && reading.OneOrMore? {
        HashTakesOneOrMore(key);
      }
    } else if p != [] && q != [] {
      TailIsPlain(p);
      TailIsPlain(q);
      KeyMeansOverlap(p[1..], q[1..], key[1..], reading);
    }
  }

  /** The test is exact: it holds just when some routing key fits both patterns. */
  lemma OverlapExactly(p: string, q: string, reading: HashReading)
    requires PlainPattern(p) && PlainPattern(q)
    ensures Overlap(Split(p), Split(q), reading)
      <==> exists key :: MatchRoutingKey(p, key, OneOrMore) && MatchRoutingKey(q, key, reading)
  {
    if key :| MatchRoutingKey(p, key, OneOrMore) && MatchRoutingKey(q, key, reading) {
      KeyMeansOverlap(Split(p), Split(q), Split(key), reading);
    }
    if Overlap(Split(p), Split(q), reading) {
      SplitWordsDotFree(p);
      SplitWordsDotFree(q);
      var words := OverlapHasKey(Split(p), Split(q), reading);
      SplitOfJoin(words);
      assert MatchRoutingKey(p, Join(words), OneOrMore) && MatchRoutingKey(q, Join(words), reading);
    }
  }

  // ---- groups that never lose a call -----------------------------------------------------

  /** No two members can get the same message from the server, and where one member's pattern
      may be picked for another's message it leads to the other's handler all the same. */
  predicate NeverAmbiguous(group: Configs, reading: HashReading) {
    forall i, j | 0 <= i < |group| && 0 <= j < |group| && i != j ::
      var p, q := group[i].routingKey, group[j].routingKey;
      && !Overlap(Split(p), Split(q), OneOrMore)
      && (Overlap(Split(p), Split(q), reading) ==> q in HandlersOf(group) && HandlersOf(group)[q] == group[i].handler)
  }

  /** How a case of a published message reads in terms of patterns. */
  lemma CaseAt(group: Configs, key: string, reading: HashReading, i: nat)
    requires PlainGroup(group) && i < |group|
    ensures var c := CasesOf(group, SubjectName(group[0].stream, key), reading)[i];
      && c.pattern == group[i].routingKey && c.handler == group[i].handler
      && (c.admits <==> MatchRoutingKey(c.pattern, key, OneOrMore))
      && (c.matches <==> MatchRoutingKey(c.pattern, key, reading))
  {
    KeyRoundTrip(group[0].stream, key);
    AdmitsExactly(group, i, group[0].stream, key);
  }

  lemma NeverAmbiguousSuffices(group: Configs, key: string, reading: HashReading)
    requires PlainGroup(group) && NeverAmbiguous(group, reading)
    ensures Unambiguous(CasesOf(group, SubjectName(group[0].stream, key), reading))
  {
    var subject := SubjectName(group[0].stream, key);
    var cases := CasesOf(group, subject, reading);
    MappedIsHandlersOf(group, subject, reading);
    forall i, j | 0 <= i < |cases| && 0 <= j < |cases| && i != j && cases[i].admits && cases[j].matches
      ensures !cases[j].admits
      ensures cases[j].pattern in Mapped(cases) && Mapped(cases)[cases[j].pattern] == cases[i].handler
    {
      CaseAt(group, key, reading, i);
      CaseAt(group, key, reading, j);
      OverlapExactly(group[i].routingKey, group[j].routingKey, OneOrMore);
      OverlapExactly(group[i].routingKey, group[j].routingKey, reading);
    }
  }

  /** Two members whose patterns overlap: some key makes the group ambiguous. */
  lemma OverlapIsAmbiguous(group: Configs, i: nat, j: nat, reading: HashReading) returns (key: string)
    requires PlainGroup(group) && i < |group| && j < |group| && i != j
    requires var p, q := group[i].routingKey, group[j].routingKey;
      || Overlap(Split(p), Split(q), OneOrMore)
      || (Overlap(Split(p), Split(q), reading) && !(q in HandlersOf(group) && HandlersOf(group)[q] == group[i].handler))
    ensures !Unambiguous(CasesOf(group, SubjectName(group[0].stream, key), reading))
  {
    var p, q := group[i].routingKey, group[j].routingKey;
    OverlapExactly(p, q, OneOrMore);
    OverlapExactly(p, q, reading);
    if Overlap(Split(p), Split(q), OneOrMore) {
      key :| MatchRoutingKey(p, key, OneOrMore) && MatchRoutingKey(q, key, OneOrMore);
      ReadingMonotone(Split(q), Split(key), reading);
    } else {
      key :| MatchRoutingKey(p, key, OneOrMore) && MatchRoutingKey(q, key, reading);
    }
    var subject := SubjectName(group[0].stream, key);
    var cases := CasesOf(group, subject, reading);
    MappedIsHandlersOf(group, subject, reading);
    CaseAt(group, key, reading, i);
    CaseAt(group, key, reading, j);
    assert cases[i].admits && cases[j].matches;
  }

  /** A group keeps the meaning of every message exactly when the test passes, so a caller
      can tell at registration. */
  lemma NeverAmbiguousExactly(group: Configs, reading: HashReading)
    requires PlainGroup(group)
    ensures NeverAmbiguous(group, reading)
      <==> forall key :: Unambiguous(CasesOf(group, SubjectName(group[0].stream, key), reading))
  {
    if NeverAmbiguous(group, reading) {
      forall key ensures Unambiguous(CasesOf(group, SubjectName(group[0].stream, key), reading)) {
        NeverAmbiguousSuffices(group, key, reading);
      }
    } else {
      var i, j :| 0 <= i < |group| && 0 <= j < |group| && i != j
        && var p, q := group[i].routingKey, group[j].routingKey;
           !(!Overlap(Split(p), Split(q), OneOrMore)
             && (Overlap(Split(p), Split(q), reading)
                 ==> q in HandlersOf(group) && HandlersOf(group)[q] == group[i].handler));
      var key := OverlapIsAmbiguous(group, i, j, reading);
    }
  }

  // ---- groups that do ------------------------------------------------------------------------

  function TwoOn(stream: string, p: string, g: Handler, q: string, h: Handler): Configs {
    [ConfigFor(stream, p, false, g, "svc", []), ConfigFor(stream, q, false, h, "svc", [])]
  }

  lemma SeparateOfTwo(a: Case, b: Case)
    ensures SeparateCalls([a, b]) == SoloCalls(a) + SoloCalls(b)
  {
    assert [a, b][..1] == [a] && [a][..0] == [];
    assert SeparateCalls([a]) == multiset{} + SoloCalls(a);
  }

  lemma TwoArePlain(p: string, g: Handler, q: string, h: Handler)
    requires PlainPattern(p) && PlainPattern(q)
    ensures PlainGroup(TwoOn("events", p, g, q, h))
  {
    assert PlainStream("events");
  }

  /** How the two members stand to a key. */
  lemma CasesOfTwo(p: string, g: Handler, q: string, h: Handler, key: string, reading: HashReading)
    requires PlainPattern(p) && PlainPattern(q)
    ensures PlainGroup(TwoOn("events", p, g, q, h))
    ensures CasesOf(TwoOn("events", p, g, q, h), SubjectName("events", key), reading)
      == [Case(p, g, MatchRoutingKey(p, key, OneOrMore), MatchRoutingKey(p, key, reading)),
          Case(q, h, MatchRoutingKey(q, key, OneOrMore), MatchRoutingKey(q, key, reading))]
  {
    var group := TwoOn("events", p, g, q, h);
    TwoArePlain(p, g, q, h);
    CaseAt(group, key, reading, 0);
    CaseAt(group, key, reading, 1);
  }

  lemma MappedTwo(a: Case, b: Case)
    ensures Mapped([a, b]) == map[a.pattern := a.handler][b.pattern := b.handler]
  {
    assert [a, b][..1] == [a] && [a][..0] == [];
    assert Mapped([a]) == map[][a.pattern := a.handler];
  }

  /** Two cases that both match, the first admitting: either may be called. */
  lemma EitherCalled(a: Case, b: Case)
    requires a.admits && a.matches && b.matches && a.pattern != b.pattern
    ensures GroupedCalls([a, b], multiset{a.handler}) && GroupedCalls([a, b], multiset{b.handler})
    ensures b.admits || a.handler != b.handler ==> !Unambiguous([a, b])
  {
    var cases := [a, b];
    MappedTwo(a, b);
    assert cases[0].admits && cases[0].matches && cases[1].matches;
    assert Mapped(cases)[cases[0].pattern] == a.handler && Mapped(cases)[cases[1].pattern] == b.handler;
  }

  /** Two overlapping registrations, seen from their consumer. */
  lemma EitherMayBeCalled(p: string, g: Handler, q: string, h: Handler, key: string, defaults: ConsumerDefaults,
                          reading: HashReading)
    requires PlainPattern(p) && PlainPattern(q) && p != q
    requires MatchRoutingKey(p, key, OneOrMore) && MatchRoutingKey(p, key, reading) && MatchRoutingKey(q, key, reading)
    ensures var c, subject := JsConsumerOf(TwoOn("events", p, g, q, h), defaults), SubjectName("events", key);
      CanCall(c, subject, reading, multiset{g}) && CanCall(c, subject, reading, multiset{h})
  {
    CasesOfTwo(p, g, q, h, key, reading);
    EitherCalled(Case(p, g, true, true), Case(q, h, MatchRoutingKey(q, key, OneOrMore), true));
    CanCallIsGroupedCalls(TwoOn("events", p, g, q, h), defaults, "events", key, reading, multiset{g});
    CanCallIsGroupedCalls(TwoOn("events", p, g, q, h), defaults, "events", key, reading, multiset{h});
  }

  /** "o.*" and "o.c" are different patterns that both match the key "o.c". */
  lemma StarAndLiteral(reading: HashReading)
    ensures PlainPattern("o.*") && PlainPattern("o.c") && "o.*" != "o.c"
    ensures MatchRoutingKey("o.*", "o.c", reading) && MatchRoutingKey("o.c", "o.c", reading)
  {
    assert "o.*" == "o" + [DOT] + "*" && "o.c" == "o" + [DOT] + "c";
    SplitTwo("o", "*");
    SplitTwo("o", "c");
    PinnedWordMatches("o", "c", "d", "v", reading);
    assert "o.*"[2] != "o.c"[2];
  }

  /** Overlapping patterns: the message is meant for both registrations, reaches their
      consumer once, and one of the two calls is lost; which one is up to the map. */
  lemma OverlapLosesACall(g: Handler, h: Handler, defaults: ConsumerDefaults, reading: HashReading)
    ensures var group, subject := TwoOn("events", "o.*", g, "o.c", h), SubjectName("events", "o.c");
      var cases, c := CasesOf(group, subject, reading), JsConsumerOf(group, defaults);
      && PlainGroup(group) && !Unambiguous(cases)
      && SeparateCalls(cases) == multiset{g, h}
      && CanCall(c, subject, reading, multiset{g}) && CanCall(c, subject, reading, multiset{h})
  {
    StarAndLiteral(OneOrMore);
    StarAndLiteral(reading);
    CasesOfTwo("o.*", g, "o.c", h, "o.c", reading);
    var a, b := Case("o.*", g, true, true), Case("o.c", h, true, true);
    SeparateOfTwo(a, b);
    EitherCalled(a, b);
    EitherMayBeCalled("o.*", g, "o.c", h, "o.c", defaults, reading);
  }

  lemma LiteralAndHash()
    ensures PlainPattern("o") && PlainPattern("o.#")
    ensures MatchRoutingKey("o", "o", OneOrMore) && !MatchRoutingKey("o.#", "o", OneOrMore)
    ensures MatchRoutingKey("o", "o", ZeroOrMore) && MatchRoutingKey("o.#", "o", ZeroOrMore)
    ensures !Overlap(Split("o"), Split("o.#"), OneOrMore) && !Overlap(Split("o.#"), Split("o"), OneOrMore)
  {
    assert "o.#" == "o" + [DOT] + "#";
    SplitTwo("o", "#");
    assert Split("o") == ["o"] && ["o", "#"][1..] == ["#"] && ["o"][1..] == [];
    HashTakesAll([], ZeroOrMore);
    HashTakesOneOrMore([]);
    SelfMatch("o", OneOrMore);
    SelfMatch("o", ZeroOrMore);
  }

  /** Without overlapping server filters: if `#` may take no word, the dispatcher can hand a
      message the server delivered for the first registration to the second's handler. */
  lemma HashMisdirectsACall(g: Handler, h: Handler, defaults: ConsumerDefaults)
    requires g != h
    ensures var group, subject := TwoOn("events", "o", g, "o.#", h), SubjectName("events", "o");
      var cases, c := CasesOf(group, subject, ZeroOrMore), JsConsumerOf(group, defaults);
      && PlainGroup(group) && !Unambiguous(cases)
      && !Overlap(Split("o"), Split("o.#"), OneOrMore) && !Overlap(Split("o.#"), Split("o"), OneOrMore)
      && cases[0].admits && !cases[1].admits && SeparateCalls(cases) == multiset{g}
      && CanCall(c, subject, ZeroOrMore, multiset{h})
  {
    LiteralAndHash();
    CasesOfTwo("o", g, "o.#", h, "o", ZeroOrMore);
    var a, b := Case("o", g, true, true), Case("o.#", h, false, true);
    SeparateOfTwo(a, b);
    EitherCalled(a, b);
    EitherMayBeCalled("o", g, "o.#", h, "o", defaults, ZeroOrMore);
  }
}
