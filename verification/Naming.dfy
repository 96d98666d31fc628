/** Stream, subject and filter names, the wildcard translation, and the two matchers
    that have to agree: the server's subject filter and the dispatcher's routing key
    pattern. */
module Naming {
  import opened Words

  const DEFAULT_EVENT_STREAM := "events"
  const EXCHANGE_SUFFIX := ".topic.exchange"

  /** Whether `#` takes zero or more words, as in an AMQP topic exchange
      (section 3.1.3.3 of AMQP 0-9-1), or one or more, as `>` does in NATS. */
  datatype HashReading = ZeroOrMore | OneOrMore

  // ---- names -------------------------------------------------------------

  predicate HasSuffix(s: string, suffix: string) {
    |suffix| <= |s| && s[|s| - |suffix|..] == suffix
  }

  /** Logical exchange name to stream name. */
  function StreamName(name: string): string {
    if HasSuffix(name, EXCHANGE_SUFFIX) then name[..|name| - |EXCHANGE_SUFFIX|] else name
  }

  function SubjectName(stream: string, routingKey: string): string {
    stream + "." + routingKey
  }

  function Translate(c: char): char { if c == '#' then '>' else c }

  function TranslateWildcard(pattern: string): (r: string)
    ensures |r| == |pattern|
    ensures forall i :: 0 <= i < |pattern| ==> r[i] == Translate(pattern[i])
  {
    seq(|pattern|, i requires 0 <= i < |pattern| => Translate(pattern[i]))
  }

  function FilterSubject(stream: string, pattern: string): string {
    SubjectName(stream, TranslateWildcard(pattern))
  }

  function StreamSubjects(stream: string): string { stream + ".>" }

  function ServiceRequestSubject(service: string, routingKey: string): string {
    service + ".request." + routingKey
  }

  function ConsumerName(service: string): string { service }

  function ConsumerNameWithSuffix(service: string, suffix: string): string {
    service + "-" + suffix
  }

  /** What the consumer takes as routing key: everything behind the first dot. */
  function RoutingKeyOf(subject: string): string {
    var i := IndexOf(subject, DOT);
    if i >= 0 then subject[i + 1..] else subject
  }

  // ---- the two matchers ----------------------------------------------------

  /** Server side: does a filter, given as tokens, admit a subject?  `*` takes one
      token, a final `>` takes one or more. */
  predicate TokensMatch(filter: seq<string>, subject: seq<string>) {
    if filter == [] then
      subject == []
    else if filter[0] == ">" then
      |filter| == 1 && subject != []
    else
      && subject != []
      && (filter[0] == "*" || filter[0] == subject[0])
      && TokensMatch(filter[1..], subject[1..])
  }

  predicate SubjectMatches(filter: string, subject: string) {
    TokensMatch(Split(filter), Split(subject))
  }

  /** Dispatcher side: does a pattern match a routing key, both as words? */
  predicate WordsMatch(pattern: seq<string>, key: seq<string>, reading: HashReading)
    decreases |pattern| + |key|
  {
    if pattern == [] then
      key == []
    else if pattern[0] == "#" then
      || (reading.ZeroOrMore? && WordsMatch(pattern[1..], key, reading))
      || (key != [] && (WordsMatch(pattern[1..], key[1..], reading) || WordsMatch(pattern, key[1..], reading)))
    else
      && key != []
      && (pattern[0] == "*" || pattern[0] == key[0])
      && WordsMatch(pattern[1..], key[1..], reading)
  }

  predicate MatchRoutingKey(pattern: string, key: string, reading: HashReading) {
    WordsMatch(Split(pattern), Split(key), reading)
  }

  // ---- well-formed inputs ----------------------------------------------------

  /** A stream name that is one literal token of a subject. */
  predicate PlainStream(stream: string) {
    DotFree(stream) && stream != "*" && stream != ">"
  }

  /** `#` stands only as the last whole word, and `>` is not written directly. */
  predicate PlainPatternWords(words: seq<string>) {
    && (forall i :: 0 <= i < |words| ==> words[i] != ">")
    && (forall i :: 0 <= i < |words| && '#' in words[i] ==> words[i] == "#" && i == |words| - 1)
  }

  predicate PlainPattern(pattern: string) { PlainPatternWords(Split(pattern)) }

  // ---- the translation keeps words -------------------------------------------

  function TranslateWords(words: seq<string>): (r: seq<string>)
    ensures |r| == |words|
  {
    seq(|words|, i requires 0 <= i < |words| => TranslateWildcard(words[i]))
  }

  lemma TranslateKeepsDots(s: string)
    ensures IndexOf(TranslateWildcard(s), DOT) == IndexOf(s, DOT)
  {
    var t := TranslateWildcard(s);
    var i, j := IndexOf(s, DOT), IndexOf(t, DOT);
    if i >= 0 { assert t[i] == DOT; }
    if j >= 0 { assert s[j] == DOT; }
    assert forall k :: 0 <= k < |s| ==> (s[k] == DOT <==> t[k] == DOT);
  }

  lemma TranslateSlices(s: string, i: nat)
    requires i < |s|
    ensures TranslateWildcard(s)[..i] == TranslateWildcard(s[..i])
    ensures TranslateWildcard(s)[i + 1..] == TranslateWildcard(s[i + 1..])
  {
  }

  lemma TranslateCons(head: string, rest: seq<string>)
    ensures TranslateWords([head] + rest) == [TranslateWildcard(head)] + TranslateWords(rest)
  {
  }

  /** Translating a pattern translates its words and moves no dot. */
  lemma {:induction false} SplitTranslate(s: string)
    ensures Split(TranslateWildcard(s)) == TranslateWords(Split(s))
    decreases |s|
  {
    TranslateKeepsDots(s);
    var t, i := TranslateWildcard(s), IndexOf(s, DOT);
    if i < 0 {
      assert Split(s) == [s] && Split(t) == [t];
    } else {
      SplitTranslate(s[i + 1..]);
      TranslateSlices(s, i);
      TranslateCons(s[..i], Split(s[i + 1..]));
      SplitAt(s, i);
      SplitAt(t, i);
    }
  }

  lemma TranslateWord(w: string)
    ensures '#' !in w ==> TranslateWildcard(w) == w
    ensures w == "#" ==> TranslateWildcard(w) == ">"
  {
    if '#' !in w {
      forall i | 0 <= i < |w| ensures TranslateWildcard(w)[i] == w[i] {
        assert w[i] in w;
      }
      assert TranslateWildcard(w) == w;
    }
  }

  // ---- the matchers agree --------------------------------------------------------

  lemma {:induction false} HashTakesOneOrMore(key: seq<string>)
    ensures WordsMatch(["#"], key, OneOrMore) <==> key != []
  {
    if |key| == 1 {
      assert WordsMatch(["#"][1..], key[1..], OneOrMore);
    } else if |key| > 1 {
      HashTakesOneOrMore(key[1..]);
    }
  }

  /** On words, the server's filter and the dispatcher with `#` as one or more agree. */
  lemma {:induction false} WordMatchersAgree(pattern: seq<string>, key: seq<string>)
    requires PlainPatternWords(pattern)
    ensures TokensMatch(TranslateWords(pattern), key) <==> WordsMatch(pattern, key, OneOrMore)
    decreases |pattern|
  {
    if pattern != [] {
      var filter := TranslateWords(pattern);
      assert filter[1..] == TranslateWords(pattern[1..]);
      TranslateWord(pattern[0]);
      if pattern[0] == "#" {
        assert pattern == ["#"];
        HashTakesOneOrMore(key);
      } else {
        assert filter[0] == pattern[0];
        if key != [] {
          assert forall i :: 0 <= i < |pattern[1..]| ==> pattern[1..][i] == pattern[i + 1];
          WordMatchersAgree(pattern[1..], key[1..]);
        }
      }
    }
  }

  /** A match with `#` as one or more words is a match with `#` as zero or more. */
  lemma {:induction false} ReadingMonotone(pattern: seq<string>, key: seq<string>, reading: HashReading)
    requires WordsMatch(pattern, key, OneOrMore)
    ensures WordsMatch(pattern, key, reading)
    decreases |pattern| + |key|
  {
    if pattern != [] && reading.ZeroOrMore? {
      if pattern[0] == "#" && !WordsMatch(pattern[1..], key[1..], OneOrMore) {
        ReadingMonotone(pattern, key[1..], reading);
      } else {
        ReadingMonotone(pattern[1..], key[1..], reading);
      }
    }
  }

  /** Every pattern matches itself taken as a key, whatever wildcards it holds. */
  lemma {:induction false} SelfMatchWords(words: seq<string>, reading: HashReading)
    ensures WordsMatch(words, words, reading)
  {
    if words != [] {
      SelfMatchWords(words[1..], reading);
    }
  }

  lemma SelfMatch(pattern: string, reading: HashReading)
    ensures MatchRoutingKey(pattern, pattern, reading)
  {
    SelfMatchWords(Split(pattern), reading);
  }

  // ---- from strings to strings ---------------------------------------------------

  /** Stripping the stream from a published subject gives the published key back. */
  lemma KeyRoundTrip(stream: string, key: string)
    requires DotFree(stream)
    ensures RoutingKeyOf(SubjectName(stream, key)) == key
  {
    IndexOfPrefix(stream, DOT, key);
  }

  /** The strip is right exactly for dot-free stream names. */
  lemma KeyRoundTripExactly(stream: string, key: string)
    ensures RoutingKeyOf(SubjectName(stream, key)) == key <==> DotFree(stream)
  {
    var s := SubjectName(stream, key);
    if DotFree(stream) {
      KeyRoundTrip(stream, key);
    } else {
      var j := IndexOf(stream, DOT);
      assert s[j] == DOT;
      assert |RoutingKeyOf(s)| > |key|;
    }
  }

  /** A stream captures what is published to it and nothing published to another stream. */
  lemma CapturedByOwnStreamOnly(stream: string, other: string, key: string)
    requires PlainStream(stream) && PlainStream(other)
    ensures SubjectMatches(StreamSubjects(other), SubjectName(stream, key)) <==> other == stream
  {
    SplitPrefix(stream, key);
    SplitPrefix(other, ">");
    assert StreamSubjects(other) == other + [DOT] + ">";
    assert Split(">") == [">"];
    assert SubjectName(stream, key) == stream + [DOT] + key;
    var filter, subject := [other] + [">"], [stream] + Split(key);
    assert filter[1..] == [">"] && subject[1..] == Split(key);
    assert TokensMatch(filter, subject) <==> other == stream && TokensMatch([">"], Split(key));
  }

  /** The server admits a subject through a registration's filter exactly when the
      subject belongs to the registration's stream and its pattern, with `#` as one or
      more words, matches the key. */
  lemma FilterAdmitsExactly(stream: string, pattern: string, from: string, key: string)
    requires PlainStream(stream) && PlainStream(from)
    requires PlainPattern(pattern)
    ensures SubjectMatches(FilterSubject(stream, pattern), SubjectName(from, key))
      <==> stream == from && MatchRoutingKey(pattern, key, OneOrMore)
  {
    var t := TranslateWildcard(pattern);
    SplitPrefix(stream, t);
    SplitPrefix(from, key);
    SplitTranslate(pattern);
    WordMatchersAgree(Split(pattern), Split(key));
    var filter, subject := [stream] + Split(t), [from] + Split(key);
    assert FilterSubject(stream, pattern) == stream + [DOT] + t;
    assert SubjectName(from, key) == from + [DOT] + key;
    assert filter[1..] == Split(t) && subject[1..] == Split(key);
  }

  /** What the server admits, the dispatcher matches, under either reading of `#`. */
  lemma AdmittedIsMatched(stream: string, pattern: string, from: string, key: string, reading: HashReading)
    requires PlainStream(stream) && PlainStream(from)
    requires PlainPattern(pattern)
    requires SubjectMatches(FilterSubject(stream, pattern), SubjectName(from, key))
    ensures MatchRoutingKey(pattern, key, reading)
  {
    FilterAdmitsExactly(stream, pattern, from, key);
    ReadingMonotone(Split(pattern), Split(key), reading);
  }

  /** A subject without dots is its own key. */
  lemma DotFreeIsOwnKey(subject: string)
    ensures RoutingKeyOf(subject) == subject <==> DotFree(subject)
  {
  }

  // ---- request subjects ------------------------------------------------------------------

  lemma RequestSubjectInParts(service: string, key: string)
    ensures ServiceRequestSubject(service, key) == service + [DOT] + ("request" + [DOT] + key)
  {
    assert ".request." == [DOT] + "request" + [DOT];
  }

  lemma RequestWords(service: string, key: string)
    requires DotFree(service)
    ensures Split(ServiceRequestSubject(service, key)) == [service] + (["request"] + Split(key))
  {
    RequestSubjectInParts(service, key);
    SplitPrefix(service, "request" + [DOT] + key);
    SplitPrefix("request", key);
  }

  lemma TokensMatchCons(a: string, filter: seq<string>, b: string, subject: seq<string>)
    requires a != "*" && a != ">"
    ensures TokensMatch([a] + filter, [b] + subject) <==> a == b && TokensMatch(filter, subject)
  {
    assert ([a] + filter)[1..] == filter && ([b] + subject)[1..] == subject;
  }

  lemma RequestTokens(service: string, pattern: seq<string>, target: string, key: seq<string>)
    requires service != "*" && service != ">"
    ensures TokensMatch([service] + (["request"] + pattern), [target] + (["request"] + key))
      <==> service == target && TokensMatch(pattern, key)
  {
    TokensMatchCons(service, ["request"] + pattern, target, ["request"] + key);
    TokensMatchCons("request", pattern, "request", key);
  }

  /** A request to `target` under `key` is admitted by a subscription of `service` under
      `pattern` exactly when it is meant for that service and the tokens of the pattern,
      which are not translated, admit the key. */
  lemma RequestAdmittedExactly(service: string, pattern: string, target: string, key: string)
    requires PlainStream(service) && PlainStream(target)
    ensures SubjectMatches(ServiceRequestSubject(service, pattern), ServiceRequestSubject(target, key))
      <==> service == target && TokensMatch(Split(pattern), Split(key))
  {
    RequestWords(service, pattern);
    RequestWords(target, key);
    RequestTokens(service, Split(pattern), target, Split(key));
  }

  /** Request subjects of dot-free services tell service and key apart. */
  lemma RequestSubjectsTell(service: string, key: string, other: string, otherKey: string)
    requires DotFree(service) && DotFree(other)
    ensures ServiceRequestSubject(service, key) == ServiceRequestSubject(other, otherKey)
      <==> service == other && key == otherKey
  {
    RequestWords(service, key);
    RequestWords(other, otherKey);
    var a, b := [service] + (["request"] + Split(key)), [other] + (["request"] + Split(otherKey));
    if a == b {
      assert a[0] == b[0] && a[1..] == ["request"] + Split(key) && b[1..] == ["request"] + Split(otherKey);
      assert Split(key) == a[1..][1..] == b[1..][1..] == Split(otherKey);
      JoinOfSplit(key);
      JoinOfSplit(otherKey);
    }
  }

  // ---- the matchers, word by word ------------------------------------------------------------

  predicate WordFits(word: string, key: string) { word == "*" || word == key }

  /** A pattern without `#` fits keys of its own length, word by word. */
  lemma {:induction false} WordsMatchWithoutHash(pattern: seq<string>, key: seq<string>, reading: HashReading)
    requires "#" !in pattern
    ensures WordsMatch(pattern, key, reading)
      <==> |pattern| == |key| && forall i :: 0 <= i < |key| ==> WordFits(pattern[i], key[i])
  {
    if pattern != [] && key != [] {
      WordsMatchWithoutHash(pattern[1..], key[1..], reading);
      assert pattern == [pattern[0]] + pattern[1..] && key == [key[0]] + key[1..];
    }
  }

  /** A leading `#` takes any number of words, at least one if so read. */
  lemma {:induction false} HashSkips(rest: seq<string>, key: seq<string>, reading: HashReading)
    ensures WordsMatch(["#"] + rest, key, reading)
      <==> exists n :: (if reading.OneOrMore? then 1 else 0) <= n <= |key| && WordsMatch(rest, key[n..], reading)
  {
    var pattern, least := ["#"] + rest, if reading.OneOrMore? then 1 else 0;
    assert pattern[1..] == rest;
    if key != [] {
      HashSkips(rest, key[1..], reading);
    }
    if n :| least <= n <= |key| && WordsMatch(rest, key[n..], reading) {
      if n == 0 {
        assert key[0..] == key;
      } else {
        assert key[n..] == key[1..][n - 1..];
        assert n == 1 ==> key[1..][0..] == key[1..];
      }
    }
    if WordsMatch(pattern, key, reading) {
      if reading.ZeroOrMore? && WordsMatch(rest, key, reading) {
        assert key[0..] == key;
      } else if WordsMatch(rest, key[1..], reading) {
        assert least <= 1 <= |key|;
      } else {
        var n :| least <= n <= |key[1..]| && WordsMatch(rest, key[1..][n..], reading);
        assert key[1..][n..] == key[n + 1..];
      }
    }
  }

  /** A filter without `>` admits subjects of its own length, token by token; a last `>`
      admits whatever goes on behind. */
  lemma {:induction false} TokensMatchExactly(filter: seq<string>, subject: seq<string>)
    requires ">" !in filter
    ensures TokensMatch(filter, subject)
      <==> |filter| == |subject| && forall i :: 0 <= i < |filter| ==> WordFits(filter[i], subject[i])
    ensures TokensMatch(filter + [">"], subject)
      <==> |filter| < |subject| && forall i :: 0 <= i < |filter| ==> WordFits(filter[i], subject[i])
  {
    if filter == [] {
      assert filter + [">"] == [">"];
    } else if subject != [] {
      TokensMatchExactly(filter[1..], subject[1..]);
      assert (filter + [">"])[1..] == filter[1..] + [">"];
      assert filter == [filter[0]] + filter[1..] && subject == [subject[0]] + subject[1..];
    }
  }

  // ---- the pinned examples ---------------------------------------------------------

  lemma SplitTwo(a: string, b: string)
    requires DotFree(a) && DotFree(b)
    ensures Split(a + [DOT] + b) == [a, b]
  {
    SplitPrefix(a, b);
  }

  /** Exactly one exchange suffix is cut off, and names without it are kept. */
  lemma StreamNameExactly(name: string)
    ensures StreamName(name + EXCHANGE_SUFFIX) == name
    ensures StreamName(name) != name <==> exists base :: name == base + ".topic.exchange"
  {
    CutsExchangeSuffix(name);
    if StreamName(name) != name {
      var base := StreamName(name);
      assert name == base + name[|base|..];
    }
    if base :| name == base + ".topic.exchange" {
      CutsExchangeSuffix(base);
    }
  }

  lemma CutsExchangeSuffix(name: string)
    ensures StreamName(name + EXCHANGE_SUFFIX) == name
  {
    var s := name + EXCHANGE_SUFFIX;
    assert s[|s| - |EXCHANGE_SUFFIX|..] == EXCHANGE_SUFFIX;
  }

  lemma KeepsOtherNames(name: string)
    requires |name| < |EXCHANGE_SUFFIX|
    ensures StreamName(name) == name
  {
  }

  /** The stream names the repository's tests pin. */
  lemma PinnedStreamNames()
    ensures StreamName("events") == "events" && StreamName("events" + EXCHANGE_SUFFIX) == "events"
    ensures StreamName("audit") == "audit" && StreamName("audit" + EXCHANGE_SUFFIX) == "audit"
    ensures StreamName("my-stream") == "my-stream"
  {
    CutsExchangeSuffix("events");
    CutsExchangeSuffix("audit");
    KeepsOtherNames("events");
    KeepsOtherNames("audit");
    KeepsOtherNames("my-stream");
  }

  /** The request subjects and consumer names the repository's tests pin. */
  lemma PinnedServiceNames()
    ensures ServiceRequestSubject("email-svc", "email.send") == "email-svc.request.email.send"
    ensures ServiceRequestSubject("orders", "order.create") == "orders.request.order.create"
    ensures ConsumerName("orders") == "orders"
    ensures ConsumerNameWithSuffix("orders", "analytics") == "orders-analytics"
    ensures SubjectName("events", "Order.Created") == "events.Order.Created"
    ensures StreamSubjects("events") == "events.>"
  {
  }

  /** The filter translations the repository's tests pin. */
  lemma PinnedFilters()
    ensures FilterSubject("events", "Order.#") == "events.Order.>"
    ensures FilterSubject("events", "Order.*") == "events.Order.*"
    ensures FilterSubject("events", "#") == "events.>"
  {
    assert TranslateWildcard("Order.#") == "Order.>";
    assert TranslateWildcard("Order.*") == "Order.*";
    assert TranslateWildcard("#") == ">";
  }

  /** The matches the repository's tests pin, on any words, under both readings of `#`. */
  lemma PinnedWordMatches(o: string, c: string, d: string, v: string, reading: HashReading)
    requires {o, c} !! {"#", "*"} && c != d
    ensures WordsMatch([o, c], [o, c], reading)
    ensures !WordsMatch([o, c], [o, d], reading)
    ensures WordsMatch([o, "*"], [o, c], reading)
    ensures !WordsMatch([o, "*"], [o, c, v], reading)
    ensures WordsMatch([o, "#"], [o, c], reading)
    ensures WordsMatch([o, "#"], [o, c, v], reading)
  {
    SelfMatchWords([o, c], reading);
    assert [o, "*"][1] == "*" && ["*"][0] == "*" && ["*"][1..] == [] && [c, v][1..] != [];
    assert !WordsMatch(["*"], [c, v], reading);
    assert [o, d][1..] == [d] && [o, c][1..] == [c] && [o, "*"][1..] == ["*"] && [o, "#"][1..] == ["#"];
    assert [o, c, v][1..] == [c, v] && [c, v][1..] == [v];
    HashTakesOneOrMore([c]);
    HashTakesOneOrMore([c, v]);
    ReadingMonotone(["#"], [c], reading);
    ReadingMonotone(["#"], [c, v], reading);
  }
}
