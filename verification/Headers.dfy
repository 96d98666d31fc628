/** Message headers: the wire form with value lists, the decoded form with arbitrary
    values, the two conversions, and the key check of user-supplied headers. */
module Headers {
  import opened Wrappers

  type NatsHeader = map<string, seq<string>>

  /** A decoded header value: a string, or anything else. */
  datatype Any = Str(s: string) | Other(tag: nat)

  type SpecHeaders = map<string, Any>

  function Get(nh: NatsHeader, key: string): string {
    if key in nh && nh[key] != [] then nh[key][0] else ""
  }

  function Set(nh: NatsHeader, key: string, value: string): NatsHeader {
    nh[key := [value]]
  }

  function StringsOf(h: SpecHeaders): SpecHeaders {
    map k | k in h && h[k].Str? :: h[k]
  }

  function Wire(h: SpecHeaders): NatsHeader {
    map k | k in h && h[k].Str? :: [h[k].s]
  }

  function Decoded(nh: NatsHeader): SpecHeaders {
    map k | k in nh :: Str(Get(nh, k))
  }

  function FirstValues(nh: NatsHeader): NatsHeader {
    map k | k in nh :: [Get(nh, k)]
  }

  method ToNatsHeaders(h: SpecHeaders) returns (nh: NatsHeader)
    ensures nh == Wire(h)
    ensures forall k :: k in nh <==> k in h && h[k].Str?
    ensures forall k :: k in nh ==> nh[k] == [h[k].s]
  {
    nh := map[];
    var todo := h.Keys;
    while todo != {}
      invariant todo <= h.Keys
      invariant nh == map k | k in h && k !in todo && h[k].Str? :: [h[k].s]
      decreases |todo|
    {
      var k :| k in todo;
      todo := todo - {k};
      if h[k].Str? {
        nh := Set(nh, k, h[k].s);
      }
    }
  }

  method FromNatsHeaders(nh: NatsHeader) returns (h: SpecHeaders)
    ensures h == Decoded(nh)
    ensures h.Keys == nh.Keys
    ensures forall k :: k in nh ==> h[k] == Str(if nh[k] == [] then "" else nh[k][0])
  {
    h := map[];
    var todo := nh.Keys;
    while todo != {}
      invariant todo <= nh.Keys
      invariant h == map k | k in nh && k !in todo :: Str(Get(nh, k))
      decreases |todo|
    {
      var k :| k in todo;
      todo := todo - {k};
      h := h[k := Str(Get(nh, k))];
    }
  }

  /** Out and back keeps exactly the string values. */
  lemma OutAndBack(h: SpecHeaders)
    ensures Decoded(Wire(h)) == StringsOf(h)
    ensures forall k :: k in Decoded(Wire(h)) <==> k in h && h[k].Str?
    ensures forall k :: k in Decoded(Wire(h)) ==> Decoded(Wire(h))[k] == h[k]
  {
    assert forall k :: k in Wire(h) ==> Get(Wire(h), k) == h[k].s;
  }

  /** Back and out keeps the first value of every key, and doing it twice changes nothing. */
  lemma BackAndOut(nh: NatsHeader)
    ensures Wire(Decoded(nh)) == FirstValues(nh)
    ensures FirstValues(nh).Keys == nh.Keys
    ensures forall k :: k in nh ==> FirstValues(nh)[k] == [if nh[k] == [] then "" else nh[k][0]]
    ensures FirstValues(FirstValues(nh)) == FirstValues(nh)
    ensures Decoded(FirstValues(nh)) == Decoded(nh)
  {
    assert forall k :: k in nh ==> Get(FirstValues(nh), k) == Get(nh, k);
  }

  // ---- user headers --------------------------------------------------------------

  datatype Header = Header(key: string, value: string)

  const HEADER_SERVICE := "service"
  const RESERVED_HEADER_KEYS := [HEADER_SERVICE]

  datatype HeaderError = EmptyHeaderKey | ReservedKey(key: string)

  predicate AllowedKey(key: string) { key != "" && key !in RESERVED_HEADER_KEYS }

  function KeyError(key: string): HeaderError { if key == "" then EmptyHeaderKey else ReservedKey(key) }

  method ValidateKey(h: Header) returns (e: Option<HeaderError>)
    ensures e.None? <==> AllowedKey(h.key)
    ensures h.key == "" ==> e == Some(EmptyHeaderKey)
    ensures h.key != "" && e.Some? ==> e == Some(ReservedKey(h.key))
  {
    if h.key == "" {
      return Some(EmptyHeaderKey);
    }
    for i := 0 to |RESERVED_HEADER_KEYS|
      invariant h.key !in RESERVED_HEADER_KEYS[..i]
    {
      if RESERVED_HEADER_KEYS[i] == h.key {
        return Some(ReservedKey(RESERVED_HEADER_KEYS[i]));
      }
    }
    return None;
  }

  /** The last value given for a key. */
  function LastValue(hs: seq<Header>, key: string): Option<string> {
    if hs == [] then None
    else if hs[|hs| - 1].key == key then Some(hs[|hs| - 1].value)
    else LastValue(hs[..|hs| - 1], key)
  }

  function KeysOf(hs: seq<Header>): set<string> {
    set i | 0 <= i < |hs| :: hs[i].key
  }

  lemma {:induction false} LastValueOfKeys(hs: seq<Header>, key: string)
    ensures key in KeysOf(hs) <==> LastValue(hs, key).Some?
  {
    if hs != [] {
      var n := |hs| - 1;
      LastValueOfKeys(hs[..n], key);
      KeysOfSnoc(hs[..n], hs[n]);
      assert hs == hs[..n] + [hs[n]];
    }
  }

  lemma KeysOfSnoc(hs: seq<Header>, h: Header)
    ensures KeysOf(hs + [h]) == KeysOf(hs) + {h.key}
  {
    var all := hs + [h];
    forall k | k in KeysOf(hs) ensures k in KeysOf(all) {
      var i :| 0 <= i < |hs| && hs[i].key == k;
      assert all[i].key == k;
    }
    assert all[|hs|].key == h.key;
  }

  /** Headers set one after the other: each key carries its last value. */
  function Layered(hs: seq<Header>): NatsHeader {
    map k | k in KeysOf(hs) && LastValue(hs, k).Some? :: [LastValue(hs, k).value]
  }

  lemma LayeredSnoc(hs: seq<Header>, h: Header)
    ensures Layered(hs + [h]) == Set(Layered(hs), h.key, h.value)
  {
    var all := hs + [h];
    assert all[..|hs|] == hs;
    KeysOfSnoc(hs, h);
    forall k ensures k in KeysOf(hs) <==> LastValue(hs, k).Some? {
      LastValueOfKeys(hs, k);
    }
    assert forall k :: k in KeysOf(all) ==> LastValue(all, k) == if k == h.key then Some(h.value) else LastValue(hs, k);
  }

  lemma {:induction false} LastValueConcat(a: seq<Header>, b: seq<Header>, key: string)
    ensures LastValue(a + b, key) == if LastValue(b, key).Some? then LastValue(b, key) else LastValue(a, key)
  {
    if b == [] {
      assert a + b == a;
    } else {
      var n := |b| - 1;
      assert (a + b)[..|a| + n] == a + b[..n];
      LastValueConcat(a, b[..n], key);
    }
  }
}
