/** The publisher: how it is wired to a connection, how it assembles headers, and what
    it puts on the wire. */
module Publishers {
  import opened Wrappers
  import opened Naming
  import opened Headers
  import opened Metrics

  const CE_SPECVERSION := "ce-specversion"
  const CE_TYPE := "ce-type"
  const CE_SOURCE := "ce-source"
  const CE_DATACONTENTTYPE := "ce-datacontenttype"
  const CE_TIME := "ce-time"
  const CE_ID := "ce-id"
  const SPECVERSION_VALUE := "1.0"
  const CONTENT_TYPE := "application/json"

  /** JetStream publish, or a core request with its timeout. */
  datatype Transport = JetStream | CoreRequest(timeout: int)

  datatype PublisherState = PublisherState(
    stream: string,
    serviceName: string,
    defaultHeaders: seq<Header>,
    target: Option<string>,       // set once the publisher was wired to a service
    transport: Option<Transport>)

  const NEW_PUBLISHER := PublisherState("", "", [], None, None)

  datatype NatsMsg = NatsMsg(subject: string, data: string, header: NatsHeader)
  datatype PublishSample = PublishSample(succeeded: bool, stream: string, routingKey: string)
  datatype PublishError = InvalidHeader(error: HeaderError) | MarshalFailed | PublishFailed

  /** One call of Publish: its arguments and what the surroundings contribute. */
  datatype PublishCall = PublishCall(
    routingKey: string,
    payload: Option<string>,        // None: the message cannot be marshalled
    headers: seq<Header>,
    id: string,                     // the generated message id
    time: string,                   // the current time, formatted
    injected: map<string, string>,  // what the propagator writes
    accepted: bool)                 // whether the transport accepts the message

  function SubjectOf(p: PublisherState, routingKey: string): string {
    if p.target.Some? then ServiceRequestSubject(p.target.value, routingKey) else SubjectName(p.stream, routingKey)
  }

  predicate ValidHeaders(headers: seq<Header>) {
    forall i :: 0 <= i < |headers| ==> AllowedKey(headers[i].key)
  }

  /** The first header that is refused. */
  predicate FirstInvalid(headers: seq<Header>, i: nat)
    requires i < |headers|
  {
    ValidHeaders(headers[..i]) && !AllowedKey(headers[i].key)
  }

  // ---- the headers a message carries, key by key ------------------------------------

  /** The CloudEvents attributes in the order in which they are defaulted. */
  function CeDefaults(p: PublisherState, call: PublishCall): seq<Header> {
    [ Header(CE_SPECVERSION, SPECVERSION_VALUE),
      Header(CE_TYPE, call.routingKey),
      Header(CE_SOURCE, p.serviceName),
      Header(CE_DATACONTENTTYPE, CONTENT_TYPE),
      Header(CE_TIME, call.time),
      Header(CE_ID, call.id) ]
  }

  /** What the caller and the defaults say about a key; the empty string when nothing. */
  function Given(p: PublisherState, call: PublishCall, key: string): string {
    var v := LastValue(p.defaultHeaders + call.headers, key);
    if v.Some? then v.value else ""
  }

  function ExpectedValue(p: PublisherState, call: PublishCall, key: string): string {
    if key in call.injected then call.injected[key]
    else if Given(p, call, key) == "" && LastValue(CeDefaults(p, call), key).Some? then
      LastValue(CeDefaults(p, call), key).value
    else Given(p, call, key)
  }

  function ExpectedHeaders(p: PublisherState, call: PublishCall): NatsHeader {
    map k | k in KeysOf(p.defaultHeaders + call.headers) + KeysOf(CeDefaults(p, call)) + call.injected.Keys ::
      [ExpectedValue(p, call, k)]
  }

  function SetDefault(h: NatsHeader, key: string, value: string): NatsHeader {
    if Get(h, key) == "" then Set(h, key, value) else h
  }

  function FillDefaults(h: NatsHeader, defaults: seq<Header>): NatsHeader {
    if defaults == [] then h
    else
      var last := defaults[|defaults| - 1];
      SetDefault(FillDefaults(h, defaults[..|defaults| - 1]), last.key, last.value)
  }

  /** Headers with one value per key, as Set leaves them. */
  predicate SingleValued(h: NatsHeader) {
    forall k :: k in h ==> |h[k]| == 1
  }

  predicate DistinctKeys(hs: seq<Header>) {
    forall i, j :: 0 <= i < j < |hs| ==> hs[i].key != hs[j].key
  }

  /** Filling in defaults touches exactly the keys that are missing or empty. */
  lemma {:induction false} DefaultsFillGaps(h: NatsHeader, defaults: seq<Header>)
    requires SingleValued(h) && DistinctKeys(defaults)
    ensures SingleValued(FillDefaults(h, defaults))
    ensures FillDefaults(h, defaults).Keys == h.Keys + KeysOf(defaults)
    ensures forall k :: Get(FillDefaults(h, defaults), k)
                        == if Get(h, k) == "" && LastValue(defaults, k).Some? then LastValue(defaults, k).value
                           else Get(h, k)
  {
    if defaults != [] {
      var n := |defaults| - 1;
      var before, last := defaults[..n], defaults[n];
      DefaultsFillGaps(h, before);
      assert defaults == before + [last];
      KeysOfSnoc(before, last);
      LastValueOfKeys(before, last.key);
      assert last.key !in KeysOf(before);
    }
  }

  lemma CeKeysDiffer(p: PublisherState, call: PublishCall)
    ensures DistinctKeys(CeDefaults(p, call))
  {
    assert CE_TYPE[4] == 'y' && CE_TIME[4] == 'i';
  }

  lemma {:induction false} LastValueAt(hs: seq<Header>, i: nat)
    requires DistinctKeys(hs) && i < |hs|
    ensures LastValue(hs, hs[i].key) == Some(hs[i].value)
  {
    if i < |hs| - 1 {
      LastValueAt(hs[..|hs| - 1], i);
    }
  }

  lemma ServiceIsNotCe(p: PublisherState, call: PublishCall)
    ensures LastValue(CeDefaults(p, call), HEADER_SERVICE) == None
  {
    var ds := CeDefaults(p, call);
    LastValueOfKeys(ds, HEADER_SERVICE);
    forall i | 0 <= i < |ds| ensures ds[i].key[0] == 'c' && ds[i].key != HEADER_SERVICE {
      assert ds[i].key[0] == 'c' && HEADER_SERVICE[0] == 's';
    }
  }

  lemma AssembledIsExpected(p: PublisherState, call: PublishCall)
    ensures var h := FillDefaults(Layered(p.defaultHeaders + call.headers), CeDefaults(p, call));
      ExpectedHeaders(p, call) == Injected(h, call.injected)
  {
    CeKeysDiffer(p, call);
    AssembledFrom(p, call, CeDefaults(p, call));
  }

  lemma LayeredIsGiven(p: PublisherState, call: PublishCall)
    ensures Layered(p.defaultHeaders + call.headers).Keys == KeysOf(p.defaultHeaders + call.headers)
    ensures SingleValued(Layered(p.defaultHeaders + call.headers))
    ensures forall k :: Get(Layered(p.defaultHeaders + call.headers), k) == Given(p, call, k)
  {
    var hs := p.defaultHeaders + call.headers;
    forall k
      ensures k in Layered(hs) <==> k in KeysOf(hs)
      ensures Get(Layered(hs), k) == Given(p, call, k)
    {
      LastValueOfKeys(hs, k);
    }
  }

  lemma FromPointwise(h: NatsHeader, p: PublisherState, call: PublishCall)
    requires SingleValued(h)
    requires h.Keys == KeysOf(p.defaultHeaders + call.headers) + KeysOf(CeDefaults(p, call))
    requires forall k :: k in h && k !in call.injected ==> Get(h, k) == ExpectedValue(p, call, k)
    ensures ExpectedHeaders(p, call) == Injected(h, call.injected)
  {
    var all := Injected(h, call.injected);
    assert ExpectedHeaders(p, call).Keys == all.Keys;
    forall k | k in all ensures all[k] == [ExpectedValue(p, call, k)] {
      if k !in call.injected {
        assert all[k] == h[k] == [Get(h, k)];
      }
    }
  }

  lemma AssembledFrom(p: PublisherState, call: PublishCall, defaults: seq<Header>)
    requires DistinctKeys(defaults) && defaults == CeDefaults(p, call)
    ensures var h := FillDefaults(Layered(p.defaultHeaders + call.headers), defaults);
      ExpectedHeaders(p, call) == Injected(h, call.injected)
  {
    var layered := Layered(p.defaultHeaders + call.headers);
    LayeredIsGiven(p, call);
    DefaultsFillGaps(layered, defaults);
    FromPointwise(FillDefaults(layered, defaults), p, call);
  }

  lemma {:induction false} FillFromEnd(h: NatsHeader, defaults: seq<Header>, last: Header)
    ensures FillDefaults(h, defaults + [last]) == SetDefault(FillDefaults(h, defaults), last.key, last.value)
  {
    assert (defaults + [last])[..|defaults|] == defaults;
  }

  /** The step-by-step code is the fold over the table, the message id included. */
  lemma StepwiseDefaults(headers: NatsHeader, p: PublisherState, call: PublishCall)
    requires SingleValued(headers)
    ensures var h1 := SetDefault(headers, CE_SPECVERSION, SPECVERSION_VALUE);
      var h2 := SetDefault(h1, CE_TYPE, call.routingKey);
      var h3 := SetDefault(h2, CE_SOURCE, p.serviceName);
      var h4 := SetDefault(h3, CE_DATACONTENTTYPE, CONTENT_TYPE);
      var h5 := SetDefault(h4, CE_TIME, call.time);
      Set(h5, CE_ID, if Get(h5, CE_ID) != "" then Get(h5, CE_ID) else call.id)
        == FillDefaults(headers, CeDefaults(p, call))
  {
    var ds := CeDefaults(p, call);
    assert ds == [] + [ds[0]] + [ds[1]] + [ds[2]] + [ds[3]] + [ds[4]] + [ds[5]];
    FillFromEnd(headers, [], ds[0]);
    FillFromEnd(headers, [] + [ds[0]], ds[1]);
    FillFromEnd(headers, [] + [ds[0]] + [ds[1]], ds[2]);
    FillFromEnd(headers, [] + [ds[0]] + [ds[1]] + [ds[2]], ds[3]);
    FillFromEnd(headers, [] + [ds[0]] + [ds[1]] + [ds[2]] + [ds[3]], ds[4]);
    FillFromEnd(headers, [] + [ds[0]] + [ds[1]] + [ds[2]] + [ds[3]] + [ds[4]], ds[5]);
    var h5 := FillDefaults(headers, [] + [ds[0]] + [ds[1]] + [ds[2]] + [ds[3]] + [ds[4]]);
    assert SingleValued(h5);
    KeepsOwnValue(h5, CE_ID);
  }

  lemma KeepsOwnValue(h: NatsHeader, key: string)
    requires SingleValued(h)
    ensures Get(h, key) != "" ==> Set(h, key, Get(h, key)) == h
  {
    if Get(h, key) != "" {
      assert h[key] == [Get(h, key)];
    }
  }

  // ---- the publisher object -----------------------------------------------------------

  /** Where messages and publish counters end up.  The mapper is the metric label mapper. */
  class Wire {
    const mapper: string -> string
    var sent: seq<NatsMsg>
    var samples: seq<PublishSample>

    constructor (mapper: string -> string)
      ensures this.mapper == mapper && sent == [] && samples == []
    {
      this.mapper := mapper;
      sent, samples := [], [];
    }
  }

  class Publisher {
    var stream: string
    var serviceName: string
    var defaultHeaders: seq<Header>
    var target: Option<string>
    var transport: Option<Transport>

    function State(): PublisherState
      reads this
    {
      PublisherState(stream, serviceName, defaultHeaders, target, transport)
    }

    constructor ()
      ensures State() == NEW_PUBLISHER
    {
      stream, serviceName, defaultHeaders, target, transport := "", "", [], None, None;
    }

    method SetTransport(transport: Transport)
      modifies this
      ensures State() == old(State()).(transport := Some(transport))
    {
      this.transport := Some(transport);
    }

    method SetTarget(service: string)
      modifies this
      ensures State() == old(State()).(target := Some(service))
    {
      target := Some(service);
    }

    method Setup(stream: string, serviceName: string)
      modifies this
      ensures State() == SetupWiring(old(State()), stream, serviceName)
    {
      this.stream := stream;
      this.serviceName := serviceName;
      defaultHeaders := defaultHeaders + [Header(HEADER_SERVICE, serviceName)];
    }

    /** Sends one message: nothing leaves when a header is invalid or the payload cannot be
        marshalled; otherwise exactly one message with the expected headers does, and one
        publish counter moves. */
    method Publish(call: PublishCall, wire: Wire) returns (r: Result<NatsMsg, PublishError>)
      requires transport.Some?
      modifies wire
      ensures !ValidHeaders(call.headers) ==>
        exists i :: 0 <= i < |call.headers| && FirstInvalid(call.headers, i)
                    && r == Fail(InvalidHeader(KeyError(call.headers[i].key)))
      ensures ValidHeaders(call.headers) && call.payload.None? ==> r == Fail(MarshalFailed)
      ensures !ValidHeaders(call.headers) || call.payload.None?
        ==> wire.sent == old(wire.sent) && wire.samples == old(wire.samples)
      ensures ValidHeaders(call.headers) && call.payload.Some? ==>
        var msg := NatsMsg(SubjectOf(State(), call.routingKey), call.payload.value, ExpectedHeaders(State(), call));
        && r == (if call.accepted then Ok(msg) else Fail(PublishFailed))
        && wire.sent == old(wire.sent) + [msg]
        && wire.samples == old(wire.samples)
           + [PublishSample(call.accepted, stream, RoutingKeyLabel(wire.mapper, call.routingKey))]
    {
      var h: NatsHeader := map[];
      for i := 0 to |defaultHeaders|
        invariant unchanged(wire)
        invariant h == Layered(defaultHeaders[..i])
      {
        LayeredSnoc(defaultHeaders[..i], defaultHeaders[i]);
        assert defaultHeaders[..i + 1] == defaultHeaders[..i] + [defaultHeaders[i]];
        h := Set(h, defaultHeaders[i].key, defaultHeaders[i].value);
      }
      assert defaultHeaders[..|defaultHeaders|] == defaultHeaders == defaultHeaders + call.headers[..0];
      for i := 0 to |call.headers|
        invariant unchanged(wire)
        invariant ValidHeaders(call.headers[..i])
        invariant h == Layered(defaultHeaders + call.headers[..i])
      {
        var e := ValidateKey(call.headers[i]);
        if e.Some? {
          assert FirstInvalid(call.headers, i);
          return Fail(InvalidHeader(e.value));
        }
        LayeredSnoc(defaultHeaders + call.headers[..i], call.headers[i]);
        assert defaultHeaders + call.headers[..i + 1] == defaultHeaders + call.headers[..i] + [call.headers[i]];
        h := Set(h, call.headers[i].key, call.headers[i].value);
      }
      assert call.headers[..|call.headers|] == call.headers;
      r := PublishMessage(call, h, wire);
    }

    method PublishMessage(call: PublishCall, headers: NatsHeader, wire: Wire) returns (r: Result<NatsMsg, PublishError>)
      requires transport.Some?
      requires headers == Layered(defaultHeaders + call.headers)
      modifies wire
      ensures call.payload.None?
        ==> r == Fail(MarshalFailed) && wire.sent == old(wire.sent) && wire.samples == old(wire.samples)
      ensures call.payload.Some? ==>
        var msg := NatsMsg(SubjectOf(State(), call.routingKey), call.payload.value, ExpectedHeaders(State(), call));
        && r == (if call.accepted then Ok(msg) else Fail(PublishFailed))
        && wire.sent == old(wire.sent) + [msg]
        && wire.samples == old(wire.samples)
           + [PublishSample(call.accepted, stream, RoutingKeyLabel(wire.mapper, call.routingKey))]
    {
      var subject := SubjectName(stream, call.routingKey);
      if target.Some? {
        subject := ServiceRequestSubject(target.value, call.routingKey);
      }
      if call.payload.None? {
        return Fail(MarshalFailed);
      }
      var h := headers;
      h := SetDefault(h, CE_SPECVERSION, SPECVERSION_VALUE);
      h := SetDefault(h, CE_TYPE, call.routingKey);
      h := SetDefault(h, CE_SOURCE, serviceName);
      h := SetDefault(h, CE_DATACONTENTTYPE, CONTENT_TYPE);
      h := SetDefault(h, CE_TIME, call.time);
      StepwiseDefaults(headers, State(), call);
      var messageID := call.id;
      if Get(h, CE_ID) != "" {
        messageID := Get(h, CE_ID);
      }
      h := Set(h, CE_ID, messageID);
      h := Inject(h, call.injected);
      AssembledIsExpected(State(), call);
      var msg := NatsMsg(subject, call.payload.value, h);
      wire.sent := wire.sent + [msg];
      var routingKey := RoutingKeyLabel(wire.mapper, call.routingKey);
      wire.samples := wire.samples + [PublishSample(call.accepted, stream, routingKey)];
      if !call.accepted {
        return Fail(PublishFailed);
      }
      return Ok(msg);
    }
  }

  /** The carrier's pairs written over the headers. */
  function Injected(headers: NatsHeader, carrier: map<string, string>): NatsHeader {
    headers + map k | k in carrier :: [carrier[k]]
  }

  lemma InjectOne(headers: NatsHeader, carrier: map<string, string>, key: string, value: string)
    ensures Injected(headers, carrier[key := value]) == Set(Injected(headers, carrier), key, value)
  {
  }

  method Inject(headers: NatsHeader, carrier: map<string, string>) returns (h: NatsHeader)
    ensures h == Injected(headers, carrier)
  {
    h := headers;
    var todo := carrier.Keys;
    ghost var done: map<string, string> := map[];
    assert Injected(headers, done) == headers;
    while todo != {}
      invariant todo <= carrier.Keys
      invariant done.Keys == carrier.Keys - todo
      invariant forall k :: k in done ==> done[k] == carrier[k]
      invariant h == Injected(headers, done)
      decreases |todo|
    {
      var k :| k in todo;
      todo := todo - {k};
      InjectOne(headers, done, k, carrier[k]);
      h, done := Set(h, k, carrier[k]), done[k := carrier[k]];
    }
    assert done == carrier;
  }

  // ---- wiring ---------------------------------------------------------------------------

  function SetupWiring(p: PublisherState, stream: string, serviceName: string): PublisherState {
    p.(stream := stream, serviceName := serviceName,
       defaultHeaders := p.defaultHeaders + [Header(HEADER_SERVICE, serviceName)])
  }

  /** Set up at least once, and never otherwise given default headers. */
  predicate Wired(p: PublisherState) {
    && p.defaultHeaders != []
    && (forall i :: 0 <= i < |p.defaultHeaders| ==> p.defaultHeaders[i].key == HEADER_SERVICE)
    && p.defaultHeaders[|p.defaultHeaders| - 1].value == p.serviceName
  }

  /** Every setup call leaves the publisher wired, however often it was wired before. */
  lemma SetupWires(p: PublisherState, stream: string, serviceName: string)
    requires Wired(p) || p.defaultHeaders == []
    ensures var after := SetupWiring(p, stream, serviceName);
      && Wired(after) && after.stream == stream && after.serviceName == serviceName
      && after.target == p.target && after.transport == p.transport
      && |after.defaultHeaders| == |p.defaultHeaders| + 1
      && after.defaultHeaders[..|p.defaultHeaders|] == p.defaultHeaders
  {
  }

  lemma {:induction false} AllowedIsNotService(hs: seq<Header>)
    requires ValidHeaders(hs)
    ensures LastValue(hs, HEADER_SERVICE) == None
  {
    if hs != [] {
      AllowedIsNotService(hs[..|hs| - 1]);
    }
  }

  lemma {:induction false} OnlyServiceDefaults(hs: seq<Header>, key: string)
    requires forall i :: 0 <= i < |hs| ==> hs[i].key == HEADER_SERVICE
    requires key != HEADER_SERVICE
    ensures LastValue(hs, key) == None
  {
    if hs != [] {
      OnlyServiceDefaults(hs[..|hs| - 1], key);
    }
  }

  predicate IsCe(p: PublisherState, call: PublishCall, key: string) { LastValue(CeDefaults(p, call), key).Some? }

  predicate UserSays(call: PublishCall, key: string) { LastValue(call.headers, key).Some? }

  function UserValue(call: PublishCall, key: string): string
    requires UserSays(call, key)
  {
    LastValue(call.headers, key).value
  }

  /** Precedence: the user's last value of any other key counts and the defaults never
      shadow it; the service header is the publisher's own and cannot be overridden. */
  lemma HeaderPrecedence(p: PublisherState, call: PublishCall, key: string)
    requires Wired(p) && ValidHeaders(call.headers)
    requires key !in call.injected
    ensures key == HEADER_SERVICE ==>
      key in ExpectedHeaders(p, call) && ExpectedHeaders(p, call)[key] == [p.serviceName]
    ensures key != HEADER_SERVICE && UserSays(call, key) && (!IsCe(p, call, key) || UserValue(call, key) != "") ==>
      key in ExpectedHeaders(p, call) && ExpectedHeaders(p, call)[key] == [UserValue(call, key)]
    ensures IsCe(p, call, key) && (!UserSays(call, key) || UserValue(call, key) == "") ==>
      key in ExpectedHeaders(p, call) && ExpectedHeaders(p, call)[key] == [LastValue(CeDefaults(p, call), key).value]
    ensures key != HEADER_SERVICE && !IsCe(p, call, key) && !UserSays(call, key) ==>
      key !in ExpectedHeaders(p, call)
  {
    LastValueConcat(p.defaultHeaders, call.headers, key);
    LastValueOfKeys(p.defaultHeaders + call.headers, key);
    LastValueOfKeys(CeDefaults(p, call), key);
    ServiceIsNotCe(p, call);
    if key == HEADER_SERVICE {
      AllowedIsNotService(call.headers);
    } else {
      OnlyServiceDefaults(p.defaultHeaders, key);
    }
  }

  /** Whatever the propagator writes stands in the message. */
  lemma InjectedWins(p: PublisherState, call: PublishCall, key: string)
    requires key in call.injected
    ensures key in ExpectedHeaders(p, call) && ExpectedHeaders(p, call)[key] == [call.injected[key]]
  {
  }

  /** A call without headers of its own. */
  predicate Bare(call: PublishCall) { call.headers == [] && call.injected == map[] }

  lemma BareKeepsDefaults(p: PublisherState, call: PublishCall, i: nat)
    requires Wired(p) && Bare(call) && i < |CeDefaults(p, call)|
    ensures var d := CeDefaults(p, call)[i];
      d.key in ExpectedHeaders(p, call) && ExpectedHeaders(p, call)[d.key] == [d.value]
  {
    CeKeysDiffer(p, call);
    LastValueAt(CeDefaults(p, call), i);
    HeaderPrecedence(p, call, CeDefaults(p, call)[i].key);
  }

  lemma BareKeys(p: PublisherState, call: PublishCall, key: string)
    requires Wired(p) && Bare(call)
    ensures key in ExpectedHeaders(p, call) <==> key == HEADER_SERVICE || IsCe(p, call, key)
  {
    HeaderPrecedence(p, call, key);
  }

  lemma CeKeysAre(p: PublisherState, call: PublishCall, key: string)
    ensures IsCe(p, call, key)
      <==> key in {"ce-specversion", "ce-type", "ce-source", "ce-datacontenttype", "ce-time", "ce-id"}
  {
    var ds := CeDefaults(p, call);
    LastValueOfKeys(ds, key);
    assert ds[0].key in KeysOf(ds) && ds[1].key in KeysOf(ds) && ds[2].key in KeysOf(ds);
    assert ds[3].key in KeysOf(ds) && ds[4].key in KeysOf(ds) && ds[5].key in KeysOf(ds);
  }

  const BARE_KEYS: set<string> :=
    {"service", "ce-specversion", "ce-type", "ce-source", "ce-datacontenttype", "ce-time", "ce-id"}

  /** A plain message carries the service header and six CloudEvents attributes, and nothing
      else. */
  lemma BareMessage(p: PublisherState, call: PublishCall)
    requires Wired(p) && Bare(call)
    ensures var h := ExpectedHeaders(p, call);
      && h.Keys == BARE_KEYS
      && h["service"] == [p.serviceName]
      && h["ce-specversion"] == ["1.0"]
      && h["ce-type"] == [call.routingKey]
      && h["ce-source"] == [p.serviceName]
      && h["ce-datacontenttype"] == ["application/json"]
      && h["ce-time"] == [call.time]
      && h["ce-id"] == [call.id]
  {
    BareKeysAre(p, call);
    HeaderPrecedence(p, call, "service");
    BareKeepsDefaults(p, call, 0);
    BareKeepsDefaults(p, call, 1);
    BareKeepsDefaults(p, call, 2);
    BareKeepsDefaults(p, call, 3);
    BareKeepsDefaults(p, call, 4);
    BareKeepsDefaults(p, call, 5);
  }

  lemma BareKeysAre(p: PublisherState, call: PublishCall)
    requires Wired(p) && Bare(call)
    ensures ExpectedHeaders(p, call).Keys == BARE_KEYS
  {
    forall key ensures key in ExpectedHeaders(p, call) <==> key in BARE_KEYS {
      BareKeys(p, call, key);
      CeKeysAre(p, call, key);
    }
  }

  const REQUIRED_BY_CLOUDEVENTS: set<string> := {CE_ID, CE_SOURCE, CE_SPECVERSION, CE_TYPE}

  /** The attributes CloudEvents 1.0 requires are all non-empty exactly when the routing
      key is, or the user names a type. */
  lemma RequiredAttributesPresent(p: PublisherState, call: PublishCall)
    requires Wired(p) && ValidHeaders(call.headers)
    requires p.serviceName != "" && call.id != ""
    requires call.injected.Keys !! REQUIRED_BY_CLOUDEVENTS
    ensures (forall k :: k in REQUIRED_BY_CLOUDEVENTS ==> Get(ExpectedHeaders(p, call), k) != "")
      <==> call.routingKey != "" || Given(p, call, CE_TYPE) != ""
  {
    var ds := CeDefaults(p, call);
    CeKeysDiffer(p, call);
    forall i | 0 <= i < |ds|
      ensures ds[i].key in KeysOf(ds)
      ensures LastValue(ds, ds[i].key) == Some(ds[i].value)
    {
      LastValueAt(ds, i);
    }
    assert ds[0].key == CE_SPECVERSION && ds[1].key == CE_TYPE && ds[2].key == CE_SOURCE && ds[5].key == CE_ID;
    forall k | k in REQUIRED_BY_CLOUDEVENTS
      ensures Get(ExpectedHeaders(p, call), k) == ExpectedValue(p, call, k)
    {
    }
    assert CE_TYPE in REQUIRED_BY_CLOUDEVENTS;
  }

  /** What was published is what a consumer reads back, key by key. */
  lemma PublishedReadBack(p: PublisherState, call: PublishCall)
    ensures Decoded(ExpectedHeaders(p, call)).Keys == ExpectedHeaders(p, call).Keys
    ensures forall k :: k in ExpectedHeaders(p, call) ==>
      Decoded(ExpectedHeaders(p, call))[k] == Str(ExpectedValue(p, call, k))
    ensures Headers.Wire(Decoded(ExpectedHeaders(p, call))) == ExpectedHeaders(p, call)
  {
    BackAndOut(ExpectedHeaders(p, call));
    assert FirstValues(ExpectedHeaders(p, call)) == ExpectedHeaders(p, call);
  }
}
