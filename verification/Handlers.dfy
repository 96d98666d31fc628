/** Event handlers as the consumer sees them: the wrapper that decodes the payload,
    the type-mapping wrapper, and the errors they return. */
module Handlers {
  import opened Wrappers

  datatype ErrorId = ParseJSON | NoMessageType | Plain(text: string)

  /** A Go error with everything it wraps. */
  datatype Err = Err(id: ErrorId, causes: seq<Err>)

  /** `errors.Is`: the target is the error itself or is wrapped somewhere inside it. */
  predicate Is(e: Err, target: ErrorId) {
    e.id == target || exists i :: 0 <= i < |e.causes| && Is(e.causes[i], target)
  }

  /** The error that `path` leads to, one cause after the other. */
  function At(e: Err, path: seq<nat>): Option<Err>
    decreases |path|
  {
    if path == [] then Some(e)
    else if path[0] < |e.causes| then At(e.causes[path[0]], path[1..])
    else None
  }

  predicate LeadsTo(e: Err, path: seq<nat>, target: ErrorId) {
    At(e, path).Some? && At(e, path).value.id == target
  }

  lemma {:induction false} IsHasPath(e: Err, target: ErrorId) returns (path: seq<nat>)
    requires Is(e, target)
    ensures LeadsTo(e, path, target)
  {
    if e.id == target {
      path := [];
    } else {
      var i :| 0 <= i < |e.causes| && Is(e.causes[i], target);
      var rest := IsHasPath(e.causes[i], target);
      path := [i] + rest;
      assert path[1..] == rest;
    }
  }

  lemma {:induction false} PathMeansIs(e: Err, path: seq<nat>, target: ErrorId)
    requires LeadsTo(e, path, target)
    ensures Is(e, target)
    decreases |path|
  {
    if path != [] {
      PathMeansIs(e.causes[path[0]], path[1..], target);
    }
  }

  /** The search finds a target at any depth and in any branch, and nothing else. */
  lemma IsExactly(e: Err, target: ErrorId)
    ensures Is(e, target) <==> exists path :: LeadsTo(e, path, target)
  {
    if Is(e, target) {
      var path := IsHasPath(e, target);
    }
    if path :| LeadsTo(e, path, target) {
      PathMeansIs(e, path, target);
    }
  }

  datatype HandlerKind = Raw | Typed | TypeMapped(nilMapper: bool)

  datatype Handler = Handler(id: nat, kind: HandlerKind)

  /** What the surroundings decide about one call: whether the payload decodes, whether
      the mapper knows a type for the key, and what the user's function returns. */
  datatype CallInput = CallInput(decodes: bool, hasType: bool, result: Option<Err>)

  /** `called` tells whether the user's function ran at all. */
  datatype CallResult = CallResult(called: bool, err: Option<Err>)

  function Wrapped(text: string, cause: ErrorId): Err {
    Err(Plain(text), [Err(cause, [])])
  }

  function Invoke(h: Handler, input: CallInput): CallResult {
    match h.kind
    case Raw => CallResult(true, input.result)
    case Typed =>
      if input.decodes then CallResult(true, input.result)
      else CallResult(false, Some(Wrapped("payload", ParseJSON)))
    case TypeMapped(nilMapper) =>
      if nilMapper then CallResult(false, Some(Err(Plain("TypeMapper is nil"), [])))
      else if !input.hasType then CallResult(false, Some(Err(NoMessageType, [])))
      else if !input.decodes then CallResult(false, Some(Wrapped("payload", ParseJSON)))
      else CallResult(true, input.result)
  }

  datatype Verdict = Ack | Nak | Term

  /** How a delivery is settled once its handler has returned. */
  function Settlement(err: Option<Err>): Verdict {
    if err.None? then Ack
    else if Is(err.value, ParseJSON) then Term
    else if Is(err.value, NoMessageType) then Term
    else Nak
  }

  /** Everything the wrapper needs before it can call the user's function: nothing for a raw
      payload, a payload that decodes, and for a mapped one a mapper that knows a type. */
  predicate CanRun(h: Handler, input: CallInput) {
    && (h.kind.TypeMapped? ==> !h.kind.nilMapper && input.hasType)
    && (!h.kind.Raw? ==> input.decodes)
  }

  /** The mapper has no type for the key. */
  predicate LacksType(h: Handler, input: CallInput) {
    h.kind == TypeMapped(false) && !input.hasType
  }

  /** The payload was looked at and does not decode. */
  predicate Undecodable(h: Handler, input: CallInput) {
    (h.kind == Typed || (h.kind == TypeMapped(false) && input.hasType)) && !input.decodes
  }

  lemma WrappedIs(text: string, cause: ErrorId, target: ErrorId)
    ensures Is(Wrapped(text, cause), target) <==> target == cause || target == Plain(text)
  {
    assert Is(Wrapped(text, cause).causes[0], target) <==> target == cause;
  }

  /** The user's function runs exactly when everything it needs is there, and then its
      result is the result; otherwise the error says what was missing. */
  lemma CalledExactly(h: Handler, input: CallInput)
    ensures var r := Invoke(h, input);
      && (r.called <==> CanRun(h, input))
      && (r.called ==> r.err == input.result)
      && (!r.called ==> r.err.Some?)
      && (!r.called ==> (Is(r.err.value, ParseJSON) <==> Undecodable(h, input)))
      && (!r.called ==> (Is(r.err.value, NoMessageType) <==> LacksType(h, input)))
      && (!r.called && !Undecodable(h, input) && !LacksType(h, input) <==> h.kind == TypeMapped(true))
  {
    WrappedIs("payload", ParseJSON, ParseJSON);
    WrappedIs("payload", ParseJSON, NoMessageType);
  }

  /** A call is terminated exactly when the payload cannot be decoded, the type is unknown, or
      the user's own error says one of the two; acknowledged exactly when the user's function
      ran and returned nil. */
  lemma SettlementExactly(h: Handler, input: CallInput)
    ensures Settlement(Invoke(h, input).err) == Ack <==> CanRun(h, input) && input.result == None
    ensures Settlement(Invoke(h, input).err) == Term <==>
      || Undecodable(h, input)
      || LacksType(h, input)
      || (CanRun(h, input) && input.result.Some?
          && (Is(input.result.value, ParseJSON) || Is(input.result.value, NoMessageType)))
  {
    CalledExactly(h, input);
  }

  /** A wrapped handler reports success only after the user's function ran and returned
      nil; when the function did not run, the delivery is terminated, unless the mapper
      is nil, which leaves it to redelivery. */
  lemma InvokeVerdict(h: Handler, input: CallInput)
    ensures var r := Invoke(h, input);
      && (Settlement(r.err) == Ack <==> r.called && input.result == None)
      && (!r.called ==> (Settlement(r.err) == Nak <==> h.kind == TypeMapped(true)))
      && (r.called ==> r.err == input.result)
  {
    CalledExactly(h, input);
  }
}
