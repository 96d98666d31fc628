/** One consumer registration's configuration and the options that shape it. */
module ConsumerConfigs {
  import opened Wrappers
  import opened Naming
  import opened Handlers

  /** `maxDeliver` 0 and `backOff` None mean "use the connection default". */
  datatype ConsumerConfig = ConsumerConfig(
    stream: string,
    routingKey: string,
    consumerName: string,
    ephemeral: bool,
    handler: Handler,
    suffix: string,
    maxDeliver: int,
    backOff: Option<seq<int>>)

  datatype ConsumerOption =
    | AddConsumerNameSuffix(suffix: string)
    | WithMaxDeliver(n: int)
    | WithBackOff(durations: Option<seq<int>>)

  datatype OptionError = EmptySuffix | NegativeMaxDeliver(n: int)

  predicate ValidOption(o: ConsumerOption) {
    match o
    case AddConsumerNameSuffix(suffix) => suffix != ""
    case WithMaxDeliver(n) => n >= 0
    case WithBackOff(_) => true
  }

  /** An empty suffix or a negative limit, and the error it is refused with. */
  predicate Refuses(o: ConsumerOption, e: OptionError) {
    || (o == AddConsumerNameSuffix("") && e == EmptySuffix)
    || (o.WithMaxDeliver? && o.n < 0 && e == NegativeMaxDeliver(o.n))
  }

  predicate ValidOptions(opts: seq<ConsumerOption>) {
    forall i :: 0 <= i < |opts| ==> ValidOption(opts[i])
  }

  /** Options are refused exactly for an empty suffix or a negative limit among them. */
  lemma RefusedExactly(opts: seq<ConsumerOption>)
    ensures !ValidOptions(opts)
      <==> exists i :: 0 <= i < |opts|
                       && (opts[i] == AddConsumerNameSuffix("") || (opts[i].WithMaxDeliver? && opts[i].n < 0))
  {
    if !ValidOptions(opts) {
      var i :| 0 <= i < |opts| && !ValidOption(opts[i]);
      assert opts[i] == AddConsumerNameSuffix("") || (opts[i].WithMaxDeliver? && opts[i].n < 0);
    }
    if i :| 0 <= i < |opts| && (opts[i] == AddConsumerNameSuffix("") || (opts[i].WithMaxDeliver? && opts[i].n < 0)) {
      assert !ValidOption(opts[i]);
    }
  }

  // The last option of each kind decides.

  function LastSuffix(opts: seq<ConsumerOption>): string {
    if opts == [] then ""
    else match opts[|opts| - 1]
      case AddConsumerNameSuffix(suffix) => suffix
      case _ => LastSuffix(opts[..|opts| - 1])
  }

  function LastMaxDeliver(opts: seq<ConsumerOption>): int {
    if opts == [] then 0
    else match opts[|opts| - 1]
      case WithMaxDeliver(n) => n
      case _ => LastMaxDeliver(opts[..|opts| - 1])
  }

  function LastBackOff(opts: seq<ConsumerOption>): Option<seq<int>> {
    if opts == [] then None
    else match opts[|opts| - 1]
      case WithBackOff(durations) => durations
      case _ => LastBackOff(opts[..|opts| - 1])
  }

  /** No option of the kind of `o` stands behind position `i`. */
  predicate LastOfKind(opts: seq<ConsumerOption>, i: nat)
    requires i < |opts|
  {
    forall j :: i < j < |opts| ==>
      && (opts[i].AddConsumerNameSuffix? ==> !opts[j].AddConsumerNameSuffix?)
      && (opts[i].WithMaxDeliver? ==> !opts[j].WithMaxDeliver?)
      && (opts[i].WithBackOff? ==> !opts[j].WithBackOff?)
  }

  /** The last option of each kind decides, whatever else is given. */
  lemma {:induction false} LastOptionWins(opts: seq<ConsumerOption>, i: nat)
    requires i < |opts| && LastOfKind(opts, i)
    ensures match opts[i]
      case AddConsumerNameSuffix(suffix) => LastSuffix(opts) == suffix
      case WithMaxDeliver(n) => LastMaxDeliver(opts) == n
      case WithBackOff(durations) => LastBackOff(opts) == durations
  {
    var n := |opts| - 1;
    if i < n {
      assert opts[..n][i] == opts[i];
      assert forall j :: 0 <= j < n ==> opts[..n][j] == opts[j];
      LastOptionWins(opts[..n], i);
    }
  }

  /** Without an option of a kind the connection default is left in place. */
  lemma {:induction false} NoOptionNoChange(opts: seq<ConsumerOption>)
    ensures (forall i :: 0 <= i < |opts| ==> !opts[i].AddConsumerNameSuffix?) ==> LastSuffix(opts) == ""
    ensures (forall i :: 0 <= i < |opts| ==> !opts[i].WithMaxDeliver?) ==> LastMaxDeliver(opts) == 0
    ensures (forall i :: 0 <= i < |opts| ==> !opts[i].WithBackOff?) ==> LastBackOff(opts) == None
  {
    if opts != [] {
      var n := |opts| - 1;
      assert forall j :: 0 <= j < n ==> opts[..n][j] == opts[j];
      NoOptionNoChange(opts[..n]);
    }
  }

  function DurableName(service: string, suffix: string): string {
    if suffix != "" then ConsumerNameWithSuffix(service, suffix) else ConsumerName(service)
  }

  function NameFor(ephemeral: bool, service: string, suffix: string): string {
    if ephemeral then "" else DurableName(service, suffix)
  }

  /** The configuration a registration with valid options stands for. */
  function ConfigFor(stream: string, routingKey: string, ephemeral: bool, handler: Handler,
                     service: string, opts: seq<ConsumerOption>): ConsumerConfig
  {
    ConsumerConfig(stream, routingKey, NameFor(ephemeral, service, LastSuffix(opts)), ephemeral, handler,
                   LastSuffix(opts), LastMaxDeliver(opts), LastBackOff(opts))
  }

  /** Runs the options in order on a bare configuration, then names it. */
  method NewConsumerConfig(stream: string, routingKey: string, ephemeral: bool, handler: Handler,
                           service: string, opts: seq<ConsumerOption>)
    returns (r: Result<ConsumerConfig, OptionError>)
    ensures r.Ok? <==> ValidOptions(opts)
    ensures r.Fail? ==> exists i :: 0 <= i < |opts| && ValidOptions(opts[..i]) && Refuses(opts[i], r.error)
    ensures r.Ok? ==> r.value == ConfigFor(stream, routingKey, ephemeral, handler, service, opts)
  {
    var cfg := ConsumerConfig(stream, routingKey, "", ephemeral, handler, "", 0, None);
    for i := 0 to |opts|
      invariant ValidOptions(opts[..i])
      invariant cfg == ConsumerConfig(stream, routingKey, "", ephemeral, handler,
                                      LastSuffix(opts[..i]), LastMaxDeliver(opts[..i]), LastBackOff(opts[..i]))
    {
      assert opts[..i + 1][..i] == opts[..i];
      match opts[i] {
        case AddConsumerNameSuffix(suffix) =>
          if suffix == "" {
            assert Refuses(opts[i], EmptySuffix);
            return Fail(EmptySuffix);
          }
          cfg := cfg.(suffix := suffix);
        case WithMaxDeliver(n) =>
          if n < 0 {
            assert Refuses(opts[i], NegativeMaxDeliver(n));
            return Fail(NegativeMaxDeliver(n));
          }
          cfg := cfg.(maxDeliver := n);
        case WithBackOff(durations) =>
          cfg := cfg.(backOff := durations);
      }
    }
    assert opts[..|opts|] == opts;
    if !ephemeral {
      var name := ConsumerName(service);
      if cfg.suffix != "" {
        name := ConsumerNameWithSuffix(service, cfg.suffix);
      }
      cfg := cfg.(consumerName := name);
    }
    return Ok(cfg);
  }

  /** Names tell kinds apart: on one service, two consumers share a name exactly when
      both are ephemeral, or both are durable with the same suffix. */
  lemma NamesTellKinds(service: string, e1: bool, suffix1: string, e2: bool, suffix2: string)
    requires service != ""
    ensures NameFor(e1, service, suffix1) == NameFor(e2, service, suffix2)
      <==> (e1 && e2) || (!e1 && !e2 && suffix1 == suffix2)
  {
    var n1, n2 := DurableName(service, suffix1), DurableName(service, suffix2);
    if suffix1 != "" {
      assert n1[|service| + 1..] == suffix1;
    }
    if suffix2 != "" {
      assert n2[|service| + 1..] == suffix2;
    }
  }
}
