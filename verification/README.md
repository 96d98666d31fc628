# Verified model of a NATS/JetStream messaging transport

This project models the logic of a Go messaging library on top of NATS JetStream and
proves properties of it in Dafny. `dafny verify dfyconfig.toml` checks everything.

What is modelled, from the bottom up:

- **Names and matching** (`Words`, `Naming`). Subjects, filters and routing keys are real
  strings, split and joined at dots. The server's filter match and the dispatcher's routing
  key match are two separate definitions; what connects them is proved.
- **Handlers** (`Handlers`, `RoutingKeyHandlers`). The decoding wrappers, wrapped errors as
  trees searched by `errors.Is`, and the handler map whose lookup walks patterns in no
  particular order.
- **Registrations and groups** (`ConsumerConfigs`, `ConsumerGroups`, `GroupMeaning`,
  `Overlaps`). Options, the grouping loop, the one broker consumer per group, when that
  consumer behaves like one consumer per registration, and a test on the patterns that
  tells.
- **Start** (`Brokers`, `Setups`, `Connections`, `Startup`, `Retries`, `Retention`,
  `Topology`). Setup
  functions as a program over connection and broker, any broker call of which may fail; the
  `Connection` object is proved against that program, and theorems are about the program.
  `Retries` is about a Start that follows a failed one.
- **Publishing** (`Headers`, `Metrics`, `Publishers`). Header assembly in layers, defaults, conversion.
- **Deliveries** (`Notifications`, `Delivery`, `DeliveryInvariants`, `DeliveryNotes`,
  `DeliveryRuns`, `Outcomes`, `MessageHandlers`). Many messages in flight at many consumers, interleaved effect by
  effect, against a broker that delivers, redelivers and gives up. The message handlers
  are objects whose methods are proved to be runs of these steps.
- **Request-response** (`RequestResponse`), **the service as a whole** (`EndToEnd`,
  `ServiceMeaning`) and **one service against another** (`Requests`).

## Assumptions

- Name building and matching come from another module of the same authors that is not part
  of this model. Its functions are defined here as the repository's tests pin them
  (`naming_test.go:31-82`, `routingkey_handlers_test.go:36-88`; see `PinnedStreamNames`,
  `PinnedFilters`, `PinnedWordMatches`). The tests do not say whether `#` may take zero
  words, as in section 3.1.3.3 of AMQP 0-9-1. `HashReading` is a parameter everywhere, and
  results hold for both readings unless `OneOrMore` is written.
- `>` as a token of a pattern is not assumed to be a wildcard of the dispatcher.
  `docs/consumers.md` says both spellings work; the repository does not show that its
  dispatcher agrees, so `PlainPattern` asks for the `#` spelling, standing last.
- The broker is an environment. Creating overwrites, a consumer gets what its stream
  captures and one of its filters admits, and a positive MaxDeliver caps attempts. It takes
  any configuration, also a filter outside the consumer's stream; a broker that refuses one
  makes Start fail instead, like any other call that fails. A
  pending message may be delivered again at any time, which covers redelivery after a Nak
  and after a timeout, and any settlement may get lost. Any call of a Start may fail; which
  ones do is the set `Faults`, universally quantified.
- What a handler returns, whether a payload decodes, ids, times and what a propagator
  writes are inputs of the surroundings, universally quantified.

## What turned out false, and when it holds

- Group keys join stream and consumer name with a colon. Streams whose names contain colons
  can collide with another stream's group (`ColonsCollide`); then a registration is not
  served although Start succeeded and the topology lists it (`CollidingStreamIsUnserved`).
  `SharedKeyExactly` says which pairs collide and `TopologyFaithfulExactly` that the
  topology is faithful exactly without collisions.
- Grouping keeps the meaning of a message exactly when the message is unambiguous within
  its group (`GroupingPreservesMeaningExactly`). Overlapping patterns lose calls: of `o.*`
  and `o.c` only one handler is called for the key `o.c` (`OverlapLosesACall`). And if `#`
  may take no word, a message for `o` can go to the handler of `o.#`, which the broker did
  not mean (`HashMisdirectsACall`). A caller can tell from the patterns: a started service
  keeps every message's meaning exactly when no group fails the test `NeverAmbiguous`
  (`StartedServiceKeepsMeaningExactly`).
- A second registration's WithMaxDeliver is ignored, against `README.md:223-226`
  (`LaterMaxDeliverIgnored`); `MaxDeliverTakesEffect` says when it happens to hold, and
  `BackOffTakesEffect` the same for WithBackOff.
- Stripping the stream off a subject is right exactly for dot-free stream names
  (`KeyRoundTripExactly`).
- Wiring a publisher to a service sticks: wiring it to a stream afterwards leaves requests
  going to the service (`StreamSubjectExactly`).
- A ServiceRequestConsumer never replies on success (`CoreRepliesExactly`).
- Retrying a failed Start is not always starting afresh: it is exactly when the failed
  attempt declared no endpoint (`RetryIsFirstTryExactly`, `RetryCleanExactly`), which a
  caller can look up in the topology before retrying. `RetryDoubles` is a case in which a
  consumer is registered twice.
- A stream named `events.topic.exchange` is the stream `events`, but its endpoint is listed
  as a custom stream's, and that is the only such name (`EventStreamByShortNameOnly`).
- A message whose type mapper is nil is redelivered, not terminated (`InvokeVerdict`).

## Model

| member | source | states |
|---|---|---|
| Words.JoinOfSplit | naming.go:38-46 | subjects split into words and joined again are unchanged |
| Words.SplitOfJoin | naming.go:38-46 | dot-free words joined into a subject split into the same words |
| Naming.PinnedStreamNames | naming.go:33-36 | the stream names pinned by the tests, exchange suffix cut off |
| Naming.StreamNameExactly | naming.go:33-36 | exactly one exchange suffix is cut off and every other name is kept |
| Naming.PinnedServiceNames | naming.go:38-71 | the request subjects, consumer names and stream subjects pinned by the tests |
| Naming.PinnedFilters | naming.go:43-46 | the filter translations pinned by the tests |
| Naming.PinnedWordMatches | routingkey_handlers_test.go:36-88 | the matches pinned by the tests hold under both readings of `#`, for any words |
| Naming.WordsMatchWithoutHash | routingkey_handlers.go:32-39 | a pattern without `#` fits exactly the keys of its length, word by word |
| Naming.HashSkips | routingkey_handlers.go:32-39 | `#` takes any number of words, at least one if so read |
| Naming.TokensMatchExactly | naming.go:43-46 | a server filter fits token by token, and a last `>` admits one or more further tokens |
| Naming.SplitTranslate | naming.go:43-46 | wildcard translation acts word by word and moves no dot |
| Naming.WordMatchersAgree | naming.go:43-46 | server filter and dispatcher pattern accept the same keys when `#` takes one or more words |
| Naming.ReadingMonotone | routingkey_handlers.go:32-39 | a match with one-or-more `#` is a match with zero-or-more `#` |
| Naming.SelfMatch | consumer.go:255-258 | a pattern matches itself as a key, so a core consumer always finds its handler |
| Naming.KeyRoundTrip | consumer.go:145-151 | for a dot-free stream the consumer takes the published key off the subject |
| Naming.KeyRoundTripExactly | consumer.go:145-151 | and for no other stream |
| Naming.DotFreeIsOwnKey | consumer.go:145-151 | a subject is taken as its own key exactly when it has no dot |
| Naming.RequestAdmittedExactly | naming.go:54-58 | a request is admitted by a service's subscription exactly when meant for that service and the subscribed key, untranslated, admits it |
| Naming.RequestSubjectsTell | naming.go:54-58 | request subjects of dot-free services differ in service or key |
| Naming.CapturedByOwnStreamOnly | naming.go:48-52 | a published subject is captured by its own stream's subjects and by no other plain stream's |
| Naming.FilterAdmitsExactly | naming.go:43-46 | a filter admits a subject exactly when stream and pattern fit |
| Naming.AdmittedIsMatched | routingkey_handlers.go:32-39 | whatever a filter admits the dispatcher matches, under either reading |
| Handlers.IsExactly | consumer.go:210-226 | the error search finds a target at any depth and in any branch of a wrapped error, and nothing else |
| Handlers.CalledExactly | setup_consumer.go:41-58 | the user function runs exactly when payload and type allow, its result is the result, and otherwise the error says which was missing |
| Handlers.SettlementExactly | consumer.go:205-245 | Ack exactly when it ran and returned nil, Term exactly for an undecodable payload, an unknown type or a user error that wraps one of the two |
| Handlers.InvokeVerdict | handler.go:52-63 | success only after the user function ran and returned nil; undecoded or untyped messages are terminated, a nil mapper is redelivered |
| RoutingKeyHandlers.FindPattern | routingkey_handlers.go:32-39 | the unordered walk finds a matching pattern exactly when there is one |
| RoutingKeyHandlers.RoutingKeyHandler.Get | routingkey_handlers.go:32-39 | the lookup returns a handler registered under a matching pattern, or nothing when none matches |
| RoutingKeyHandlers.RoutingKeyHandler.Add | routingkey_handlers.go:41-43 | the last write for a pattern wins |
| RoutingKeyHandlers.LookupDeterministic | routingkey_handlers.go:32-39 | iteration order is invisible exactly when all matching patterns share a handler |
| ConsumerConfigs.NewConsumerConfig | consumer.go:91-114 | the option loop fails exactly on an invalid option, with the error of the first, and else yields the last value of each kind and the derived name |
| ConsumerConfigs.RefusedExactly | consumer.go:56-89 | options are refused exactly for an empty suffix or a negative limit among them |
| ConsumerConfigs.LastOptionWins | consumer.go:56-89 | the last option of each kind decides, whatever stands around it |
| ConsumerConfigs.NoOptionNoChange | consumer.go:91-103 | a kind of option not given leaves the connection default in force |
| ConsumerConfigs.NamesTellKinds | naming.go:60-71 | on one service, equal names mean both ephemeral or both durable with one suffix |
| ConsumerGroups.GroupPending | setup_consumer.go:190-205 | the grouping loop computes first-occurrence order and, per key, the registrations with that key |
| ConsumerGroups.OrderIsFirstOccurrence | setup_consumer.go:195-205 | keys are distinct and ordered by first occurrence |
| ConsumerGroups.MembersKeepOrder | setup_consumer.go:196-205 | members stand in registration order and none with the key is missing |
| ConsumerGroups.GroupsConserve | setup_consumer.go:196-205 | all groups together are exactly the registrations, as a multiset |
| ConsumerGroups.StablePartition | setup_consumer.go:190-205 | every registration is in the group of its key; groups are non-empty, distinct, and as many members as registrations |
| ConsumerGroups.SharedKeyExactly | setup_consumer.go:181-184 | exactly which pairs of registrations share a group key |
| ConsumerGroups.SharedKeyIsSharedIdentity | setup_consumer.go:207-241 | with colon-free streams sharing a group means same stream, durability and suffix |
| ConsumerGroups.ColonsCollide | setup_consumer.go:181-184 | a concrete pair on different streams that shares a group |
| ConsumerGroups.CollectGroup | setup_consumer.go:231-236 | the member loop collects one filter per member and the last handler per pattern |
| ConsumerGroups.PlanGroup | setup_consumer.go:216-264 | the broker configuration built step by step is the group's: filters of all, limits of the first or the default |
| ConsumerGroups.EffectiveFiltersAreMembers | setup_consumer.go:242-246 | whichever filter field is used, the broker applies one filter per registration |
| ConsumerGroups.MaxDeliverTakesEffect | setup_consumer.go:248-255 | exactly when a member's own limit is in force |
| ConsumerGroups.BackOffTakesEffect | setup_consumer.go:257-264 | exactly when a member's own backoff list is in force |
| ConsumerGroups.LaterMaxDeliverIgnored | README.md:217-228 | the documented override of a second registration has no effect |
| GroupMeaning.DeliversExactly | setup_consumer.go:231-246 | a grouped consumer gets a message exactly when stream and one pattern fit |
| GroupMeaning.DeliveredIsRoutable | consumer.go:153-165 | every delivered message finds a handler, with the published key |
| GroupMeaning.SoloExactly | setup_consumer.go:216-236 | a registration alone in its group makes exactly its own call |
| GroupMeaning.CanCallIsGroupedCalls | setup_consumer.go:216-236 | the possible calls of a grouped consumer, read off its registrations |
| GroupMeaning.GroupingPreservesMeaningExactly | setup_consumer.go:186-236 | grouped and separate consumers make the same calls in every iteration order exactly for unambiguous messages |
| GroupMeaning.DisjointPatternsPreserveMeaning | setup_consumer.go:186-236 | in particular when at most one pattern matches the key |
| Overlaps.OverlapExactly | routingkey_handlers.go:32-39 | the overlap test on patterns holds exactly when some routing key fits both |
| Overlaps.NeverAmbiguousExactly | setup_consumer.go:186-236 | a group keeps the meaning of every message exactly when its patterns pass the test |
| Overlaps.OverlapLosesACall | setup_consumer.go:231-236 | a concrete group in which one of two intended calls is lost |
| Overlaps.HashMisdirectsACall | routingkey_handlers.go:32-39 | a concrete group without overlapping filters whose message may reach the wrong handler if `#` takes no word |
| Brokers.Broker.CreateOrUpdateStream | connection.go:246 | creation overwrites the stream, or fails and leaves it |
| Connections.Connection.EnsureStream | connection.go:220-247 | the stream is written under the override as a whole, else the defaults |
| Connections.Connection.Apply | setup.go:61-166 | one setup function has the effect or the error of its step of the program; a publisher is wired on success and untouched on failure |
| Connections.Connection.SetupStreamPublisher | setup_publisher.go:38-63 | ensures the stream, declares the endpoint, wires the publisher; on failure no endpoint and the publisher untouched |
| Connections.Connection.SetupServicePublisher | setup_publisher.go:65-89 | declares the endpoint and points the publisher at the service |
| Connections.Connection.SetupStreamConsumer | setup_consumer.go:65-129 | defers the registration and declares its endpoint, without calling the broker |
| Connections.Connection.StartCoreConsumer | setup_consumer.go:289-315 | adds the subscription exactly when the broker accepts it |
| Connections.Connection.ApplyAll | connection.go:182-188 | the setup loop stops at the first failure; publishers are wired by exactly the setups before it |
| Connections.Connection.StartOneGroup | setup_consumer.go:207-282 | stream, consumer, consume: a handle only after all three |
| Connections.Connection.StartInOrder | setup_consumer.go:207-283 | groups start in key order and stop at the first failure |
| Connections.Connection.StartPendingJSConsumers | setup_consumer.go:186-287 | groups all registrations and starts the groups; pending is cleared only on success |
| Connections.Connection.Start | connection.go:141-203 | the whole start, with errors, state, broker and publishers, on success and on failure |
| Connections.CollectTopology | topology_export.go:32-49 | the endpoints of the same program in collect mode, or its error; publishers are wired without a transport |
| Startup.SetupsOutcome | connection.go:182-188 | a run leaves exactly what the setups before the first failure say, later options overriding earlier ones |
| Startup.CollectFailsExactly | topology_export.go:42-46 | collecting fails exactly on an invalid setup and never touches a broker |
| Startup.CollectSimulatesStart | topology_export.go:32-49 | whenever Start succeeds, collecting succeeds with the same endpoints |
| Startup.FirstErrorIsReported | connection.go:182-188 | a failed run reports the first invalid setup with its own error, or a failed broker call, never in collect mode |
| Startup.StartsOnce | connection.go:143-146 | after a success every further Start fails and changes nothing |
| Startup.StartInCollectMode | connection.go:152-160 | starting in collect mode is collecting |
| Startup.LastOptionCounts | setup.go:61-166 | of each kind of option, and per stream, the last one given counts |
| Startup.StartSucceedsExactlyAsCollect | connection.go:152-203 | on a broker without faults Start succeeds exactly when collecting does |
| Startup.ConsumersOutcome | setup_consumer.go:207-283 | how far starting consumers gets, in handles and at the broker |
| Startup.SuccessfulStart | connection.go:143-203 | the closed form of the state after a successful Start |
| Startup.StartupPrefix | setup_consumer.go:207-286 | failure leaves handles for exactly the earlier groups, pending intact, not started; success one handle per key |
| Retries.FailedStart | connection.go:167-194 | a failed Start leaves the setups that succeeded and the handles of the groups started |
| Retries.RetryIsFirstTryExactly | connection.go:143-203 | a retry that connects is a first attempt, in every field, broker call and error, exactly when the failed one declared no endpoint |
| Retries.RetryCleanExactly | connection.go:183-188 | registrations and endpoints after the retry's setups are those of the list exactly then |
| Retries.CleanFailureWiresNothing | setup_publisher.go:38-89 | and then no publisher was wired either |
| Retries.RetryAccumulates | connection.go:183-194 | retrying after a failure while starting groups doubles registrations and endpoints |
| Retries.RetryDoubles | connection.go:183-194 | a concrete retry after a failed setup that registers a consumer twice |
| Startup.ConsumersIgnoreInterleaving | setup_consumer.go:172-179 | created consumers depend only on the registrations and the last consumer defaults |
| Retention.LastOverrideResolves | setup.go:80-94 | of several overrides of a stream the last one counts, as a whole |
| Retention.DefaultsResolve | setup.go:71-78 | without an override the last defaults count, else nothing is limited |
| Retention.StreamsAfterSetups | setup_publisher.go:42-47 | each publisher setup writes the limits in force at that point |
| Retention.FinalRetention | connection.go:220-247 | final limits of every stream: with a consumer, publisher-only, untouched |
| Topology.EndpointsDescribeRegistrations | setup_consumer.go:66-129 | stream-consume endpoints are the registrations, one to one and in order |
| Topology.ColonFreeStreamsNeverCollide | setup_consumer.go:181-184 | colon-free streams suffice for a faithful topology |
| Topology.TopologyFaithfulExactly | setup_consumer.go:66-129 | every such endpoint is served as it says exactly when no streams collide |
| Topology.CollidingStreamIsUnserved | setup_consumer.go:181-241 | a concrete fault-free Start that succeeds and leaves a listed consumer unserved |
| Topology.PublisherWired | publisher.go:156-164 | after any setups a mentioned publisher has the service's name in field and header and a transport |
| Topology.TargetIsNeverCleared | setup_publisher.go:67-88 | a publisher has a target service exactly when some setup gave it one |
| Topology.StreamSubjectExactly | setup_publisher.go:38-89 | a publisher wired last to a stream publishes to it exactly when never wired to a service |
| Requests.TargetIsLast | setup_publisher.go:65-89 | requests go to the service of the last wiring to a service |
| Requests.LastWiringDecides | setup_publisher.go:38-89 | service name, stream and transport are those of the last wiring, with the last timeout given before it or 30 seconds |
| Requests.EndpointTellsKind | setup_consumer.go:65-170 | direction, kind, pattern, queue, type and durability tell what the setup was |
| Requests.ResponsesFollowRequests | setup_consumer.go:154-170 | responses are listed under the exchange of the requests they answer |
| Requests.EventStreamByShortNameOnly | setup_consumer.go:77-80 | the one name of the event stream that is not listed as one |
| Requests.ExchangeSpellingIsInvisible | naming.go:33-36 | the exchange spelling of a stream gives the same registration and wiring |
| Requests.StreamEndpointsPredictRouting | setup_publisher.go:38-63 | a published message passes another service's filter exactly when their endpoints name one exchange and the key fits |
| Requests.RequestEndpointsPredictRouting | setup_publisher.go:65-89 | a request reaches another service's subscription exactly when their endpoints name one exchange and the key fits |
| Requests.RequestRoutedExactly | setup_consumer.go:131-152 | after any wirings and a successful Start, a request reaches exactly the handlers its target registered for it |
| Requests.CoreCallIsRegistered | setup_consumer.go:289-315 | in every run the handler called for a core message is one registered under its key |
| Headers.ToNatsHeaders | headers.go:58-67 | the loop keeps exactly the string values |
| Headers.FromNatsHeaders | headers.go:69-76 | the loop keeps every key with the first of its values, or the empty string |
| Headers.OutAndBack | headers.go:58-76 | out and back is the restriction to string values |
| Headers.BackAndOut | headers.go:58-76 | back and out keeps first values and is idempotent |
| Headers.ValidateKey | headers.go:46-56 | fails exactly on empty and reserved keys, with the right error |
| Publishers.Publisher.Setup | publisher.go:156-164 | rewires the publisher and appends the service header |
| Publishers.Publisher.Publish | publisher.go:66-80 | nothing is sent on invalid headers, and the first of them is reported; otherwise exactly one message with the expected subject and headers, and one counter |
| Publishers.Publisher.PublishMessage | publisher.go:82-154 | defaults and id fill gaps only; marshal and transport failures are reported |
| Publishers.DefaultsFillGaps | publisher.go:112-127 | defaults touch exactly missing or empty keys |
| Publishers.SetupWires | publisher.go:156-164 | every setup call appends one default header, leaves the last service header equal to the service name and the rest alone |
| Publishers.HeaderPrecedence | publisher.go:67-127 | last user value, non-empty CloudEvents values, defaults, and the service header nobody overrides |
| Publishers.InjectedWins | tracing.go:94-102 | whatever the propagator writes stands in the message |
| Publishers.BareMessage | publisher.go:112-127 | a plain message carries the service header and exactly these six CloudEvents values |
| Publishers.RequiredAttributesPresent | publisher.go:112-127 | the attributes CloudEvents 1.0 requires are non-empty exactly when the key is or a type is given |
| Publishers.PublishedReadBack | consumer.go:170-178 | a consumer reads every published header back unchanged |
| Notifications.OfferKeepsSound | notifications.go:27-52 | a send keeps capacity, order and count; it adds the item last or, exactly when the buffer is full and nobody waits, drops it |
| Notifications.ReadKeepsSound | notifications.go:27-52 | a reader takes the oldest item and loses none |
| DeliveryNotes.NotesStep | consumer.go:205-243 | every step keeps what was offered to each channel equal to the outcomes of the deliveries |
| DeliveryInvariants.SoundStep | consumer.go:145-252 | every step keeps deliveries tied to their message, consumer, key and registered handler |
| DeliveryInvariants.CountersStep | metrics.go:141-165 | every step keeps counters equal to what the deliveries caused |
| DeliveryRuns.RunKeepsInvariant | consumer.go:145-322 | the invariant of all runs |
| DeliveryRuns.MetricConservation | metrics.go:141-165 | received equals ack, nak, without handler, not parsable plus in flight, for any mapper, in every run |
| DeliveryRuns.NeverUnrouted | consumer.go:155-165 | the branch without a handler is unreachable for covered consumers |
| DeliveryRuns.NoSilentLoss | consumer.go:205-252 | a message is gone only after nil from a registered handler, a terminal error, or all attempts |
| DeliveryRuns.BoundedRedelivery | setup_consumer.go:248-255 | under a limit of n a handler gets a message at most n times |
| DeliveryRuns.RemainingIsMeasure | consumer.go:227-237 | remaining attempts fall with every delivery and rise only with new messages |
| DeliveryRuns.RedeliveryEnds | consumer.go:227-237 | without new messages a run makes at most as many limited deliveries as attempts remained |
| DeliveryRuns.NotificationsNeverOverrun | notifications.go:27-52 | in every run every handler result is offered to its channel in order, buffers stay in capacity, and sent plus dropped are as many as the deliveries with that result |
| DeliveryRuns.NotificationsAreOutcomes | consumer.go:205-243 | and what was offered is the note of each delivery's own result |
| DeliveryRuns.CoreRepliesExactly | consumer.go:293-321 | one error reply per failed request with a reply subject, none otherwise |
| DeliveryRuns.DeliveryNeverBlocks | consumer.go:205-252 | from every state of every run each delivery can be brought to its end by its own steps alone, whatever the channels hold |
| DeliveryRuns.OwnRunsAreShort | consumer.go:205-252 | and no delivery takes more own steps than its phase leaves |
| Outcomes.EveryConsumerGetsItsCopy | setup_consumer.go:231-273 | in every run each consumer has one entry per message published under a subject delivered there, and none otherwise |
| Outcomes.CopyNeverStuck | setup_consumer.go:248-255 | a copy that is not gone can be delivered exactly while attempts remain, else given up |
| Outcomes.SurroundingsAreFree | consumer.go:144-168 | messages, requests and reads may come at any time |
| Outcomes.DeliveryIsFree | consumer.go:144-252 | at every stage any matching pattern, input, waiting reader and lost settlement is possible |
| Outcomes.CalledOnce | consumer.go:192-205 | a delivery calls its handler at most once |
| Outcomes.FinishedExactly | consumer.go:145-252 | every finished delivery: no match is terminated uncalled; else one matching handler was called and payload, type and user result decide as they should |
| Outcomes.SettledOnce | consumer.go:205-252 | a delivery is settled at most once, exactly once when done; an Ack or Term that gets through takes the message off |
| Outcomes.CountersExactly | consumer.go:205-252 | each counter by itself stands at the number of deliveries that ended its way |
| MessageHandlers.Runtime.NotifySucceed | notifications.go:27-38 | a non-blocking send of a success |
| MessageHandlers.Runtime.NotifyFailed | notifications.go:40-52 | a non-blocking send of a failure |
| MessageHandlers.Runtime.HandleMessage | consumer.go:144-168 | a JetStream message's effects are a run of its own steps that ends settled by verdict |
| MessageHandlers.Runtime.HandleDelivery | consumer.go:170-252 | calls the found handler and acknowledges, terminates or naks by its error |
| MessageHandlers.Runtime.HandleCoreMessage | consumer.go:254-322 | a core message's effects are a run of its own steps and settle nothing |
| RequestResponse.Responder.OnRequest | request_response.go:101-146 | replies stay exactly those owed to the requests handled |
| RequestResponse.ExactlyOneReply | request_response.go:126-145 | every reply subject gets as many replies as requests |
| RequestResponse.ReplyOf | request_response.go:61-84 | the reply succeeds exactly when decoding, handler and encoding do |
| EndToEnd.StartedIsCovered | setup_consumer.go:207-246 | after a successful Start on plain registrations every delivery finds a handler |
| EndToEnd.RoutedExactly | setup_consumer.go:207-246 | a message reaches a started consumer exactly when a registration's stream and pattern fit |
| EndToEnd.CalledIsRegistered | routingkey_handlers.go:32-43 | whatever is called belongs to a registration that matches the message |
| EndToEnd.StartedServiceLosesNothing | consumer.go:205-252 | no silent loss in any run of a started service |
| EndToEnd.StartedLimit | setup_consumer.go:248-255 | the limit in force is the first registration's, else the last default |
| ServiceMeaning.GroupsKeepTotal | setup_consumer.go:190-205 | whatever registrations contribute, the groups contribute together |
| ServiceMeaning.UngroupedExactly | setup_consumer.go:216-236 | one consumer per registration would together make exactly the call of every registration that fits |
| ServiceMeaning.ServiceKeepsMessageExactly | setup_consumer.go:186-236 | for one message all consumers together call what one per registration would exactly when every group is unambiguous: none makes up for another |
| ServiceMeaning.StartedServiceKeepsMeaningExactly | setup_consumer.go:186-287 | after a successful Start that is so for every message exactly when the patterns of every group pass the test |
| EndToEnd.PublishedKeyIsDelivered | publisher.go:92-96 | a wired stream publisher's key arrives unchanged at every delivery |

## Left out

- Connection.Start: does not model `nc`, `js` and the client's own state beyond whether calls succeed, because they are foreign.
- Close, draining and the stopping of consumers: calls into the client without logic of their own.
- Which notification channel, logger, tracer or span name a consumer captures: `WithOther` has no effect here; a run has at most one channel of each kind.
- Tracing: injection is an arbitrary set of header writes, and extraction is left out.
- JSON, reflection and generics: decoding is a yes or no of the surroundings.
- Durations, clocks, histograms and backoff timing: the backoff list is only passed on.
- Prometheus registration, and changing the label mapper during a run.
- Panics in handlers, and a process that dies in the middle of a delivery.
- Whether the server refuses a configuration, as it does for overlapping filters of one consumer: any refusal is one of the calls that may fail.
- Validation warnings for incoming CloudEvents headers: they only log.
- The outbox adapter and the command in `cmd`: wiring without logic of its own.
- Interleaving of request-response handlers: requests are taken one after the other, because they share nothing but the order of replies.
- Aliasing of registrations: a consumer configuration is a value here, because nothing changes it once its options have run.
