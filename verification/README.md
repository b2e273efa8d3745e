# Intent brokering: a verified model

A Dafny model of the intent-brokering runtime and proofs about it. It covers

- the registry with its two redundant indexes, the change series it folds, the broker that
  mirrors it, the namespace events it publishes, the prune loop that ages it and the
  providers that keep it alive;
- the event sub-system: broadcast senders, bounded client channels and one serving task per
  subscription, as a protocol in which every step interleaves with every other;
- dispatch: resolving a request to a binding, fallback, system inspection;
- the translation of wildcard queries into regular expressions;
- the streaming key-value store built on the event sub-system.

`dafny verify dfyconfig.toml` checks everything.

## How it is laid out

| file | what it holds |
|---|---|
| `Types.dfy` | services, intents, time, the reserved namespaces |
| `Directory.dfy` | the registry as one plain map; net changes; the prune deadline |
| `Broker.dfy` | bindings, batches of changes, the broker object |
| `Registry.dfy` | the registry object, its change series, its observers |
| `RegistryRuns.dfy` | histories of registry calls |
| `PruneLoop.dfy` | the timer loop |
| `Heartbeat.dfy` | the provider's announce/register protocol |
| `Ess.dfy` | state and steps of the event sub-system |
| `EssInvariant.dfy` | what each of those steps keeps |
| `EssTheorems.dfy` | what holds over whole runs: handed events, streams, senders |
| `EssDelivery.dfy` | taking, lagging, offering: why each event arrives or is lost |
| `EssClients.dfy` | client records over whole runs, and re-opened ids |
| `EventSubSystem.dfy` | the event sub-system object, operation by operation |
| `EventSubSystemRuns.dfy` | histories of calls on that object, as runs |
| `StreamingStore.dfy` | the store and its subscribers |
| `StreamingEss.dfy` | subscription requests to the broker |
| `Dispatch.dfy` | fulfil, resolve, execute, inspect |
| `Query.dfy` | wildcard queries |

State that the original updates in place is a class; each of its methods is proved against a
function on values, and the theorems are about those functions. `HashMap` and `HashSet` are
`map` and `set`, walked in an arbitrary order. Instants are naturals; `duration_since`
saturates at zero.

A tokio broadcast channel is the log of what was sent on it: a receiver holds a cursor, the
last `publishCapacity` entries are retained, and a receiver that fell behind is moved to the
oldest retained entry and told how many it missed. A client channel is a bounded buffer with
an open flag. A cancellation token is a flag on its subscription. The atomic steps are finer
than the original's locks, so that every interleaving of the original is among the runs: each
turn of the register and deregister loops and the two halves of a deregistration are steps of
their own, and so are a task's taking of an event, its offer to the client, the clean-up after
it found the client gone and the drop of its receiver. Fields marked auxiliary only record what
happened.

## What the proofs found

- `publish` documents that it returns whether an event went to at least one active
  subscription (intent_brokering/ess/src/ess.rs:117-119). It returns whether a sender entry
  exists. A false answer is always right (`PublishReachesEveryLive`). A true answer can be wrong
  (`AnswerMayBeStale`), exactly when the last task that served the event has ended by itself
  and since then no deregistration looked at its sender entry and nobody subscribed to it
  (`AnswerIsStaleIff`).
- Opening a client id again is safe, in every continuation, exactly when every task that ever
  served the id is over, cancelled or not (`OpeningIsSafeIff`). From any other state there is a
  continuation in which the client holds two live subscriptions for one event: an un-cancelled
  older task is one of them, and a cancelled one can still take a newer subscription off the
  record when it cleans up (`Collision`).
- A re-registration can report `Modify` although the set of services is the same, exactly when
  the same configuration was listed and is again (`ReportedYetUnchangedIff`).
- Expiry is strict and the deadline is not, so a wake-up of the prune loop changes nothing, its
  next deadline included, exactly when it comes exactly on the deadline of some service
  (`WakingChangesNothingIff`); the loop can then go round any number of times within that
  instant (`SpinsOnTheDot`).
- Dots in queries are not escaped: a query has its literal reading exactly when it contains no
  dot (`LiteralReadingIff`).
- The two "An intent other than ..." panics cannot be reached; the one request that panics the
  broker is a system inspection whose query does not compile (`FulfillPanicsIff`).

## Model

| member | source | states |
|---|---|---|
| `Directory.RepresentationIsUnique` | intent_brokering/src/registry.rs:94-99 | the two indexes and the plain map of registrations determine each other |
| `Directory.IndexedIffNamed` | intent_brokering/src/registry.rs:142-157 | an intent is indexed exactly when some current registration names it, so no intent has an empty set |
| `Directory.DeadlineIsTight` | intent_brokering/src/registry.rs:162-174 | the deadline `prune` returns is not in the past, no prune up to it removes anything, and if specific any later prune does |
| `Directory.InsertIsFolded` | intent_brokering/src/registry.rs:204-218 | from any net change, folding in one more registered intent never reaches the panic arm and is again the net change |
| `Directory.KindsChangedIff` | intent_brokering/src/registry.rs:30-44 | the kinds under a namespace differ exactly when an intent of it was added or removed |
| `Directory.ReportedYetUnchangedIff` | intent_brokering/src/registry.rs:255-260 | when a reported intent has the same services before and after |
| `Types.ReservedIff` | intent_brokering/src/registry.rs:182-190 | a namespace is reserved exactly when the part before its first dot spells "system" in any mixture of small and capital letters |
| `Registry.ChangeSeries.Change` | intent_brokering/src/registry.rs:255-271 | folds one change into the series; the transitions that panic are its precondition, which every caller meets |
| `Registry.Registry.Touch` | intent_brokering/src/registry.rs:119-126 | answers whether this very configuration is known and, if so, moves its last-seen time |
| `Registry.Registry.PruneBy` | intent_brokering/src/registry.rs:128-160 | removes exactly the registrations the predicate selects from both indexes, also on the early return, and reports the net change: exactly the intents that listed a removed service |
| `Registry.Registry.RetainIntents` | intent_brokering/src/registry.rs:144-157 | every intent keeps its known services, emptied intents go, and shrunken and emptied ones are reported |
| `Registry.PruneByRepresents` | intent_brokering/src/registry.rs:128-160 | the pruned indexes again represent a directory, the retained one |
| `Registry.Registry.Prune` | intent_brokering/src/registry.rs:162-174 | removes exactly the expired registrations, returns the earliest expiry, tells both observers the net change in one batch, and the broker mirrors the result |
| `Registry.Registry.Deadline` | intent_brokering/src/registry.rs:168-173 | the least last-seen time plus TTL, or now plus TTL if nothing is registered |
| `Registry.Registry.Upsert` | intent_brokering/src/registry.rs:176-229 | refuses exactly lists naming an intent whose namespace starts with a segment spelling "system", changing nothing; otherwise replaces whatever is registered under the id, reports exactly the intents of the old and new registration as a net change in one batch, and the broker mirrors the result |
| `Registry.Registry.Replace` | intent_brokering/src/registry.rs:199-222 | pruning by id and re-inserting is one replacement in the directory, with the net change of both phases |
| `Registry.Registry.List` | intent_brokering/src/registry.rs:204-218 | lists the service under every named intent, duplicates included, without ever reaching the panic arm |
| `Registry.Registry.Observe` | intent_brokering/src/registry.rs:273-285 | never indexes a missing intent; the observers see each changed intent once, with its current services, and nothing is sent for an empty series |
| `Registry.Composite.OnChange` | intent_brokering/src/registry.rs:57-62 | both observers apply the same batch |
| `Registry.Composite.PublishNamespaces` | intent_brokering/src/registry.rs:30-44 | one publication per namespace with an added or removed intent |
| `Registry.BatchAnnounces` | intent_brokering/src/registry.rs:30-44 | a namespace event is published exactly once if the kinds registered under it changed, and not otherwise |
| `Registry.PublishedOnce` | intent_brokering/src/registry.rs:41-41 | such a publication adds exactly one entry to its event's history and none to any other |
| `Registry.NamespaceHistory` | intent_brokering/src/registry.rs:30-44 | the event "namespaces/" plus a namespace is published once if the kinds registered under it changed and not otherwise, and no other event is |
| `Registry.WatchersAreTold` | intent_brokering/src/registry.rs:30-44 | so every live subscription to that event has one more event to take, or none |
| `Registry.ReRegistrationIsSilent` | intent_brokering/src/registry.rs:30-44 | registering the same intents again, at whatever URL, publishes nothing |
| `Broker.IntentBroker.constructor` | intent_brokering/src/intent_broker.rs:36-55 | a new broker mirrors the empty registry: the three system bindings |
| `Broker.IntentBroker.OnChange` | intent_brokering/src/intent_broker.rs:81-134 | every intent a batch names ends up with a binding that fits its services, or none; every other binding is untouched |
| `Broker.IntentBroker.Choose` | intent_brokering/src/intent_broker.rs:89-126 | in any order of the services: cloud-then-local fallback exactly when both localities are present, otherwise a remote of the one that is, and nothing for no services |
| `Broker.MirrorFollows` | intent_brokering/src/intent_broker.rs:81-134 | refreshing a mirror with a batch describing a net change gives a mirror of the new index; the system bindings stay |
| `Broker.OrderDoesNotMatter` | intent_brokering/src/intent_broker.rs:152-156 | any two orders of a batch lead to the same bound intents, with unnamed ones untouched and named ones of the same shape: both fallbacks, or both remotes calling a service of the same locality |
| `Broker.NeverUnboundInBetween` | intent_brokering/src/intent_broker.rs:81-134 | at every point of applying a batch an intent served before and after is bound |
| `RegistryRuns.EntryIsLastRegistration` | intent_brokering/src/registry.rs:119-229 | after any history an id is present exactly while no prune has found it expired, with its last accepted registration and the time it was last heard of |
| `RegistryRuns.ListedIffLastRegistrationNames` | intent_brokering/src/registry.rs:119-229 | after any history the services listed for an intent are exactly those whose last accepted registration named it and which were not pruned since |
| `RegistryRuns.HeartbeatsKeepAlive` | intent_brokering/src/registry.rs:119-174 | on a monotone clock, a service whose registration and announcements follow each other at gaps of at most the TTL is never removed: after every prefix of the history it is listed under everything it registered |
| `RegistryRuns.LastBeat` | intent_brokering/src/registry.rs:119-126 | the time a service was last seen is that of the last registration or announcement of it |
| `RegistryRuns.Replay` | intent_brokering/src/registry.rs:119-229 | any history of calls on the object leaves it representing that history's directory and mirrored by the broker |
| `PruneLoop.NoExpiryIsSleptThrough` | intent_brokering/src/main.rs:116-132 | at all times the pending wake-up is no later than last-seen plus TTL of every known service |
| `PruneLoop.NothingStaleIsKnown` | intent_brokering/src/main.rs:116-132 | if the loop runs at most some latency late, nothing is known for longer than TTL plus latency after it was last heard of |
| `PruneLoop.NothingFreshIsRemoved` | intent_brokering/src/main.rs:116-132 | only a wake-up removes a service, and only after its TTL |
| `PruneLoop.HeardOfIsKept` | intent_brokering/src/main.rs:116-132 | a service registered, or announced while known, is known with exactly that time, and with that or a later one until its TTL is over |
| `PruneLoop.WakingChangesNothingIff` | intent_brokering/src/main.rs:116-122 | a wake-up changes nothing, the deadline included, exactly when it comes on the dot and some service is due then (or nothing is registered and the TTL is zero) |
| `PruneLoop.SpinsOnTheDot` | intent_brokering/src/main.rs:116-122 | runs with any number of such wake-ups in a row |
| `Heartbeat.SuccessMeansListed` | intent_brokering/examples/common/src/intent_brokering/registration.rs:122-199 | whatever fails, restarts or is pruned in between, when the last call of a successful `register_once` is processed the service is known and listed under exactly its intents |
| `Heartbeat.RunSettles` | intent_brokering/examples/common/src/intent_brokering/registration.rs:122-142 | from the first success on, any entry under the provider's id is its registration |
| `Heartbeat.SystemProviderNeverSucceeds` | intent_brokering/examples/common/src/intent_brokering/registration.rs:177-195 | a provider naming a system namespace never succeeds |
| `Heartbeat.TwoCallsSuffice` | intent_brokering/examples/common/src/intent_brokering/registration.rs:144-199 | any other provider succeeds with at most an announcement and a registration |
| `Heartbeat.KnownUntilSilent` | intent_brokering/src/intent_brokering_grpc.rs:85-124 | once the registry has processed an announcement of the known service or its registration, even one the provider saw fail, it knows the service with that time or a later one until a restart or a prune after the TTL |
| `Heartbeat.StepIsRegistryCall` | intent_brokering/src/intent_brokering_grpc.rs:85-124 | every step of the protocol but a restart does to the directory what the registry does for its call |
| `EssTheorems.RunKeeps` | intent_brokering/ess/src/ess.rs:120-432 | every reachable state of every interleaving satisfies the invariant |
| `EssTheorems.HandedIsKthPublished` | intent_brokering/ess/src/ess.rs:384-432 | an event handed to a closure with number k is the k-th published to its id after the registration (numbers modulo 2^64) |
| `EssTheorems.HandedOrLagged` | intent_brokering/ess/src/ess.rs:398-432 | handed ordinals strictly increase, and with the lagged ones they split everything consumed |
| `EssTheorems.StreamIsWhatWasSent` | intent_brokering/ess/src/ess.rs:401-408 | a client's stream is what was accepted for it in order; one subscription's part of it is exactly its closure calls that were accepted, and at most the last call is still in hand |
| `EssTheorems.ReadIsKthPublished` | intent_brokering/ess/src/ess.rs:384-432 | every event a client reads is the publication its number says |
| `EssTheorems.StreamInOrder` | intent_brokering/ess/src/ess.rs:384-432 | along a client's stream the numbers of one subscription strictly increase |
| `EssDelivery.TakesOrLags` | intent_brokering/ess/src/ess.rs:384-432 | a serving task can take the next event exactly while at most as many events wait for it as the channel retains, and must lag exactly when more do |
| `EssDelivery.LagIsExact` | intent_brokering/ess/src/ess.rs:427-432 | a lag skips exactly the events a whole buffer of later ones has overwritten, by the amount it reports, and the task can take the next one |
| `EssDelivery.OfferFate` | intent_brokering/ess/src/ess.rs:401-417 | an offer is accepted exactly when the client reads and fewer than the channel's capacity are unread, dropped exactly when it reads and that many are, abandoned exactly when it has gone |
| `EssDelivery.FatesAreDeserved` | intent_brokering/ess/src/ess.rs:401-417 | over whole runs every closure call was offered at some step, or is in hand, and has the fate its client channel called for at that step |
| `EssDelivery.NothingIsLostWithoutReason` | intent_brokering/ess/src/ess.rs:384-432 | every publication a subscription consumed was overwritten and lagged over, or is on the client's stream, or was dropped on a full channel, or met a client that had gone, or is in hand |
| `EssDelivery.NothingElseBlocks` | intent_brokering/ess/src/ess.rs:120-432 | operations on known clients, and the next step of a task past taking an event, are always possible |
| `EssTheorems.ClosedIsUnreachable` | intent_brokering/ess/src/ess.rs:421-426 | while the sub-system lives no task sees its broadcast channel closed |
| `EssTheorems.PublishReachesEveryLive` | intent_brokering/ess/src/ess.rs:120-132 | a refused publication had no live subscription, an accepted one extends the channel of every live subscription of its id and of no other |
| `EssTheorems.AnswerMayBeStale` | intent_brokering/ess/src/ess.rs:117-131 | a run after which `publish` answers true with nobody subscribed |
| `EssTheorems.AnswerIsStaleIff` | intent_brokering/ess/src/ess.rs:117-132 | over whole runs: `publish` answers true with nobody subscribed exactly when the last task serving the event has ended and since then no deregistration swept its entry and nobody subscribed |
| `EssTheorems.StaleStep` | intent_brokering/ess/src/ess.rs:256-262 | which single steps make the answer wrong or leave it wrong |
| `EssClients.OneLiveSubscriptionPerEvent` | intent_brokering/ess/src/ess.rs:177-228 | for an id whose older tasks, if any, were over when it was last opened and whose stream is open: `get_subscriptions` is registered minus deregistered, each event has at most one live un-cancelled subscription, it is the recorded one and it is served |
| `EssClients.FirstOpeningIsApart` | intent_brokering/common/src/streaming_ess.rs:82-83 | an id opened for the first time meets that condition |
| `EssClients.OpeningIsSafeIff` | intent_brokering/ess/src/ess.rs:143-155 | opening an id is safe (at most one live subscription per event while the client reads, in every continuation until the next opening) exactly when every task that ever served it is over |
| `EssClients.ApartIsExact` | intent_brokering/ess/src/ess.rs:143-155 | and then the record stays exact in every such continuation |
| `EssClients.Collision` | intent_brokering/ess/src/ess.rs:409-417 | from any older task that is not over, cancelled or not, a continuation to two live subscriptions for its event |
| `EssClients.Abandon` | intent_brokering/ess/src/ess.rs:409-417 | any task whose client channel is closed can come to take its event off the client's current record |
| `EssClients.ReopeningDuplicates` | intent_brokering/ess/src/ess.rs:143-155 | a run in which a re-opened client holds two live subscriptions for one event |
| `EventSubSystem.EventSubSystem.Publish` | intent_brokering/ess/src/ess.rs:120-132 | is the publish step; answers whether a sender entry exists |
| `EventSubSystem.EventSubSystem.ReadEvents` | intent_brokering/ess/src/ess.rs:143-155 | is the open step; says whether the id was open before |
| `EventSubSystem.EventSubSystem.RegisterSubscriptions` | intent_brokering/ess/src/ess.rs:169-215 | refuses unknown clients unchanged, otherwise is a fold of register steps and returns the new subscriptions in order |
| `EventSubSystem.RegisterAllEffect` | intent_brokering/ess/src/ess.rs:185-214 | that fold subscribes to everything named and adds one fresh subscription per id not subscribed, at its first mention |
| `EventSubSystem.EventSubSystem.DeregisterSubscriptions` | intent_brokering/ess/src/ess.rs:243-269 | refuses unknown clients unchanged, otherwise is a fold of revoke-and-sweep steps |
| `EventSubSystem.DeregisterAllEffect` | intent_brokering/ess/src/ess.rs:255-268 | that fold leaves exactly the rest subscribed and cancels every token it removed |
| `EventSubSystem.DeregisterEffect` | intent_brokering/ess/src/ess.rs:256-262 | one deregistration also leaves no sender entry without a receiver |
| `EventSubSystem.EventSubSystem.GetSubscriptions` | intent_brokering/ess/src/ess.rs:219-229 | the ids on the client's record, none for an unknown client |
| `EventSubSystem.EventSubSystem.ServeTurn` | intent_brokering/ess/src/ess.rs:385-436 | one turn of the serving loop is a cancel step, a lag step, or a take and an offer, followed by the clean-up and end of the task if the client is gone, for either outcome of the unbiased select; the disconnected arm ends the task and needs a dropped sender |
| `EventSubSystem.LoopsKeep` | intent_brokering/ess/src/ess.rs:185-268 | both loops keep the invariant |
| `EventSubSystemRuns.Replay` | intent_brokering/ess/src/ess.rs:97-436 | any history of calls, task turns and client reads on a new object is a run that ends in the object's state and publishes what the calls published, so everything proved of runs holds of the object |
| `StreamingStore.StreamingStore.Set` | intent_brokering/keyvalue/src/key_value_store.rs:103-110 | publishes the key and value, then inserts: the two steps of a write |
| `StreamingStore.GetIsLastPublished` | intent_brokering/examples/common/src/intent_brokering/streaming.rs:60-67 | whenever the store lock is free, reading a key gives the last value written to it, which is the last one published |
| `StreamingStore.SubscriberGetsKthValue` | intent_brokering/examples/common/src/intent_brokering/streaming.rs:20-24 | a subscriber's event number k carries the k-th value set for the key after it subscribed |
| `StreamingEss.ServeSubscriptions` | intent_brokering/common/src/streaming_ess.rs:39-66 | a subscription request is refused exactly for unknown channels, changing nothing; otherwise the channel is subscribed to all sources as well, with one new task per source not subscribed |
| `Dispatch.ExecuteTriesLeavesInOrder` | intent_brokering/src/execution.rs:75-80 | executing any fallback tree is trying its leaves left to right until one does not fail |
| `Dispatch.RemoteTreeIsTriedUntilAnswered` | intent_brokering/src/execution.rs:67-80 | for remotes: the calls made are a prefix of the leaves, all but the last failed, the outcome is the last answer, and a failure means all were tried |
| `Dispatch.BoundUrlsAreTried` | intent_brokering/src/intent_broker.rs:58-78 | resolving and executing any binding tree of remotes calls its URLs from left to right until one answers |
| `Dispatch.RegisteredIsForwarded` | intent_brokering/src/intent_brokering_grpc.rs:126-155 | a request for a registered intent, of each variant for its own kind, calls a cloud service if there is one and otherwise a local one, a local one after a cloud one failed if there are both, and answers what the last call answered |
| `Dispatch.SystemRegistryAnswers` | intent_brokering/src/execution.rs:118-137 | a discovery of system.registry answers with the streaming URL, a subscription succeeds exactly for a channel that reads events |
| `Dispatch.OthersAreTurnedDown` | intent_brokering/src/intent_brokering_grpc.rs:131-150 | a request without an intent is an invalid argument, one for anything not bound is not found, and no call is made |
| `Dispatch.FulfillPanicsIff` | intent_brokering/src/intent_brokering_grpc.rs:126-155 | with a broker that mirrors a registry, a request panics exactly when it is a system inspection whose query does not compile |
| `Dispatch.Group` | intent_brokering/src/execution.rs:34-40 | the one-pass grouping lists under each key exactly its values, in order |
| `Dispatch.GroupingConserves` | intent_brokering/src/execution.rs:34-40 | laying the groups out in any order gives back the list, with multiplicities |
| `Dispatch.InspectionIsExact` | intent_brokering/src/execution.rs:81-113 | a system inspection answers with each matching namespace, and for it exactly the names of the kinds bound under it, each once |
| `Dispatch.InspectionFollowsWildcards` | intent_brokering/src/execution.rs:81-89 | and the matching namespaces are those the query's wildcards cover |
| `Dispatch.DisplayedIffNamed` | intent_brokering/src/registry.rs:366-377 | which name an inspection shows for which kind, and for no other |
| `Query.TwoReplacementsAreOneTokenisation` | intent_brokering/common/src/query.rs:7-9 | for every query the two replacements give the text of one left-to-right tokenisation |
| `Query.SimpleQueryAccepts` | intent_brokering/common/src/query.rs:7-13 | if stars and dots are the only special characters, the pattern, read character by character as a regular expression, accepts a one-line input exactly when single stars cover dot-free runs, longer runs of stars anything, and a dot any character |
| `Query.RenderParses` | intent_brokering/common/src/query.rs:7-9 | the text of a tokenised query, read as a regular expression, is one item per token |
| `Query.NamesAreSimple` | intent_brokering/common/src/query.rs:7-9 | every query of letters, digits, slashes, colons, dashes, underscores, dots and stars is of that kind |
| `Query.LiteralDotsNarrow` | intent_brokering/common/src/query.rs:7-9 | every match with dots read literally is still accepted |
| `Query.LiteralReadingIff` | intent_brokering/common/src/query.rs:7-9 | the pattern has the literal reading for every one-line input exactly when the query has no dot |

## Left out

- gRPC messages and their validation, value conversions, URL parsing, tracing, environment and signal handling: wrappers and one-branch mappings.
- Service discovery: a single map whose operations are each settled by one branch.
- Reusable connections to providers: a remote call is an arbitrary answer or failure.
- Connecting to the broker: a provider whose connection fails makes no call, so it is a step that changes nothing.
- Event timestamps, fresh channel ids and log callbacks: clocks, randomness and output; opening a client takes its id as a parameter.
- The event and client id types are strings, as the broker instantiates them; the published value is a type parameter.
- The regular-expression engine: `Query` gives the meaning of the constructs patterns are built from; other constructs, and multi-line inputs, are outside it. In `Dispatch` the engine is a parameter.
- tokio's rounding of a broadcast capacity up to a power of two: `publishCapacity` is the number of entries actually retained.
- Dropping the event sub-system while tasks still serve it.
- A subscription that `register_subscriptions` returned and its caller drops without serving it.
- The prune loop's cancellation: it ends the loop and changes nothing else.
- Lock poisoning and arithmetic overflow checks of debug builds: sequence numbers wrap.
