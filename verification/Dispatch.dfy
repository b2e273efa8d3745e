/** Fulfilling a request: resolving its intent to a runtime binding and executing it. */
module Dispatch {
  import opened Types
  import opened Directory
  import opened Broker
  import Query

  /** The variants of an intent that the broker tells apart. */
  datatype Intent =
    | DiscoverIntent
    | InspectIntent(query: string)
    | ReadIntent
    | WriteIntent
    | InvokeIntent
    | SubscribeIntent(channel: string, sources: seq<string>)

  datatype Status = InvalidArgument | NotFound | FailedPrecondition | Unknown(message: string)

  datatype Fulfillment =
    | Forwarded(payload: string)
    | Inspected(entries: map<string, seq<string>>)
    | Discovered(url: string)
    | Subscribed

  /** A panic is an outcome here, so that it can be proved not to happen. */
  datatype Outcome = Fulfilled(fulfillment: Fulfillment) | Failed(status: Status) | Panicked(message: string)

  datatype RuntimeBinding =
    | Remote(url: string)
    | Fallback(primary: RuntimeBinding, secondary: RuntimeBinding)
    | SystemInspect(intents: seq<IntentConfiguration>)
    | SystemDiscover(url: string)
    | SystemSubscribe

  /** The outside world: what the `n`-th remote call answers, what a regular expression
      compiles to, and which clients have opened a stream. */
  datatype World = World(
    reply: nat -> Outcome,
    compile: string -> Option<string -> bool>,
    readers: set<string>)

  /** A remote call answers or fails; it does not bring the broker down. */
  ghost predicate IsWorld(world: World) {
    forall n :: !world.reply(n).Panicked?
  }

  function Kind(intent: Intent): IntentKind {
    match intent
    case DiscoverIntent => Discover
    case InspectIntent(_) => Inspect
    case ReadIntent => Read
    case WriteIntent => Write
    case InvokeIntent => Invoke
    case SubscribeIntent(_, _) => Subscribe
  }

  function Display(kind: IntentKind): string {
    match kind
    case Discover => "discover"
    case Inspect => "inspect"
    case Read => "read"
    case Write => "write"
    case Invoke => "invoke"
    case Subscribe => "subscribe"
  }

  // ----- grouping -----

  /** The kinds listed with a namespace, in order. */
  function KindsOf(intents: seq<IntentConfiguration>, namespace: string): seq<IntentKind> {
    if intents == [] then []
    else
      var before := KindsOf(intents[..|intents| - 1], namespace);
      var last := intents[|intents| - 1];
      if last.namespace == namespace then before + [last.intent] else before
  }

  function Grouped(intents: seq<IntentConfiguration>): map<string, seq<IntentKind>> {
    map i | i in intents :: i.namespace := KindsOf(intents, i.namespace)
  }

  /** Groups in one pass, pushing each value onto the list of its key. */
  method Group(intents: seq<IntentConfiguration>) returns (groups: map<string, seq<IntentKind>>)
    ensures groups == Grouped(intents)
  {
    groups := map[];
    for n := 0 to |intents|
      invariant groups == Grouped(intents[..n])
    {
      var i := intents[n];
      ghost var before := intents[..n];
      var list := if i.namespace in groups then groups[i.namespace] else [];
      GroupedStep(before, i);
      assert intents[..n + 1] == before + [i];
      groups := groups[i.namespace := list + [i.intent]];
    }
    assert intents[..|intents|] == intents;
  }

  lemma {:induction false} KindsOfStranger(intents: seq<IntentConfiguration>, namespace: string)
    requires forall i | i in intents :: i.namespace != namespace
    ensures KindsOf(intents, namespace) == []
  {
    if intents != [] {
      KindsOfStranger(intents[..|intents| - 1], namespace);
    }
  }

  lemma GroupedStep(before: seq<IntentConfiguration>, i: IntentConfiguration)
    ensures var groups := Grouped(before);
            Grouped(before + [i]) ==
            groups[i.namespace := (if i.namespace in groups then groups[i.namespace] else []) + [i.intent]]
  {
    var groups := Grouped(before);
    var groups' := groups[i.namespace := (if i.namespace in groups then groups[i.namespace] else []) + [i.intent]];
    forall ns
      ensures ns in Grouped(before + [i]) <==> ns in groups'
      ensures ns in groups' ==> Grouped(before + [i])[ns] == groups'[ns]
    {
      GroupedKeys(before, i, ns);
      KindsOfStep(before, i, ns);
      if ns !in groups {
        KindsOfStranger(before, ns);
      }
    }
  }

  lemma KindsOfStep(before: seq<IntentConfiguration>, i: IntentConfiguration, ns: string)
    ensures KindsOf(before + [i], ns) == if i.namespace == ns then KindsOf(before, ns) + [i.intent] else KindsOf(before, ns)
  {}

  lemma GroupedKeys(before: seq<IntentConfiguration>, i: IntentConfiguration, ns: string)
    ensures ns in Grouped(before + [i]) <==> ns in Grouped(before) || ns == i.namespace
  {}

  /** A kind is in the group of a namespace exactly when the intent was in the list, and as
      often as it was. */
  lemma {:induction false} KindsOfCounts(intents: seq<IntentConfiguration>, namespace: string, kind: IntentKind)
    ensures multiset(KindsOf(intents, namespace))[kind] == multiset(intents)[IntentConfiguration(namespace, kind)]
  {
    if intents != [] {
      var front := intents[..|intents| - 1];
      KindsOfCounts(front, namespace, kind);
      assert intents == front + [intents[|front|]];
    }
  }

  /** The groups laid out again as a list of intents, for some order of their keys. */
  function Flatten(keys: seq<string>, groups: map<string, seq<IntentKind>>): multiset<IntentConfiguration>
    requires forall k | k in keys :: k in groups
  {
    if keys == [] then multiset{}
    else Flatten(keys[1..], groups) + multiset(Tagged(keys[0], groups[keys[0]]))
  }

  function Tagged(namespace: string, kinds: seq<IntentKind>): seq<IntentConfiguration> {
    if kinds == [] then []
    else Tagged(namespace, kinds[..|kinds| - 1]) + [IntentConfiguration(namespace, kinds[|kinds| - 1])]
  }

  lemma {:induction false} TaggedCounts(namespace: string, kinds: seq<IntentKind>, i: IntentConfiguration)
    ensures multiset(Tagged(namespace, kinds))[i] == if i.namespace == namespace then multiset(kinds)[i.intent] else 0
  {
    if kinds != [] {
      var front := kinds[..|kinds| - 1];
      TaggedCounts(namespace, front, i);
      assert kinds == front + [kinds[|front|]];
    }
  }

  lemma {:induction false} FlattenCounts(keys: seq<string>, groups: map<string, seq<IntentKind>>, i: IntentConfiguration)
    requires forall k | k in keys :: k in groups
    requires forall j, k | 0 <= j < k < |keys| :: keys[j] != keys[k]
    ensures Flatten(keys, groups)[i] == if i.namespace in keys then multiset(groups[i.namespace])[i.intent] else 0
  {
    if keys != [] {
      FlattenCounts(keys[1..], groups, i);
      TaggedCounts(keys[0], groups[keys[0]], i);
    }
  }

  /** Grouping loses and duplicates nothing: laying the groups out in any order of their keys
      gives back the list, as often as each intent was in it. */
  lemma GroupingConserves(intents: seq<IntentConfiguration>, keys: seq<string>)
    requires forall k :: k in keys <==> k in Grouped(intents)
    requires forall j, k | 0 <= j < k < |keys| :: keys[j] != keys[k]
    ensures Flatten(keys, Grouped(intents)) == multiset(intents)
  {
    forall i ensures Flatten(keys, Grouped(intents))[i] == multiset(intents)[i] {
      FlattenCounts(keys, Grouped(intents), i);
      KindsOfCounts(intents, i.namespace, i.intent);
      assert i == IntentConfiguration(i.namespace, i.intent);
      if i.namespace !in keys {
        assert i !in intents;
      }
    }
  }

  // ----- resolving -----

  function Resolve(binding: Binding, keys: seq<IntentConfiguration>): RuntimeBinding {
    match binding
    case Remote(url) => RuntimeBinding.Remote(url)
    case Fallback(primary, secondary) => RuntimeBinding.Fallback(Resolve(primary, keys), Resolve(secondary, keys))
    case SystemInspect => RuntimeBinding.SystemInspect(keys)
    case SystemDiscover(url) => RuntimeBinding.SystemDiscover(url)
    case SystemSubscribe => RuntimeBinding.SystemSubscribe
  }

  // ----- executing -----

  /** An outcome and the URLs of the remote calls made on the way, in order. */
  datatype Run = Run(outcome: Outcome, attempts: seq<string>)

  /** A run that made way for another one. */
  function Then(first: Run, second: Run): Run {
    Run(second.outcome, first.attempts + second.attempts)
  }

  lemma ThenIsAssociative(a: Run, b: Run, c: Run)
    ensures Then(a, Then(b, c)) == Then(Then(a, b), c)
  {}

  function Selected(intents: seq<IntentConfiguration>, matches: string -> bool): seq<IntentConfiguration> {
    if intents == [] then []
    else
      var before := Selected(intents[..|intents| - 1], matches);
      var last := intents[|intents| - 1];
      if matches(last.namespace) then before + [last] else before
  }

  function DisplayAll(kinds: seq<IntentKind>): seq<string> {
    seq(|kinds|, (n: nat) requires n < |kinds| => Display(kinds[n]))
  }

  function Entries(groups: map<string, seq<IntentKind>>): map<string, seq<string>> {
    map ns | ns in groups :: DisplayAll(groups[ns])
  }

  /** What inspecting some intents with a compiled query answers. */
  function Inspection(intents: seq<IntentConfiguration>, regex: Option<string -> bool>): Outcome {
    match regex
    case None => Panicked("not a regular expression")
    case Some(matches) => Fulfilled(Inspected(Entries(Grouped(Selected(intents, matches)))))
  }

  /** Executes a binding when `n` remote calls have been made before. */
  function Execute(b: RuntimeBinding, intent: Intent, world: World, n: nat): Run {
    match b
    case Remote(url) => Run(world.reply(n), [url])
    case Fallback(primary, secondary) =>
      var first := Execute(primary, intent, world, n);
      if first.outcome.Failed? then Then(first, Execute(secondary, intent, world, n + |first.attempts|)) else first
    case SystemInspect(intents) =>
      if intent.InspectIntent? then Run(Inspection(intents, world.compile(Query.Pattern(intent.query))), [])
      else Run(Panicked("An intent other than 'Inspect' was resolved to 'SystemInspect'."), [])
    case SystemDiscover(url) => Run(Fulfilled(Discovered(url)), [])
    case SystemSubscribe =>
      if intent.SubscribeIntent? then
        Run(if intent.channel in world.readers then Fulfilled(Subscribed) else Failed(FailedPrecondition), [])
      else Run(Panicked("An intent other than 'Subscribe' was resolved to 'SystemSubscribe'."), [])
  }

  // ----- fallback trees are tried leaf by leaf -----

  function Leaves(b: RuntimeBinding): (r: seq<RuntimeBinding>)
    ensures r != []
  {
    if b.Fallback? then Leaves(b.primary) + Leaves(b.secondary) else [b]
  }

  /** Tries a list of bindings in order until one does not fail. */
  function TryInOrder(leaves: seq<RuntimeBinding>, run: (RuntimeBinding, nat) -> Run, n: nat): Run
    requires leaves != []
  {
    var first := run(leaves[0], n);
    if |leaves| == 1 || !first.outcome.Failed? then first
    else Then(first, TryInOrder(leaves[1..], run, n + |first.attempts|))
  }

  function Executor(intent: Intent, world: World): (RuntimeBinding, nat) -> Run {
    (b: RuntimeBinding, n: nat) => Execute(b, intent, world, n)
  }

  lemma {:induction false} TryAppended(a: seq<RuntimeBinding>, b: seq<RuntimeBinding>, run: (RuntimeBinding, nat) -> Run, n: nat)
    requires a != [] && b != []
    ensures var first := TryInOrder(a, run, n);
            TryInOrder(a + b, run, n) ==
            if first.outcome.Failed? then Then(first, TryInOrder(b, run, n + |first.attempts|)) else first
  {
    var head := run(a[0], n);
    if |a| == 1 {
      assert (a + b)[1..] == b;
    } else {
      assert (a + b)[1..] == a[1..] + b;
      if head.outcome.Failed? {
        TryAppended(a[1..], b, run, n + |head.attempts|);
        var rest := TryInOrder(a[1..], run, n + |head.attempts|);
        ThenIsAssociative(head, rest, TryInOrder(b, run, n + |head.attempts| + |rest.attempts|));
      }
    }
  }

  /** Fallback on its own, whatever executing a leaf means. */
  function RunTree(b: RuntimeBinding, run: (RuntimeBinding, nat) -> Run, n: nat): Run {
    if b.Fallback? then
      var first := RunTree(b.primary, run, n);
      if first.outcome.Failed? then Then(first, RunTree(b.secondary, run, n + |first.attempts|)) else first
    else run(b, n)
  }

  lemma {:induction false} TreeTriesLeavesInOrder(b: RuntimeBinding, run: (RuntimeBinding, nat) -> Run, n: nat)
    ensures RunTree(b, run, n) == TryInOrder(Leaves(b), run, n)
  {
    if b.Fallback? {
      TreeTriesLeavesInOrder(b.primary, run, n);
      TreeTriesLeavesInOrder(b.secondary, run, n + |RunTree(b.primary, run, n).attempts|);
      TryAppended(Leaves(b.primary), Leaves(b.secondary), run, n);
    }
  }

  lemma ExecutorExecutes(b: RuntimeBinding, intent: Intent, world: World, n: nat)
    ensures Executor(intent, world)(b, n) == Execute(b, intent, world, n)
  {}

  lemma {:induction false} ExecuteIsTree(b: RuntimeBinding, intent: Intent, world: World, n: nat)
    ensures Execute(b, intent, world, n) == RunTree(b, Executor(intent, world), n)
  {
    if b.Fallback? {
      ExecuteIsTree(b.primary, intent, world, n);
      ExecuteIsTree(b.secondary, intent, world, n + |Execute(b.primary, intent, world, n).attempts|);
    } else {
      ExecutorExecutes(b, intent, world, n);
    }
  }

  /** Executing any fallback tree is trying its leaves from left to right: the first outcome
      that is not a failure, or the failure of the last leaf. */
  lemma ExecuteTriesLeavesInOrder(b: RuntimeBinding, intent: Intent, world: World, n: nat)
    ensures Execute(b, intent, world, n) == TryInOrder(Leaves(b), Executor(intent, world), n)
  {
    ExecuteIsTree(b, intent, world, n);
    TreeTriesLeavesInOrder(b, Executor(intent, world), n);
  }

  function Urls(leaves: seq<RuntimeBinding>): seq<string>
    requires forall l | l in leaves :: l.Remote?
  {
    if leaves == [] then [] else [leaves[0].url] + Urls(leaves[1..])
  }

  /** The calls made are a prefix of the remotes, all but the last of them failed, and the
      outcome is what the last one answered, which is a failure only if all were tried. */
  ghost predicate TriedUntilAnswered(run: Run, urls: seq<string>, reply: nat -> Outcome, n: nat) {
    var m := |run.attempts|;
    && 1 <= m <= |urls| && run.attempts <= urls
    && (forall j | n <= j < n + m - 1 :: reply(j).Failed?)
    && run.outcome == reply(n + m - 1)
    && (run.outcome.Failed? ==> m == |urls|)
  }

  lemma {:induction false} RemotesAreTried(leaves: seq<RuntimeBinding>, run: (RuntimeBinding, nat) -> Run,
                                           reply: nat -> Outcome, n: nat)
    requires leaves != [] && forall l | l in leaves :: l.Remote?
    requires forall url, m :: run(RuntimeBinding.Remote(url), m) == Run(reply(m), [url])
    ensures TriedUntilAnswered(TryInOrder(leaves, run, n), Urls(leaves), reply, n)
  {
    assert leaves[0] in leaves;
    var first := run(leaves[0], n);
    assert first == Run(reply(n), [leaves[0].url]);
    if |leaves| > 1 && reply(n).Failed? {
      RemotesAreTried(leaves[1..], run, reply, n + 1);
    }
  }

  /** A fallback tree of remotes calls its leaves from left to right until one answers. */
  lemma RemoteTreeIsTriedUntilAnswered(b: RuntimeBinding, intent: Intent, world: World, n: nat)
    requires forall l | l in Leaves(b) :: l.Remote?
    ensures TriedUntilAnswered(Execute(b, intent, world, n), Urls(Leaves(b)), world.reply, n)
  {
    ExecuteTriesLeavesInOrder(b, intent, world, n);
    RemotesAreTried(Leaves(b), Executor(intent, world), world.reply, n);
  }

  // ----- what a request is answered -----

  /** The URLs of a binding made of remotes, from left to right. */
  function BoundUrls(b: Binding): (r: Option<seq<string>>)
  {
    match b
    case Remote(url) => Some([url])
    case Fallback(primary, secondary) =>
      var first, second := BoundUrls(primary), BoundUrls(secondary);
      if first.Some? && second.Some? then Some(first.value + second.value) else None
    case _ => None
  }

  lemma {:induction false} UrlsAppend(a: seq<RuntimeBinding>, b: seq<RuntimeBinding>)
    requires forall l | l in a + b :: l.Remote?
    ensures Urls(a + b) == Urls(a) + Urls(b)
  {
    if a == [] {
      assert a + b == b;
    } else {
      assert (a + b)[1..] == a[1..] + b;
      UrlsAppend(a[1..], b);
    }
  }

  /** Resolving keeps the order of a fallback tree. */
  lemma {:induction false} ResolvedInOrder(b: Binding, keys: seq<IntentConfiguration>)
    requires BoundUrls(b).Some?
    ensures forall l | l in Leaves(Resolve(b, keys)) :: l.Remote?
    ensures Urls(Leaves(Resolve(b, keys))) == BoundUrls(b).value
  {
    if b.Fallback? {
      ResolvedInOrder(b.primary, keys);
      ResolvedInOrder(b.secondary, keys);
      UrlsAppend(Leaves(Resolve(b.primary, keys)), Leaves(Resolve(b.secondary, keys)));
    }
  }

  /** Executing a binding of remotes calls its URLs from left to right until one answers. */
  lemma BoundUrlsAreTried(b: Binding, keys: seq<IntentConfiguration>, intent: Intent, world: World, n: nat)
    requires BoundUrls(b).Some?
    ensures TriedUntilAnswered(Execute(Resolve(b, keys), intent, world, n), BoundUrls(b).value, world.reply, n)
  {
    ResolvedInOrder(b, keys);
    RemoteTreeIsTriedUntilAnswered(Resolve(b, keys), intent, world, n);
  }

  /** The URL is that of a registered service of the locality. */
  ghost predicate IsUrlOf(url: string, services: set<ServiceConfiguration>, locality: ExecutionLocality) {
    exists s :: s in services && s.locality == locality && s.url == url
  }

  /** What becomes of a request that some services were registered for: a cloud service is
      called if there is one, and otherwise a local one; if there are both, a local one is
      called after the cloud one failed; and the last call's answer is the answer. */
  ghost predicate IsForwarded(run: Run, services: set<ServiceConfiguration>, reply: nat -> Outcome, n: nat) {
    var cloud := exists s :: s in services && s.locality == Cloud;
    var local := exists s :: s in services && s.locality == Local;
    if cloud && local && reply(n).Failed? then
      && |run.attempts| == 2
      && IsUrlOf(run.attempts[0], services, Cloud) && IsUrlOf(run.attempts[1], services, Local)
      && run.outcome == reply(n + 1)
    else
      && |run.attempts| == 1
      && IsUrlOf(run.attempts[0], services, if cloud then Cloud else Local)
      && run.outcome == reply(n)
  }

  lemma FittingBindingForwards(b: Binding, services: set<ServiceConfiguration>, keys: seq<IntentConfiguration>,
                               intent: Intent, world: World, n: nat)
    requires Fits(b, services)
    ensures IsForwarded(Execute(Resolve(b, keys), intent, world, n), services, world.reply, n)
  {
    BoundUrlsAreTried(b, keys, intent, world, n);
    var run := Execute(Resolve(b, keys), intent, world, n);
    if b.Fallback? {
      assert BoundUrls(b).value == [b.primary.url, b.secondary.url];
    }
  }

  /** The kind of intent that a request's variant asks for. */
  predicate AsksFor(intent: Intent, kind: IntentKind) {
    || (intent.DiscoverIntent? && kind == Discover) || (intent.InspectIntent? && kind == Inspect)
    || (intent.ReadIntent? && kind == Read) || (intent.WriteIntent? && kind == Write)
    || (intent.InvokeIntent? && kind == Invoke) || (intent.SubscribeIntent? && kind == Subscribe)
  }

  lemma AsksForItsKind(intent: Intent, kind: IntentKind)
    ensures AsksFor(intent, kind) <==> Kind(intent) == kind
  {}

  datatype Request = Request(namespace: string, intent: Option<Option<Intent>>)

  /** The whole of `fulfill`; `keys` lists the bound intents in some order. */
  function Fulfill(bindings: Bindings, keys: seq<IntentConfiguration>, request: Request, world: World, n: nat): Run {
    match request.intent
    case None => Run(Failed(InvalidArgument), [])
    case Some(None) => Run(Failed(InvalidArgument), [])
    case Some(Some(intent)) =>
      var config := IntentConfiguration(request.namespace, Kind(intent));
      if config in bindings then Execute(Resolve(bindings[config], keys), intent, world, n)
      else Run(Failed(NotFound), [])
  }

  /** A request that names an intent some services are registered for is forwarded to them. */
  lemma RegisteredIsForwarded(bindings: Bindings, index: IntentIndex, streamingUrl: string, keys: seq<IntentConfiguration>,
                              namespace: string, intent: Intent, kind: IntentKind, world: World, n: nat)
    requires Mirrors(bindings, index, streamingUrl)
    requires AsksFor(intent, kind) && IntentConfiguration(namespace, kind) in index
    ensures IsForwarded(Fulfill(bindings, keys, Request(namespace, Some(Some(intent))), world, n),
                        index[IntentConfiguration(namespace, kind)], world.reply, n)
  {
    AsksForItsKind(intent, kind);
    var config := IntentConfiguration(namespace, kind);
    FittingBindingForwards(bindings[config], index[config], keys, intent, world, n);
  }

  /** What the registry's own namespace answers to a discovery and to a subscription. */
  lemma SystemRegistryAnswers(bindings: Bindings, index: IntentIndex, streamingUrl: string, keys: seq<IntentConfiguration>,
                              channel: string, sources: seq<string>, world: World, n: nat)
    requires Mirrors(bindings, index, streamingUrl)
    ensures Fulfill(bindings, keys, Request("system.registry", Some(Some(DiscoverIntent))), world, n)
            == Run(Fulfilled(Discovered(streamingUrl)), [])
    ensures Fulfill(bindings, keys, Request("system.registry", Some(Some(SubscribeIntent(channel, sources)))), world, n)
            == Run(if channel in world.readers then Fulfilled(Subscribed) else Failed(FailedPrecondition), [])
  {
    var system := SystemBindings(streamingUrl);
    assert IntentConfiguration("system.registry", Discover) in system && IntentConfiguration("system.registry", Subscribe) in system;
  }

  /** Any other request is turned down without a call: one without an intent, and one for an
      intent that nobody is registered for and the registry does not answer itself. */
  lemma OthersAreTurnedDown(bindings: Bindings, index: IntentIndex, streamingUrl: string, keys: seq<IntentConfiguration>,
                            request: Request, world: World, n: nat)
    requires Mirrors(bindings, index, streamingUrl)
    ensures request.intent.None? || request.intent.value.None? ==>
              Fulfill(bindings, keys, request, world, n) == Run(Failed(InvalidArgument), [])
    ensures request.intent.Some? && request.intent.value.Some? ==>
              forall kind | AsksFor(request.intent.value.value, kind) ::
                IntentConfiguration(request.namespace, kind) !in index
                && !(request.namespace == "system.registry" && (kind == Discover || kind == Inspect || kind == Subscribe))
                ==> Fulfill(bindings, keys, request, world, n) == Run(Failed(NotFound), [])
  {
    if request.intent.Some? && request.intent.value.Some? {
      forall kind | AsksFor(request.intent.value.value, kind) ensures Kind(request.intent.value.value) == kind {
        AsksForItsKind(request.intent.value.value, kind);
      }
    }
  }

  // ----- no other request panics the broker -----

  /** The one request that does panic: an inspection whose query does not compile. */
  predicate IsBadInspection(request: Request, world: World) {
    && request.namespace == "system.registry"
    && request.intent.Some? && request.intent.value.Some?
    && var intent := request.intent.value.value;
    && intent.InspectIntent? && world.compile(Query.Pattern(intent.query)).None?
  }

  lemma FittingBindingDoesNotPanic(b: Binding, services: set<ServiceConfiguration>, keys: seq<IntentConfiguration>,
                                   intent: Intent, world: World, n: nat)
    requires Fits(b, services) && IsWorld(world)
    ensures !Execute(Resolve(b, keys), intent, world, n).outcome.Panicked?
  {}

  /** The system bindings are only ever reached by intents of their own kind. */
  lemma SystemBindingPanicsIff(streamingUrl: string, keys: seq<IntentConfiguration>, intent: Intent, world: World, n: nat)
    ensures var config := IntentConfiguration(SYSTEM_REGISTRY_NAMESPACE, Kind(intent));
            config in SystemBindings(streamingUrl) ==>
              (Execute(Resolve(SystemBindings(streamingUrl)[config], keys), intent, world, n).outcome.Panicked? <==>
               intent.InspectIntent? && world.compile(Query.Pattern(intent.query)).None?)
    ensures intent.InspectIntent? ==> IntentConfiguration(SYSTEM_REGISTRY_NAMESPACE, Kind(intent)) in SystemBindings(streamingUrl)
  {}

  /** In every state where the broker mirrors a registry, a request panics it exactly when it
      is a system inspection whose query is not a regular expression; the two "other than"
      panics are never reached. */
  lemma FulfillPanicsIff(bindings: Bindings, index: IntentIndex, streamingUrl: string, keys: seq<IntentConfiguration>,
                         request: Request, world: World, n: nat)
    requires Mirrors(bindings, index, streamingUrl) && NoSystemIntents(index) && IsWorld(world)
    ensures Fulfill(bindings, keys, request, world, n).outcome.Panicked? <==> IsBadInspection(request, world)
  {
    SystemKeysAreApart(index, streamingUrl);
    if request.intent.Some? && request.intent.value.Some? {
      var intent := request.intent.value.value;
      var config := IntentConfiguration(request.namespace, Kind(intent));
      SystemBindingPanicsIff(streamingUrl, keys, intent, world, n);
      if config in index {
        FittingBindingDoesNotPanic(bindings[config], index[config], keys, intent, world, n);
      } else if config in bindings {
        assert config in SystemBindings(streamingUrl) && config.namespace == SYSTEM_REGISTRY_NAMESPACE;
      }
    }
  }

  // ----- inspection -----

  ghost predicate Enumerates(keys: seq<IntentConfiguration>, bindings: Bindings) {
    && (forall i :: i in keys <==> i in bindings)
    && (forall j, k | 0 <= j < k < |keys| :: keys[j] != keys[k])
  }

  lemma {:induction false} SelectedCounts(intents: seq<IntentConfiguration>, matches: string -> bool, i: IntentConfiguration)
    ensures multiset(Selected(intents, matches))[i] == if matches(i.namespace) then multiset(intents)[i] else 0
  {
    if intents != [] {
      var front := intents[..|intents| - 1];
      SelectedCounts(front, matches, i);
      assert intents == front + [intents[|front|]];
    }
  }

  lemma {:induction false} DistinctCounts(keys: seq<IntentConfiguration>, i: IntentConfiguration)
    requires forall j, k | 0 <= j < k < |keys| :: keys[j] != keys[k]
    ensures multiset(keys)[i] == if i in keys then 1 else 0
  {
    if keys != [] {
      var front := keys[..|keys| - 1];
      DistinctCounts(front, i);
      assert keys == front + [keys[|front|]];
    }
  }

  /** The name under which an inspection shows a kind. */
  predicate Names(name: string, kind: IntentKind) {
    || (name == "discover" && kind == Discover) || (name == "inspect" && kind == Inspect)
    || (name == "read" && kind == Read) || (name == "write" && kind == Write)
    || (name == "invoke" && kind == Invoke) || (name == "subscribe" && kind == Subscribe)
  }

  /** A name is displayed for one kind and no other. */
  lemma DisplayedIffNamed(kind: IntentKind, name: string)
    ensures Display(kind) == name <==> Names(name, kind)
    ensures forall other :: Names(name, kind) && Names(name, other) ==> other == kind
  {}

  /** Grouping the selected keys lists each matching namespace, and under it each bound kind once. */
  lemma SelectionIsExact(bindings: Bindings, keys: seq<IntentConfiguration>, matches: string -> bool,
                         namespace: string, kind: IntentKind)
    requires Enumerates(keys, bindings)
    ensures var groups := Grouped(Selected(keys, matches));
            && (namespace in groups <==> matches(namespace) && exists k :: IntentConfiguration(namespace, k) in bindings)
            && (namespace in groups ==>
                  multiset(groups[namespace])[kind] == if IntentConfiguration(namespace, kind) in bindings then 1 else 0)
  {
    var selected := Selected(keys, matches);
    var i := IntentConfiguration(namespace, kind);
    SelectedCounts(keys, matches, i);
    DistinctCounts(keys, i);
    KindsOfCounts(selected, namespace, kind);
    if namespace in Grouped(selected) {
      var j :| j in selected && j.namespace == namespace;
      SelectedCounts(keys, matches, j);
      assert j in multiset(selected) && j in keys;
      assert j == IntentConfiguration(namespace, j.intent);
    }
    if matches(namespace) && exists k :: IntentConfiguration(namespace, k) in bindings {
      var k :| IntentConfiguration(namespace, k) in bindings;
      var j := IntentConfiguration(namespace, k);
      SelectedCounts(keys, matches, j);
      DistinctCounts(keys, j);
      assert j in multiset(selected) && j in selected;
    }
  }

  lemma SingleOccurrences(kinds: seq<IntentKind>)
    requires forall kind :: multiset(kinds)[kind] <= 1
    ensures forall j, k | 0 <= j < k < |kinds| :: kinds[j] != kinds[k]
  {
    forall j, k | 0 <= j < k < |kinds| ensures kinds[j] != kinds[k] {
      assert kinds == kinds[..k] + [kinds[k]] + kinds[k + 1..];
      assert multiset(kinds)[kinds[k]] == multiset(kinds[..k])[kinds[k]] + 1 + multiset(kinds[k + 1..])[kinds[k]];
      assert kinds[j] == kinds[..k][j] && kinds[j] in multiset(kinds[..k]);
    }
  }

  /** What a system inspection must answer about a namespace. */
  ghost predicate AnswersFor(entries: map<string, seq<string>>, bindings: Bindings, matched: bool, namespace: string) {
    && (namespace in entries <==> matched && exists k :: IntentConfiguration(namespace, k) in bindings)
    && (namespace in entries ==>
          && (forall j, k | 0 <= j < k < |entries[namespace]| :: entries[namespace][j] != entries[namespace][k])
          && (forall name :: name in entries[namespace] <==>
                exists k :: IntentConfiguration(namespace, k) in bindings && Names(name, k)))
  }

  lemma EntriesAnswer(bindings: Bindings, keys: seq<IntentConfiguration>, matches: string -> bool, namespace: string)
    requires Enumerates(keys, bindings)
    ensures AnswersFor(Entries(Grouped(Selected(keys, matches))), bindings, matches(namespace), namespace)
  {
    var groups := Grouped(Selected(keys, matches));
    var entries := Entries(groups);
    SelectionIsExact(bindings, keys, matches, namespace, Read);
    if namespace in groups {
      var kinds := groups[namespace];
      forall k
        ensures multiset(kinds)[k] <= 1
        ensures k in kinds <==> IntentConfiguration(namespace, k) in bindings
      {
        SelectionIsExact(bindings, keys, matches, namespace, k);
        assert k in kinds <==> k in multiset(kinds);
      }
      SingleOccurrences(kinds);
      NamesAnswer(bindings, kinds, namespace);
    }
  }

  /** Displaying distinct kinds gives distinct names. */
  lemma NamesAnswer(bindings: Bindings, kinds: seq<IntentKind>, namespace: string)
    requires forall j, k | 0 <= j < k < |kinds| :: kinds[j] != kinds[k]
    requires forall k :: k in kinds <==> IntentConfiguration(namespace, k) in bindings
    ensures var names := DisplayAll(kinds);
            && (forall j, k | 0 <= j < k < |names| :: names[j] != names[k])
            && (forall name :: name in names <==> exists k :: IntentConfiguration(namespace, k) in bindings && Names(name, k))
  {
    var names := DisplayAll(kinds);
    forall j, k | 0 <= j < k < |names| ensures names[j] != names[k] {
      DisplayedIffNamed(kinds[j], names[j]);
      DisplayedIffNamed(kinds[k], names[j]);
    }
    forall name ensures name in names <==> exists k :: IntentConfiguration(namespace, k) in bindings && Names(name, k) {
      if name in names {
        var j :| 0 <= j < |names| && names[j] == name;
        DisplayedIffNamed(kinds[j], name);
        assert kinds[j] in kinds;
      }
      if k :| IntentConfiguration(namespace, k) in bindings && Names(name, k) {
        var j :| 0 <= j < |kinds| && kinds[j] == k;
        DisplayedIffNamed(k, name);
        assert names[j] == name;
      }
    }
  }

  /** A system inspection answers with each matching namespace, and for it exactly the names of
      the kinds currently bound under it, each once. */
  lemma InspectionIsExact(bindings: Bindings, index: IntentIndex, streamingUrl: string, keys: seq<IntentConfiguration>,
                          query: string, world: World, n: nat)
    requires Mirrors(bindings, index, streamingUrl) && Enumerates(keys, bindings)
    requires world.compile(Query.Pattern(query)).Some?
    ensures var request := Request("system.registry", Some(Some(InspectIntent(query))));
            var outcome := Fulfill(bindings, keys, request, world, n).outcome;
            && outcome.Fulfilled? && outcome.fulfillment.Inspected?
            && forall namespace ::
                 AnswersFor(outcome.fulfillment.entries, bindings,
                            world.compile(Query.Pattern(query)).value(namespace), namespace)
  {
    var config := IntentConfiguration(SYSTEM_REGISTRY_NAMESPACE, Inspect);
    assert config in SystemBindings(streamingUrl);
    assert bindings[config] == Binding.SystemInspect;
    var matches := world.compile(Query.Pattern(query)).value;
    forall namespace
      ensures AnswersFor(Entries(Grouped(Selected(keys, matches))), bindings, matches(namespace), namespace)
    {
      EntriesAnswer(bindings, keys, matches, namespace);
    }
  }

  /** With an engine that reads patterns as module Query does, a wildcard inspection lists
      exactly the bound namespaces the wildcards cover. */
  lemma InspectionFollowsWildcards(bindings: Bindings, index: IntentIndex, streamingUrl: string, keys: seq<IntentConfiguration>,
                                   query: string, world: World, n: nat, namespace: string)
    requires Mirrors(bindings, index, streamingUrl) && Enumerates(keys, bindings)
    requires Query.IsSimple(query) && '\n' !in namespace
    requires world.compile(Query.Pattern(query)).Some?
    requires forall x :: world.compile(Query.Pattern(query)).value(x) <==> Query.Accepts(query, x)
    ensures var request := Request("system.registry", Some(Some(InspectIntent(query))));
            var outcome := Fulfill(bindings, keys, request, world, n).outcome;
            && outcome.Fulfilled? && outcome.fulfillment.Inspected?
            && AnswersFor(outcome.fulfillment.entries, bindings, Query.Glob(query, namespace, true), namespace)
  {
    InspectionIsExact(bindings, index, streamingUrl, keys, query, world, n);
    Query.SimpleQueryAccepts(query, namespace);
  }
}
