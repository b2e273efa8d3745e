/** The intent broker: the map of bindings it mirrors from the registry, one batch of
    changes at a time. */
module Broker {
  import opened Types
  import opened Directory

  datatype Change =
    | Added(intent: IntentConfiguration, services: set<ServiceConfiguration>)
    | Modified(intent: IntentConfiguration, services: set<ServiceConfiguration>)
    | Removed(intent: IntentConfiguration)

  datatype Binding =
    | Remote(url: string)
    | Fallback(primary: Binding, secondary: Binding)
    | SystemInspect
    | SystemDiscover(streamingUrl: string)
    | SystemSubscribe

  type Bindings = map<IntentConfiguration, Binding>

  /** The services a change leaves for its intent. */
  function ServicesOf(c: Change): set<ServiceConfiguration> {
    if c.Removed? then {} else c.services
  }

  // ----- which bindings fit a set of services -----

  ghost predicate Offers(services: set<ServiceConfiguration>, locality: ExecutionLocality) {
    exists s :: s in services && s.locality == locality
  }

  /** The binding calls a service of that locality among the given ones. */
  ghost predicate Calls(b: Binding, services: set<ServiceConfiguration>, locality: ExecutionLocality) {
    b.Remote? && exists s :: s in services && s.locality == locality && b.url == s.url
  }

  /** A cloud-then-local fallback when both localities are on offer, otherwise a single
      remote for the one that is. */
  ghost predicate Fits(b: Binding, services: set<ServiceConfiguration>) {
    if Offers(services, Local) && Offers(services, Cloud) then
      b.Fallback? && Calls(b.primary, services, Cloud) && Calls(b.secondary, services, Local)
    else if Offers(services, Local) then
      Calls(b, services, Local)
    else
      Calls(b, services, Cloud)
  }

  // ----- the fixed system bindings -----

  function SystemBindings(streamingUrl: string): Bindings {
    map[
      IntentConfiguration(SYSTEM_REGISTRY_NAMESPACE, Inspect) := SystemInspect,
      IntentConfiguration(SYSTEM_REGISTRY_NAMESPACE, Discover) := SystemDiscover(streamingUrl),
      IntentConfiguration(SYSTEM_REGISTRY_NAMESPACE, Subscribe) := SystemSubscribe
    ]
  }

  ghost predicate NoSystemIntents(index: IntentIndex) {
    forall i | i in index :: !IsSystemNamespace(i.namespace)
  }

  lemma SystemKeysAreApart(index: IntentIndex, streamingUrl: string)
    requires NoSystemIntents(index)
    ensures index.Keys !! SystemBindings(streamingUrl).Keys
  {
    SystemRegistryIsReserved();
  }

  /** The bindings mirror the index: its intents and the system ones, each bound as it
      should be. */
  ghost predicate Mirrors(bindings: Bindings, index: IntentIndex, streamingUrl: string) {
    && bindings.Keys == index.Keys + SystemBindings(streamingUrl).Keys
    && (forall i | i in SystemBindings(streamingUrl) :: i in bindings && bindings[i] == SystemBindings(streamingUrl)[i])
    && (forall i | i in index :: i in bindings && Fits(bindings[i], index[i]))
  }

  // ----- what applying a batch does -----

  /** The last change of a batch that concerns an intent. */
  function LastChange(changes: seq<Change>, i: IntentConfiguration): (r: Option<Change>)
    ensures r.Some? ==> r.value in changes && r.value.intent == i
    ensures r.None? ==> forall c | c in changes :: c.intent != i
  {
    if changes == [] then None
    else if changes[|changes| - 1].intent == i then Some(changes[|changes| - 1])
    else LastChange(changes[..|changes| - 1], i)
  }

  /** The entry for an intent after a change, or untouched without one. */
  ghost predicate EntryRefreshed(before: Bindings, after: Bindings, i: IntentConfiguration, change: Option<Change>) {
    match change
    case None => (i in before <==> i in after) && (i in before ==> before[i] == after[i])
    case Some(c) => if ServicesOf(c) == {} then i !in after else i in after && Fits(after[i], ServicesOf(c))
  }

  ghost predicate Refreshed(before: Bindings, after: Bindings, changes: seq<Change>) {
    forall i :: EntryRefreshed(before, after, i, LastChange(changes, i))
  }

  // ----- batches that describe a net change -----

  function Describe(i: IntentConfiguration, changes: Changes, index: IntentIndex): Change
    requires i in changes && (changes[i] != Remove ==> i in index)
  {
    match changes[i]
    case Add => Added(i, index[i])
    case Modify => Modified(i, index[i])
    case Remove => Removed(i)
  }

  /** The batch names each changed intent exactly once, with its current services. */
  ghost predicate IsBatch(batch: seq<Change>, changes: Changes, index: IntentIndex) {
    && (forall i | i in changes && changes[i] != Remove :: i in index)
    && (forall i :: i in changes <==> exists k :: 0 <= k < |batch| && batch[k].intent == i)
    && (forall k | 0 <= k < |batch| :: batch[k].intent in changes && batch[k] == Describe(batch[k].intent, changes, index))
    && (forall j, k | 0 <= j < k < |batch| :: batch[j].intent != batch[k].intent)
  }

  /** In a batch the order does not matter: the last change of an intent is its only one. */
  lemma LastOfBatch(batch: seq<Change>, changes: Changes, index: IntentIndex, i: IntentConfiguration)
    requires IsBatch(batch, changes, index)
    ensures LastChange(batch, i) == if i in changes then Some(Describe(i, changes, index)) else None
  {}

  /** Refreshing a mirror of the old index with a batch that describes the net change, in
      any order, gives a mirror of the new index. */
  lemma MirrorFollows(before: Bindings, after: Bindings, batch: seq<Change>, changes: Changes,
                      index: IntentIndex, index': IntentIndex, streamingUrl: string)
    requires Mirrors(before, index, streamingUrl)
    requires NoSystemIntents(index) && NoSystemIntents(index')
    requires forall i | i in index' :: index'[i] != {}
    requires NetChange(index, index', changes)
    requires IsBatch(batch, changes, index')
    requires Refreshed(before, after, batch)
    ensures Mirrors(after, index', streamingUrl)
  {
    SystemKeysAreApart(index, streamingUrl);
    SystemKeysAreApart(index', streamingUrl);
    forall i
      ensures i in after <==> i in index' || i in SystemBindings(streamingUrl)
      ensures i in index' ==> Fits(after[i], index'[i])
      ensures i in SystemBindings(streamingUrl) ==> after[i] == before[i]
    {
      LastOfBatch(batch, changes, index', i);
      assert EntryRefreshed(before, after, i, LastChange(batch, i));
    }
  }

  /** Both are cloud-then-local fallbacks, or both are remotes, calling services of the same
      locality. */
  ghost predicate SameShape(a: Binding, b: Binding, services: set<ServiceConfiguration>) {
    || (a.Fallback? && b.Fallback?
        && Calls(a.primary, services, Cloud) && Calls(b.primary, services, Cloud)
        && Calls(a.secondary, services, Local) && Calls(b.secondary, services, Local))
    || (Calls(a, services, Cloud) && Calls(b, services, Cloud))
    || (Calls(a, services, Local) && Calls(b, services, Local))
  }

  lemma FittingHaveSameShape(a: Binding, b: Binding, services: set<ServiceConfiguration>)
    requires Fits(a, services) && Fits(b, services)
    ensures SameShape(a, b, services)
  {}

  /** Two orders of the same batch lead to the same bound intents and the same shapes. */
  lemma OrderDoesNotMatter(before: Bindings, after: Bindings, after': Bindings, batch: seq<Change>, batch': seq<Change>,
                           changes: Changes, index: IntentIndex)
    requires IsBatch(batch, changes, index) && IsBatch(batch', changes, index)
    requires Refreshed(before, after, batch) && Refreshed(before, after', batch')
    ensures after.Keys == after'.Keys
    ensures forall i | i in after ::
              if i in changes then i in index && SameShape(after[i], after'[i], index[i]) else after[i] == after'[i]
  {
    forall i
      ensures i in after <==> i in after'
      ensures i in after ==>
                if i in changes then i in index && SameShape(after[i], after'[i], index[i]) else after[i] == after'[i]
    {
      LastOfBatch(batch, changes, index, i);
      LastOfBatch(batch', changes, index, i);
      assert EntryRefreshed(before, after, i, LastChange(batch, i));
      assert EntryRefreshed(before, after', i, LastChange(batch', i));
      if i in after && i in changes { FittingHaveSameShape(after[i], after'[i], index[i]); }
    }
  }

  /** However far a batch has been applied, an intent bound before that is served before
      and after is bound. */
  lemma NeverUnboundInBetween(before: Bindings, midway: Bindings, batch: seq<Change>, n: nat, changes: Changes,
                              index: IntentIndex, index': IntentIndex, i: IntentConfiguration)
    requires NetChange(index, index', changes) && IsBatch(batch, changes, index')
    requires n <= |batch| && Refreshed(before, midway, batch[..n])
    requires i in before && i in index && i in index' && index'[i] != {}
    ensures i in midway
  {
    assert EntryRefreshed(before, midway, i, LastChange(batch[..n], i));
    if LastChange(batch[..n], i).Some? {
      var c := LastChange(batch[..n], i).value;
      var k :| 0 <= k < n && batch[k] == c;
      assert c == Describe(i, changes, index');
    }
  }

  class IntentBroker {
    var bindingsByIntent: Bindings
    const streamingUrl: string

    constructor (streamingUrl: string)
      ensures bindingsByIntent == SystemBindings(streamingUrl) && this.streamingUrl == streamingUrl
      ensures Mirrors(bindingsByIntent, map[], streamingUrl)
    {
      this.streamingUrl := streamingUrl;
      bindingsByIntent := SystemBindings(streamingUrl);
    }

    /** Replaces the bindings of every intent a batch names. */
    method OnChange(changes: seq<Change>)
      modifies this`bindingsByIntent
      ensures Refreshed(old(bindingsByIntent), bindingsByIntent, changes)
    {
      ghost var before := bindingsByIntent;
      for k := 0 to |changes|
        invariant Refreshed(before, bindingsByIntent, changes[..k])
      {
        var change := changes[k];
        var binding := Choose(ServicesOf(change));
        ghost var previous := bindingsByIntent;
        if binding.Some? {
          bindingsByIntent := bindingsByIntent[change.intent := binding.value];
        } else {
          bindingsByIntent := bindingsByIntent - {change.intent};
        }
        ghost var applied := changes[..k + 1];
        assert applied[..k] == changes[..k];
        forall i ensures EntryRefreshed(before, bindingsByIntent, i, LastChange(applied, i)) {
          assert EntryRefreshed(before, previous, i, LastChange(changes[..k], i));
        }
      }
      assert changes[..|changes|] == changes;
    }

    /** Stops at the first cloud and the first local service it meets; the order in which
        a set is walked is arbitrary. */
    static method Choose(services: set<ServiceConfiguration>) returns (binding: Option<Binding>)
      ensures binding.None? <==> services == {}
      ensures binding.Some? ==> Fits(binding.value, services)
    {
      var local, cloud: Option<ServiceConfiguration> := None, None;
      var remaining := services;
      while remaining != {}
        invariant remaining <= services
        invariant local.Some? ==> local.value in services && local.value.locality == Local
        invariant cloud.Some? ==> cloud.value in services && cloud.value.locality == Cloud
        invariant forall s | s in services - remaining :: if s.locality == Local then local.Some? else cloud.Some?
        decreases remaining
      {
        if local.Some? && cloud.Some? {
          break;
        }
        var candidate :| candidate in remaining;
        if candidate.locality == Local && local.None? {
          local := Some(candidate);
        } else if candidate.locality == Cloud && cloud.None? {
          cloud := Some(candidate);
        }
        remaining := remaining - {candidate};
      }
      assert (local.Some? && cloud.Some?) || forall s | s in services :: s in services - remaining;
      match (local, cloud) {
        case (Some(l), Some(c)) => binding := Some(Fallback(Remote(c.url), Remote(l.url)));
        case (Some(l), None) => binding := Some(Remote(l.url));
        case (None, Some(c)) => binding := Some(Remote(c.url));
        case (None, None) => binding := None;
      }
    }
  }
}
