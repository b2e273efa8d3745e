/** The registry object with its two indexes, its change series and the observers that
    mirror it. */
module Registry {
  import opened Types
  import opened Directory
  import opened Broker
  import opened Ess
  import opened EssInvariant
  import opened EventSubSystem

  // ----- namespace events -----

  function EventName(namespace: string): EventId {
    "namespaces/" + namespace
  }

  lemma EventNamesDiffer(a: string, b: string)
    requires EventName(a) == EventName(b)
    ensures a == b
  {
    assert EventName(a)[11..] == a && EventName(b)[11..] == b;
  }

  /** A sequence of publications without a payload. */
  ghost function PublishAll(s: State<()>, events: seq<EventId>): (r: State<()>)
    requires SendersReady(s)
    ensures SendersReady(r)
  {
    if events == [] then s else Ess.Publish(PublishAll(s, events[..|events| - 1]), events[|events| - 1], ())
  }

  ghost predicate SendersReady<V>(s: State<V>) {
    forall e | e in s.senders :: s.senders[e] < |s.channels|
  }

  ghost predicate NoDuplicates<T>(items: seq<T>) {
    forall j, k | 0 <= j < k < |items| :: items[j] != items[k]
  }

  /** Publications without duplicates: each event gains one entry or none. */
  lemma {:induction false} PublishedOnce(s: State<()>, events: seq<EventId>, e: EventId)
    requires SendersReady(s) && NoDuplicates(events)
    ensures History(PublishAll(s, events), e) == if e in events then History(s, e) + [()] else History(s, e)
  {
    if events != [] {
      var front, last := events[..|events| - 1], events[|events| - 1];
      PublishedOnce(s, front, e);
      PublishedTo(PublishAll(s, front), last, e);
      assert forall f :: f in events <==> f in front || f == last;
      assert last !in front;
    }
  }

  lemma PublishedTo(s: State<()>, f: EventId, e: EventId)
    requires SendersReady(s)
    ensures History(Ess.Publish(s, f, ()), e) == if e == f then History(s, e) + [()] else History(s, e)
  {}

  /** Publications keep everything the event sub-system keeps. */
  lemma {:induction false} PublishAllKeeps(s: State<()>, events: seq<EventId>)
    requires Inv(s)
    ensures SendersReady(s) && Inv(PublishAll(s, events))
  {
    if events != [] {
      PublishAllKeeps(s, events[..|events| - 1]);
      PublishKeeps(PublishAll(s, events[..|events| - 1]), events[|events| - 1], ());
    }
  }

  /** The published events are one per namespace whose registered kinds changed. */
  ghost predicate Announces(published: seq<EventId>, before: IntentIndex, after: IntentIndex) {
    && NoDuplicates(published)
    && (forall e | e in published :: exists ns :: e == EventName(ns))
    && (forall ns :: EventName(ns) in published <==> KindsUnder(before, ns) != KindsUnder(after, ns))
  }

  /** The namespaces of the added and removed intents of a batch. */
  function TouchedNamespaces(changes: seq<Change>): set<string> {
    set c | c in changes && !c.Modified? :: c.intent.namespace
  }

  lemma BatchAnnounces(batch: seq<Change>, changes: Changes, before: IntentIndex, after: IntentIndex, published: seq<EventId>)
    requires NetChange(before, after, changes) && IsBatch(batch, changes, after)
    requires NoDuplicates(published)
    requires forall e :: e in published <==> exists ns :: ns in TouchedNamespaces(batch) && e == EventName(ns)
    ensures Announces(published, before, after)
  {
    forall ns ensures EventName(ns) in published <==> KindsUnder(before, ns) != KindsUnder(after, ns) {
      KindsChangedIff(before, after, changes, ns);
      TouchedIff(batch, changes, after, ns);
      if EventName(ns) in published {
        var ns' :| ns' in TouchedNamespaces(batch) && EventName(ns) == EventName(ns');
        EventNamesDiffer(ns, ns');
      }
    }
  }

  lemma TouchedIff(batch: seq<Change>, changes: Changes, index: IntentIndex, ns: string)
    requires IsBatch(batch, changes, index)
    ensures ns in TouchedNamespaces(batch) <==> exists i :: i in changes && changes[i] != Modify && i.namespace == ns
  {}

  lemma SameNames(d: Registrations, service: ServiceConfiguration, t: Instant, i: IntentConfiguration)
    requires service.id in d
    ensures var d' := Upsert(d, service, d[service.id].intents, t);
            (exists id :: id in d && i in d[id].intents) <==> (exists id :: id in d' && i in d'[id].intents)
  {
    var d' := Upsert(d, service, d[service.id].intents, t);
    if id :| id in d && i in d[id].intents { assert id in d' && i in d'[id].intents; }
    if id :| id in d' && i in d'[id].intents { assert id in d && i in d[id].intents; }
  }

  /** Registering the same intents again, say at a new URL, publishes nothing. */
  lemma ReRegistrationIsSilent(known: KnownServices, index: IntentIndex, d: Registrations,
                               known': KnownServices, index': IntentIndex,
                               service: ServiceConfiguration, t: Instant, published: seq<EventId>)
    requires Represents(known, index, d) && service.id in d
    requires Represents(known', index', Upsert(d, service, d[service.id].intents, t))
    requires Announces(published, index, index')
    ensures published == []
  {
    var d' := Upsert(d, service, d[service.id].intents, t);
    forall i ensures i in index <==> i in index' {
      IndexedIffNamed(known, index, d, i);
      IndexedIffNamed(known', index', d', i);
      SameNames(d, service, t, i);
    }
    forall e ensures e !in published {
      if exists ns :: e == EventName(ns) {
        var ns :| e == EventName(ns);
        assert KindsUnder(index, ns) == KindsUnder(index', ns);
      }
    }
    if published != [] { HasMember(published); }
  }

  lemma HasMember<T>(items: seq<T>)
    requires items != []
    ensures exists x :: x in items
  {
    assert items[0] in items;
  }

  // ----- observers -----

  /** Both observers see the same batch: the broker first, then the event stream. */
  class Composite {
    const left: IntentBroker
    const right: EventSubSystem<()>

    constructor (left: IntentBroker, right: EventSubSystem<()>)
      ensures this.left == left && this.right == right
    {
      this.left, this.right := left, right;
    }

    method OnChange(changes: seq<Change>) returns (ghost published: seq<EventId>)
      requires SendersReady(right.View())
      modifies left`bindingsByIntent, right
      ensures Refreshed(old(left.bindingsByIntent), left.bindingsByIntent, changes)
      ensures SendersReady(right.View()) && right.View() == PublishAll(old(right.View()), published)
      ensures NoDuplicates(published)
      ensures forall e :: e in published <==> exists ns :: ns in TouchedNamespaces(changes) && e == EventName(ns)
    {
      left.OnChange(changes);
      published := PublishNamespaces(changes);
    }

    method PublishNamespaces(changes: seq<Change>) returns (ghost published: seq<EventId>)
      requires SendersReady(right.View())
      modifies right
      ensures SendersReady(right.View()) && right.View() == PublishAll(old(right.View()), published)
      ensures NoDuplicates(published)
      ensures forall e :: e in published <==> exists ns :: ns in TouchedNamespaces(changes) && e == EventName(ns)
    {
      var namespaces := TouchedNamespaces(changes);
      var remaining := namespaces;
      ghost var done: set<string> := {};
      ghost var s := right.View();
      published := [];
      while remaining != {}
        invariant remaining !! done && remaining + done == namespaces
        invariant SendersReady(right.View()) && right.View() == PublishAll(s, published)
        invariant NoDuplicates(published)
        invariant forall e :: e in published <==> exists ns :: ns in done && e == EventName(ns)
        decreases remaining
      {
        var ns :| ns in remaining;
        var _ := right.Publish(EventName(ns), ());
        if EventName(ns) in published {
          var ns' :| ns' in done && EventName(ns) == EventName(ns');
          EventNamesDiffer(ns, ns');
          assert false;
        }
        assert (published + [EventName(ns)])[..|published|] == published;
        published := published + [EventName(ns)];
        remaining, done := remaining - {ns}, done + {ns};
      }
    }
  }

  // ----- change series -----

  /** The net change per intent of a series of changes. */
  class ChangeSeries {
    var changes: Changes

    constructor ()
      ensures changes == map[]
    {
      changes := map[];
    }

    /** Panics, which callers must exclude, on a transition that has no net change. */
    method Change(i: IntentConfiguration, to: ChangeKind)
      requires Fold(changes, i, to).Some?
      modifies this
      ensures changes == old(changes)[i := Fold(old(changes), i, to).value]
    {
      var value := to;
      if i in changes {
        match (changes[i], to) {
          case (Remove, Add) => value := Modify;
          case (Modify, Modify) => value := Modify;
          case (Add, Modify) => value := Add;
          case _ => assert false;
        }
      }
      changes := changes[i := value];
    }
  }

  /** What one call told the observers. */
  datatype Report = Report(changes: Changes, batch: seq<Change>, published: seq<EventId>)

  /** What a call reported about an index before and after: the folded changes are its net
      change, the broker and the event stream saw it in one batch, and the stream published
      one event per namespace whose kinds changed. */
  ghost predicate Reported(before: IntentIndex, after: IntentIndex, bindings: Bindings, bindings': Bindings,
                           ess: State<()>, ess': State<()>, report: Report)
  {
    && NetChange(before, after, report.changes)
    && IsBatch(report.batch, report.changes, after)
    && Refreshed(bindings, bindings', report.batch)
    && Announces(report.published, before, after)
    && SendersReady(ess) && ess' == PublishAll(ess, report.published)
  }

  /** The history of the event "namespaces/" plus a namespace gains exactly one entry if the kinds
      registered under the namespace changed and none otherwise; no other history changes. */
  lemma NamespaceHistory(before: IntentIndex, after: IntentIndex, ess: State<()>, ess': State<()>, published: seq<EventId>)
    requires SendersReady(ess) && ess' == PublishAll(ess, published) && Announces(published, before, after)
    ensures forall ns :: History(ess', "namespaces/" + ns) ==
              if KindsUnder(before, ns) != KindsUnder(after, ns) then History(ess, "namespaces/" + ns) + [()]
              else History(ess, "namespaces/" + ns)
    ensures forall e :: (forall ns :: e != "namespaces/" + ns) ==> History(ess', e) == History(ess, e)
  {
    forall ns ensures History(ess', "namespaces/" + ns) ==
                if KindsUnder(before, ns) != KindsUnder(after, ns) then History(ess, "namespaces/" + ns) + [()]
                else History(ess, "namespaces/" + ns)
    {
      NamespaceEntry(before, after, ess, published, ns);
    }
    forall e | forall ns :: e != "namespaces/" + ns ensures History(ess', e) == History(ess, e) {
      OtherEntry(before, after, ess, published, e);
    }
  }

  lemma NamespaceEntry(before: IntentIndex, after: IntentIndex, ess: State<()>, published: seq<EventId>, ns: string)
    requires SendersReady(ess) && Announces(published, before, after)
    ensures History(PublishAll(ess, published), "namespaces/" + ns) ==
            if KindsUnder(before, ns) != KindsUnder(after, ns) then History(ess, "namespaces/" + ns) + [()]
            else History(ess, "namespaces/" + ns)
  {
    PublishedOnce(ess, published, "namespaces/" + ns);
    assert EventName(ns) == "namespaces/" + ns;
  }

  lemma OtherEntry(before: IntentIndex, after: IntentIndex, ess: State<()>, published: seq<EventId>, e: EventId)
    requires SendersReady(ess) && Announces(published, before, after)
    requires forall ns :: e != "namespaces/" + ns
    ensures History(PublishAll(ess, published), e) == History(ess, e)
  {
    PublishedOnce(ess, published, e);
    assert forall ns :: e != EventName(ns);
  }

  lemma {:induction false} PublishAllLeavesSubs(s: State<()>, events: seq<EventId>)
    requires SendersReady(s)
    ensures PublishAll(s, events).subs == s.subs
  {
    if events != [] { PublishAllLeavesSubs(s, events[..|events| - 1]); }
  }

  /** What a registry call reports reaches whoever watches a namespace: the channel of a live
      subscription to "namespaces/" plus the namespace gains one event to take if the kinds
      registered under it changed, and none otherwise. */
  lemma WatchersAreTold(before: IntentIndex, after: IntentIndex, bindings: Bindings, bindings': Bindings,
                        ess: State<()>, ess': State<()>, report: Report, i: nat, ns: string)
    requires Reported(before, after, bindings, bindings', ess, ess', report) && Inv(ess)
    requires i < |ess.subs| && ess.subs[i].phase != Ended && ess.subs[i].event == "namespaces/" + ns
    ensures Inv(ess') && ess'.subs == ess.subs
    ensures |ess'.channels[ess.subs[i].channel]| - |ess.channels[ess.subs[i].channel]| ==
            if KindsUnder(before, ns) != KindsUnder(after, ns) then 1 else 0
  {
    PublishAllKeeps(ess, report.published);
    PublishAllLeavesSubs(ess, report.published);
    NamespaceHistory(before, after, ess, ess', report.published);
    LogGrowsWithHistory(ess, ess', ess.subs[i]);
  }

  lemma LogGrowsWithHistory(s: State<()>, t: State<()>, sub: Subscription<()>)
    requires SubShape(s, sub) && SubTracks(s, sub) && SubShape(t, sub) && SubTracks(t, sub) && sub.phase != Ended
    ensures |t.channels[sub.channel]| - |s.channels[sub.channel]| == |History(t, sub.event)| - |History(s, sub.event)|
  {
    assert |History(s, sub.event)[sub.base..]| == |s.channels[sub.channel][sub.start..]|;
    assert |History(t, sub.event)[sub.base..]| == |t.channels[sub.channel][sub.start..]|;
  }

  lemma BatchStep(batch: seq<Change>, changes: Changes, index: IntentIndex, remaining: set<IntentConfiguration>,
                  i: IntentConfiguration)
    requires IsBatch(batch, changes - remaining, index)
    requires i in changes && i in remaining && (changes[i] != Remove ==> i in index)
    ensures IsBatch(batch + [Describe(i, changes, index)], changes - (remaining - {i}), index)
  {
    var rest := changes - (remaining - {i});
    var longer := batch + [Describe(i, changes, index)];
    forall j ensures j in rest <==> exists k :: 0 <= k < |longer| && longer[k].intent == j {
      if j == i { assert longer[|batch|].intent == j; }
      if j in rest && j != i {
        assert j in changes - remaining;
        var k :| 0 <= k < |batch| && batch[k].intent == j;
        assert longer[k].intent == j;
      }
    }
    forall k | 0 <= k < |longer|
      ensures longer[k].intent in rest && longer[k] == Describe(longer[k].intent, rest, index)
    {
      if k < |batch| { assert batch[k].intent in changes - remaining; }
    }
    forall j, k | 0 <= j < k < |longer| ensures longer[j].intent != longer[k].intent {
      assert j < |batch| && batch[j].intent in changes - remaining;
    }
  }

  // ----- lemmas about the two indexes -----

  lemma SameSizeSubset<T>(a: set<T>, b: set<T>)
    requires a <= b && |a| == |b|
    ensures a == b
  {
    if a != b {
      assert exists x :: x in b && x !in a;
      var x :| x in b && x !in a;
      assert a <= b - {x};
      SubsetIsSmaller(a, b - {x});
    }
  }

  lemma {:induction false} SubsetIsSmaller<T>(a: set<T>, b: set<T>)
    requires a <= b
    ensures |a| <= |b|
    decreases a
  {
    if a != {} {
      var x :| x in a;
      SubsetIsSmaller(a - {x}, b - {x});
    }
  }

  function RetainServices(known: KnownServices, doomed: (ServiceConfiguration, Instant) -> bool): KnownServices {
    map s | s in known && !doomed(s, known[s]) :: known[s]
  }

  /** Dropping doomed services from the known ones is dropping their registrations. */
  lemma RetainKnown(known: KnownServices, index: IntentIndex, d: Registrations,
                    doomed: (ServiceConfiguration, Instant) -> bool, known': KnownServices)
    requires Represents(known, index, d)
    requires known' == RetainServices(known, doomed)
    ensures Coherent(Retain(d, doomed)) && KnownAgrees(known', Retain(d, doomed))
    ensures known' == known ==> Retain(d, doomed) == d
  {
    if known' == known {
      forall id | id in d ensures id in Retain(d, doomed) {
        assert Knows(d, d[id].service) && d[id].service in known';
      }
    }
  }

  /** The index after dropping every service that is no longer known, and the changes that
      reports: emptied intents go, shrunken ones are modified. */
  ghost predicate IsRetained(index: IntentIndex, known': KnownServices, index': IntentIndex, changes: Changes) {
    && (forall i :: i in index' <==> i in index && index[i] * known'.Keys != {})
    && (forall i | i in index' :: index'[i] == index[i] * known'.Keys)
    && (forall i :: i in changes <==> i in index && index[i] * known'.Keys != index[i])
    && (forall i | i in changes :: changes[i] == if i in index' then Modify else Remove)
  }

  /** Intersecting every entry with the services still known, and dropping empty entries,
      is the index of the remaining registrations. */
  lemma RetainIndex(known: KnownServices, index: IntentIndex, d: Registrations, known': KnownServices,
                    index': IntentIndex, d': Registrations, changes: Changes)
    requires Represents(known, index, d) && Coherent(d') && KnownAgrees(known', d')
    requires forall id | id in d' :: id in d && d[id] == d'[id]
    requires IsRetained(index, known', index', changes)
    ensures IndexAgrees(index', d')
  {
    forall i, s ensures i in index' && s in index'[i] <==> Lists(d', i, s) {
      if Lists(d', i, s) {
        assert Lists(d, i, s) && Knows(d', s);
        assert s in index[i] * known'.Keys;
      }
      if i in index' && s in index'[i] {
        assert s in index[i] && s in known';
        assert Lists(d, i, s) && Knows(d', s);
      }
    }
  }

  /** The state of the walk over the index: what is no longer `remaining` has been dealt with. */
  ghost predicate Retaining(index: IntentIndex, known': KnownServices, index': IntentIndex, changes: Changes,
                            remaining: set<IntentConfiguration>) {
    && (forall i :: i in index' <==> i in index && (i in remaining || index[i] * known'.Keys != {}))
    && (forall i | i in index' :: index'[i] == if i in remaining then index[i] else index[i] * known'.Keys)
    && (forall i :: i in changes <==> i in index && i !in remaining && index[i] * known'.Keys != index[i])
    && (forall i | i in changes :: changes[i] == if i in index' then Modify else Remove)
  }

  lemma RetainingStep(index: IntentIndex, known': KnownServices, index': IntentIndex, changes: Changes,
                      remaining: set<IntentConfiguration>, i: IntentConfiguration)
    requires Retaining(index, known', index', changes, remaining)
    requires i in remaining && i in index && index[i] != {}
    ensures i in index' && index'[i] == index[i] && i !in changes
    ensures var kept := index[i] * known'.Keys;
            Retaining(index, known', if kept != {} then index'[i := kept] else index' - {i},
                      if kept == index[i] then changes else changes[i := if kept == {} then Remove else Modify],
                      remaining - {i})
  {}

  /** What dropping unknown services reports is the net change of the index. */
  lemma RetainNetChange(index: IntentIndex, known': KnownServices, index': IntentIndex, changes: Changes)
    requires IsRetained(index, known', index', changes)
    requires forall i | i in index :: index[i] != {}
    ensures NetChange(index, index', changes)
  {}

  /** The intent listed a service that is no longer registered. */
  ghost predicate ListedRemoved(d: Registrations, d': Registrations, i: IntentConfiguration) {
    exists s :: Lists(d, i, s) && s.id !in d'
  }

  /** The reported intents are those that listed a removed registration. */
  lemma RetainReports(index: IntentIndex, d: Registrations, known': KnownServices, index': IntentIndex,
                      d': Registrations, changes: Changes)
    requires IndexAgrees(index, d) && KnownAgrees(known', d')
    requires forall id | id in d' :: id in d && d[id] == d'[id]
    requires IsRetained(index, known', index', changes)
    ensures forall i :: i in changes <==> ListedRemoved(d, d', i)
  {}

  /** Everything a prune by a predicate does to the registry. */
  lemma PruneByRepresents(known: KnownServices, index: IntentIndex, d: Registrations,
                          doomed: (ServiceConfiguration, Instant) -> bool,
                          known': KnownServices, index': IntentIndex, changes: Changes)
    requires Represents(known, index, d) && NoSystemIntents(index)
    requires known' == RetainServices(known, doomed)
    requires IsRetained(index, known', index', changes)
    ensures Represents(known', index', Retain(d, doomed)) && NoSystemIntents(index')
    ensures NetChange(index, index', changes)
    ensures forall i :: i in changes <==> ListedRemoved(d, Retain(d, doomed), i)
  {
    var d' := Retain(d, doomed);
    RetainKnown(known, index, d, doomed, known');
    RetainIndex(known, index, d, known', index', d', changes);
    RetainNetChange(index, known', index', changes);
    RetainReports(index, d, known', index', d', changes);
  }

  /** If nothing is forgotten the index need not be walked at all. */
  lemma NothingForgotten(known: KnownServices, index: IntentIndex, d: Registrations)
    requires Represents(known, index, d)
    ensures IsRetained(index, known, index, map[])
  {}

  lemma TouchRepresents(known: KnownServices, index: IntentIndex, d: Registrations, s: ServiceConfiguration, t: Instant)
    requires Represents(known, index, d) && s in known
    ensures Represents(known[s := t], index, Directory.Touch(d, s, t))
  {
    var d' := Directory.Touch(d, s, t);
    assert Knows(d, s);
    forall x ensures Knows(d', x) <==> Knows(d, x) {}
    forall i, x ensures Lists(d', i, x) <==> Lists(d, i, x) {}
    forall x | x in known[s := t] ensures known[s := t][x] == d'[x.id].lastSeen {
      assert Knows(d, x);
    }
  }

  /** The index with a service listed under every one of some intents. */
  ghost predicate IsListed(index: IntentIndex, index': IntentIndex, service: ServiceConfiguration,
                           intents: seq<IntentConfiguration>)
  {
    && (forall i :: i in index' <==> i in index || i in intents)
    && (forall i | i in index' ::
          index'[i] == (if i in index then index[i] else {}) + (if i in intents then {service} else {}))
  }

  lemma ListStep(index: IntentIndex, index': IntentIndex, service: ServiceConfiguration,
                 intents: seq<IntentConfiguration>, i: IntentConfiguration)
    requires IsListed(index, index', service, intents)
    ensures IsListed(index, Insert(index', i, service), service, intents + [i])
  {}

  /** The intents that listed a removed id are those its registration named. */
  lemma RemovedIffNamed(d: Registrations, id: ServiceId)
    requires Coherent(d)
    ensures forall i :: ListedRemoved(d, d - {id}, i) <==> id in d && i in d[id].intents
  {}

  lemma RetainIsPrune(d: Registrations, doomed: (ServiceConfiguration, Instant) -> bool, now: Instant, ttl: nat)
    requires forall s, ts :: doomed(s, ts) <==> Since(now, ts) > ttl
    ensures Retain(d, doomed) == Directory.Prune(d, now, ttl)
  {}

  lemma RetainIsRemoval(d: Registrations, doomed: (ServiceConfiguration, Instant) -> bool, id: ServiceId)
    requires Coherent(d) && forall s, ts :: doomed(s, ts) <==> s.id == id
    ensures Retain(d, doomed) == d - {id}
  {}

  /** There are known services exactly when there are registrations, with the same times. */
  lemma KnownIffRegistered(known: KnownServices, d: Registrations)
    requires Coherent(d) && KnownAgrees(known, d)
    ensures known == map[] <==> d == map[]
    ensures forall id | id in d :: d[id].service in known && known[d[id].service] == d[id].lastSeen
    ensures forall s | s in known :: s.id in d && known[s] == d[s.id].lastSeen
  {}

  /** Listing a service whose id is not registered under some intents, and then knowing it,
      is its registration. */
  lemma InsertKnown(known: KnownServices, d: Registrations, service: ServiceConfiguration,
                    intents: set<IntentConfiguration>, t: Instant)
    requires Coherent(d) && KnownAgrees(known, d) && service.id !in d
    ensures Coherent(Upsert(d, service, intents, t))
    ensures KnownAgrees(known[service := t], Upsert(d, service, intents, t))
  {}

  lemma InsertIndex(index: IntentIndex, d: Registrations, index': IntentIndex, service: ServiceConfiguration,
                    intents: seq<IntentConfiguration>, t: Instant)
    requires IndexAgrees(index, d) && service.id !in d && IsListed(index, index', service, intents)
    ensures IndexAgrees(index', Upsert(d, service, ToSet(intents), t))
  {
    var d' := Upsert(d, service, ToSet(intents), t);
    forall i, s ensures i in index' && s in index'[i] <==> Lists(d', i, s) {
      assert i in index && s in index[i] <==> Lists(d, i, s);
      assert Lists(d', i, s) <==> Lists(d, i, s) || (s == service && i in intents);
    }
  }

  /** Everything a replacement does to the registry after the old entry was pruned. */
  lemma ReplaceRepresents(known: KnownServices, index: IntentIndex, d: Registrations, index': IntentIndex,
                          service: ServiceConfiguration, intents: seq<IntentConfiguration>, t: Instant)
    requires Represents(known, index, d - {service.id}) && NoSystemIntents(index)
    requires forall i | i in intents :: !IsSystemNamespace(i.namespace)
    requires IsListed(index, index', service, intents)
    ensures Represents(known[service := t], index', Upsert(d, service, ToSet(intents), t))
    ensures NoSystemIntents(index')
  {
    InsertKnown(known, d - {service.id}, service, ToSet(intents), t);
    InsertIndex(index, d - {service.id}, index', service, intents, t);
    assert Upsert(d - {service.id}, service, ToSet(intents), t) == Upsert(d, service, ToSet(intents), t);
  }

  lemma RefusedIff(intents: seq<IntentConfiguration>)
    ensures (exists i | i in intents :: IsSystemNamespace(i.namespace)) <==>
            (exists i | i in intents :: SpellsSystem(FirstSegment(i.namespace)))
  {
    forall i | i in intents ensures IsSystemNamespace(i.namespace) <==> SpellsSystem(FirstSegment(i.namespace)) {
      ReservedIff(i.namespace);
    }
  }

  class Registry {
    var externalServicesByIntent: IntentIndex
    var knownServices: KnownServices
    const observer: Composite
    const entryTtl: nat
    ghost var directory: Registrations  // the simple map the indexes stand for

    /** The indexes stand for the directory, and no system intent is in it. */
    ghost predicate Consistent()
      reads this
    {
      Represents(knownServices, externalServicesByIntent, directory) && NoSystemIntents(externalServicesByIntent)
    }

    /** And the broker mirrors the index, beside an event sub-system in good order. */
    ghost predicate Valid()
      reads this, observer.left, observer.right
    {
      && Consistent()
      && Mirrors(observer.left.bindingsByIntent, externalServicesByIntent, observer.left.streamingUrl)
      && observer.right.Healthy()
    }

    constructor (observer: Composite, entryTtl: nat)
      requires observer.left.bindingsByIntent == SystemBindings(observer.left.streamingUrl)
      requires observer.right.Healthy()
      ensures Valid() && directory == map[] && this.observer == observer && this.entryTtl == entryTtl
    {
      externalServicesByIntent, knownServices, directory := map[], map[], map[];
      this.observer, this.entryTtl := observer, entryTtl;
    }

    method Touch(key: ServiceConfiguration, timestamp: Instant) returns (known: bool)
      requires Consistent()
      modifies this`knownServices, this`directory
      ensures Consistent()
      ensures known == Knows(old(directory), key)
      ensures directory == Directory.Touch(old(directory), key, timestamp)
    {
      if key in knownServices {
        TouchRepresents(knownServices, externalServicesByIntent, directory, key, timestamp);
        knownServices := knownServices[key := timestamp];
        directory := Directory.Touch(directory, key, timestamp);
        return true;
      }
      return false;
    }

    method PruneBy(doomed: (ServiceConfiguration, Instant) -> bool) returns (series: ChangeSeries)
      requires Consistent()
      modifies this`knownServices, this`externalServicesByIntent, this`directory
      ensures fresh(series)
      ensures Consistent()
      ensures directory == Retain(old(directory), doomed)
      ensures NetChange(old(externalServicesByIntent), externalServicesByIntent, series.changes)
      ensures forall i :: i in series.changes <==> ListedRemoved(old(directory), directory, i)
    {
      series := new ChangeSeries();
      ghost var before, known := externalServicesByIntent, knownServices;
      var initialLength := |knownServices|;
      knownServices := RetainServices(knownServices, doomed);
      if |knownServices| == initialLength {
        SameSizeSubset(knownServices.Keys, known.Keys);
        NothingForgotten(known, before, directory);
      } else {
        RetainIntents(series);
      }
      PruneByRepresents(known, before, directory, doomed, knownServices, externalServicesByIntent, series.changes);
      directory := Retain(directory, doomed);
    }

    /** Drops the services that are no longer known from every intent. */
    method RetainIntents(series: ChangeSeries)
      requires series.changes == map[]
      requires forall i | i in externalServicesByIntent :: externalServicesByIntent[i] != {}
      modifies this`externalServicesByIntent, series
      ensures IsRetained(old(externalServicesByIntent), knownServices, externalServicesByIntent, series.changes)
    {
      ghost var before := externalServicesByIntent;
      var remaining := externalServicesByIntent.Keys;
      while remaining != {}
        invariant remaining <= before.Keys
        invariant Retaining(before, knownServices, externalServicesByIntent, series.changes, remaining)
        decreases remaining
      {
        var i :| i in remaining;
        RetainingStep(before, knownServices, externalServicesByIntent, series.changes, remaining, i);
        remaining := remaining - {i};
        var services := externalServicesByIntent[i];
        var kept := services * knownServices.Keys;
        if |kept| != |services| {
          series.Change(i, if |kept| == 0 then Remove else Modify);
        } else {
          SameSizeSubset(kept, services);
        }
        externalServicesByIntent := if kept != {} then externalServicesByIntent[i := kept] else externalServicesByIntent - {i};
      }
    }

    /** Tells the observers about a series, if it is not empty. */
    method Observe(series: ChangeSeries, ghost before: IntentIndex) returns (ghost report: Report)
      requires NetChange(before, externalServicesByIntent, series.changes)
      requires SendersReady(observer.right.View())
      modifies observer.left`bindingsByIntent, observer.right
      ensures SendersReady(observer.right.View()) && report.changes == series.changes
      ensures Reported(before, externalServicesByIntent,
                       old(observer.left.bindingsByIntent), observer.left.bindingsByIntent,
                       old(observer.right.View()), observer.right.View(), report)
    {
      var batch := Batch(series.changes);
      ghost var published: seq<EventId> := [];
      if |batch| > 0 {
        published := observer.OnChange(batch);
      } else {
        ghost var bindings := observer.left.bindingsByIntent;
        forall i ensures EntryRefreshed(bindings, bindings, i, LastChange(batch, i)) {}
      }
      BatchAnnounces(batch, series.changes, before, externalServicesByIntent, published);
      report := Report(series.changes, batch, published);
    }

    /** Observes a series; the broker goes from a mirror of the old index to one of the new. */
    method Notify(series: ChangeSeries, ghost before: IntentIndex) returns (ghost report: Report)
      requires Consistent() && observer.right.Healthy()
      requires NetChange(before, externalServicesByIntent, series.changes) && NoSystemIntents(before)
      requires Mirrors(observer.left.bindingsByIntent, before, observer.left.streamingUrl)
      modifies observer.left`bindingsByIntent, observer.right
      ensures Valid() && report.changes == series.changes
      ensures Reported(before, externalServicesByIntent,
                       old(observer.left.bindingsByIntent), observer.left.bindingsByIntent,
                       old(observer.right.View()), observer.right.View(), report)
    {
      ghost var bindings, ess := observer.left.bindingsByIntent, observer.right.View();
      report := Observe(series, before);
      PublishAllKeeps(ess, report.published);
      MirrorFollows(bindings, observer.left.bindingsByIntent, report.batch, report.changes,
                    before, externalServicesByIntent, observer.left.streamingUrl);
    }

    /** The changes in the arbitrary order in which a map is walked. */
    method Batch(changes: Changes) returns (batch: seq<Change>)
      requires forall i | i in changes && changes[i] != Remove :: i in externalServicesByIntent
      ensures IsBatch(batch, changes, externalServicesByIntent)
    {
      batch := [];
      var remaining := changes.Keys;
      assert changes - remaining == map[];
      while remaining != {}
        invariant remaining <= changes.Keys
        invariant IsBatch(batch, changes - remaining, externalServicesByIntent)
        decreases remaining
      {
        var i :| i in remaining;
        BatchStep(batch, changes, externalServicesByIntent, remaining, i);
        batch := batch + [Describe(i, changes, externalServicesByIntent)];
        remaining := remaining - {i};
      }
      assert changes - remaining == changes;
    }

    method Prune(timestamp: Instant) returns (specificity: Specificity, deadline: Instant, ghost report: Report)
      requires Valid()
      modifies this`knownServices, this`externalServicesByIntent, this`directory
      modifies observer.left`bindingsByIntent, observer.right
      ensures Valid()
      ensures directory == Directory.Prune(old(directory), timestamp, entryTtl)
      ensures IsDeadline(directory, timestamp, entryTtl, specificity, deadline)
      ensures Reported(old(externalServicesByIntent), externalServicesByIntent,
                       old(observer.left.bindingsByIntent), observer.left.bindingsByIntent,
                       old(observer.right.View()), observer.right.View(), report)
      ensures forall i :: i in report.changes <==> ListedRemoved(old(directory), directory, i)
    {
      ghost var before := externalServicesByIntent;
      var series := RemoveExpired(timestamp);
      report := Notify(series, before);
      specificity, deadline := Deadline(timestamp);
    }

    /** Removes whatever was not heard of for longer than the TTL. */
    method RemoveExpired(timestamp: Instant) returns (series: ChangeSeries)
      requires Consistent()
      modifies this`knownServices, this`externalServicesByIntent, this`directory
      ensures fresh(series) && Consistent()
      ensures directory == Directory.Prune(old(directory), timestamp, entryTtl)
      ensures NetChange(old(externalServicesByIntent), externalServicesByIntent, series.changes)
      ensures forall i :: i in series.changes <==> ListedRemoved(old(directory), directory, i)
    {
      ghost var d := directory;
      var ttl := entryTtl;
      var expired := (_: ServiceConfiguration, ts: Instant) => Since(timestamp, ts) > ttl;
      series := PruneBy(expired);
      RetainIsPrune(d, expired, timestamp, ttl);
    }

    /** The earliest instant at which a known service may expire. */
    method Deadline(timestamp: Instant) returns (specificity: Specificity, deadline: Instant)
      requires Consistent()
      ensures IsDeadline(directory, timestamp, entryTtl, specificity, deadline)
    {
      var earliest: Option<Instant> := None;
      var remaining := knownServices.Keys;
      while remaining != {}
        invariant remaining <= knownServices.Keys
        invariant earliest.None? ==> remaining == knownServices.Keys
        invariant earliest.Some? ==> exists s :: s in knownServices && earliest.value == knownServices[s] + entryTtl
        invariant earliest.Some? ==>
                    forall s | s in knownServices && s !in remaining :: earliest.value <= knownServices[s] + entryTtl
        decreases remaining
      {
        var s :| s in remaining;
        var t := knownServices[s] + entryTtl;
        if earliest.None? || t < earliest.value {
          earliest := Some(t);
        }
        remaining := remaining - {s};
      }
      KnownIffRegistered(knownServices, directory);
      match earliest {
        case None => specificity, deadline := Default, timestamp + entryTtl;
        case Some(t) => specificity, deadline := Specific, t;
      }
    }

    method Upsert(service: ServiceConfiguration, intents: seq<IntentConfiguration>, timestamp: Instant)
      returns (ok: bool, ghost report: Report)
      requires Valid()
      modifies this`knownServices, this`externalServicesByIntent, this`directory
      modifies observer.left`bindingsByIntent, observer.right
      ensures Valid()
      ensures ok <==> forall i | i in intents :: !SpellsSystem(FirstSegment(i.namespace))
      ensures !ok ==> directory == old(directory) && externalServicesByIntent == old(externalServicesByIntent)
                      && observer.left.bindingsByIntent == old(observer.left.bindingsByIntent)
                      && observer.right.View() == old(observer.right.View())
      ensures ok ==> directory == Directory.Upsert(old(directory), service, ToSet(intents), timestamp)
      ensures ok ==> Reported(old(externalServicesByIntent), externalServicesByIntent,
                              old(observer.left.bindingsByIntent), observer.left.bindingsByIntent,
                              old(observer.right.View()), observer.right.View(), report)
      ensures ok ==> forall i :: i in report.changes <==>
                       i in intents || (service.id in old(directory) && i in old(directory)[service.id].intents)
    {
      RefusedIff(intents);
      if exists i | i in intents :: IsSystemNamespace(i.namespace) {
        return false, Report(map[], [], []);
      }
      ghost var before := externalServicesByIntent;
      var series := Replace(service, intents, timestamp);
      report := Notify(series, before);
      ok := true;
    }

    /** Replaces whatever is registered under the service's id. */
    method Replace(service: ServiceConfiguration, intents: seq<IntentConfiguration>, timestamp: Instant)
      returns (series: ChangeSeries)
      requires Consistent()
      requires forall i | i in intents :: !IsSystemNamespace(i.namespace)
      modifies this`knownServices, this`externalServicesByIntent, this`directory
      ensures fresh(series) && Consistent()
      ensures directory == Directory.Upsert(old(directory), service, ToSet(intents), timestamp)
      ensures NetChange(old(externalServicesByIntent), externalServicesByIntent, series.changes)
      ensures forall i :: i in series.changes <==>
                i in intents || (service.id in old(directory) && i in old(directory)[service.id].intents)
    {
      ghost var before, d := externalServicesByIntent, directory;
      var sameId := (s: ServiceConfiguration, _: Instant) => s.id == service.id;
      series := PruneBy(sameId);
      RetainIsRemoval(d, sameId, service.id);
      RemovedIffNamed(d, service.id);
      ghost var pruned := externalServicesByIntent;
      List(service, intents, series, before);
      ReplaceRepresents(knownServices, pruned, d, externalServicesByIntent, service, intents, timestamp);
      knownServices := knownServices[service := timestamp];
      directory := Directory.Upsert(d, service, ToSet(intents), timestamp);
    }

    /** Lists a service under its intents, folding the changes into a series. */
    method List(service: ServiceConfiguration, intents: seq<IntentConfiguration>, series: ChangeSeries,
                ghost before: IntentIndex)
      requires NetChange(before, externalServicesByIntent, series.changes)
      requires forall i | i in externalServicesByIntent :: externalServicesByIntent[i] != {}
      modifies this`externalServicesByIntent, series
      ensures NetChange(before, externalServicesByIntent, series.changes)
      ensures forall i :: i in series.changes <==> i in old(series.changes) || i in intents
      ensures IsListed(old(externalServicesByIntent), externalServicesByIntent, service, intents)
    {
      ghost var index, changes := externalServicesByIntent, series.changes;
      for k := 0 to |intents|
        invariant NetChange(before, externalServicesByIntent, series.changes)
        invariant forall i :: i in series.changes <==> i in changes || i in intents[..k]
        invariant IsListed(index, externalServicesByIntent, service, intents[..k])
      {
        ListStep(index, externalServicesByIntent, service, intents[..k], intents[k]);
        ListUnder(intents[k], service, series, before);
        assert intents[..k + 1] == intents[..k] + [intents[k]];
      }
      assert intents[..|intents|] == intents;
    }

    /** One turn of that loop. */
    method ListUnder(i: IntentConfiguration, service: ServiceConfiguration, series: ChangeSeries, ghost before: IntentIndex)
      requires NetChange(before, externalServicesByIntent, series.changes)
      modifies this`externalServicesByIntent, series
      ensures NetChange(before, externalServicesByIntent, series.changes)
      ensures series.changes.Keys == old(series.changes).Keys + {i}
      ensures externalServicesByIntent == Insert(old(externalServicesByIntent), i, service)
    {
      InsertIsFolded(before, externalServicesByIntent, series.changes, i, service);
      series.Change(i, if i in externalServicesByIntent then Modify else Add);
      externalServicesByIntent := Insert(externalServicesByIntent, i, service);
    }
  }
}
