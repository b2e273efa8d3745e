/** The registry as a reader would describe it: one map from service id to its last
    registration.  The registry object keeps two redundant indexes instead; `Represents`
    says when they agree with this map. */
module Directory {
  import opened Types

  type KnownServices = map<ServiceConfiguration, Instant>
  type IntentIndex = map<IntentConfiguration, set<ServiceConfiguration>>

  datatype Registration = Registration(service: ServiceConfiguration, intents: set<IntentConfiguration>, lastSeen: Instant)

  type Registrations = map<ServiceId, Registration>

  /** Whether the directory lists this very configuration under the intent. */
  predicate Lists(d: Registrations, i: IntentConfiguration, s: ServiceConfiguration) {
    s.id in d && d[s.id].service == s && i in d[s.id].intents
  }

  predicate Knows(d: Registrations, s: ServiceConfiguration) {
    s.id in d && d[s.id].service == s
  }

  ghost predicate Coherent(d: Registrations) {
    forall id | id in d :: d[id].service.id == id
  }

  ghost predicate KnownAgrees(known: KnownServices, d: Registrations) {
    && (forall s :: s in known <==> Knows(d, s))
    && (forall s | s in known :: known[s] == d[s.id].lastSeen)
  }

  ghost predicate IndexAgrees(index: IntentIndex, d: Registrations) {
    && (forall i | i in index :: index[i] != {})
    && (forall i, s :: i in index && s in index[i] <==> Lists(d, i, s))
  }

  /** The two indexes say exactly what the directory says; no intent has an empty set. */
  ghost predicate Represents(known: KnownServices, index: IntentIndex, d: Registrations) {
    Coherent(d) && KnownAgrees(known, d) && IndexAgrees(index, d)
  }

  /** The directory determines both indexes, and they determine it. */
  lemma RepresentationIsUnique(known: KnownServices, index: IntentIndex, d: Registrations,
                               known': KnownServices, index': IntentIndex, d': Registrations)
    requires Represents(known, index, d) && Represents(known', index', d')
    ensures d == d' <==> known == known' && index == index'
  {
    if d == d' {
      forall i | i in index || i in index' ensures i in index && i in index' && index[i] == index'[i] {
        if i in index { var s :| s in index[i]; assert Lists(d, i, s); }
        if i in index' { var s :| s in index'[i]; assert Lists(d, i, s); }
        assert forall s :: s in index[i] <==> Lists(d, i, s);
      }
    }
    if known == known' && index == index' {
      forall id | id in d ensures id in d' && d[id] == d'[id] {
        SameRegistration(known, index, d, d', id);
      }
      forall id | id in d' ensures id in d {
        SameRegistration(known, index, d', d, id);
      }
    }
  }

  lemma SameRegistration(known: KnownServices, index: IntentIndex, d: Registrations, d': Registrations, id: ServiceId)
    requires Represents(known, index, d) && Represents(known, index, d') && id in d
    ensures id in d' && d[id] == d'[id]
  {
    var s := d[id].service;
    assert Knows(d, s);
    assert s in known && Knows(d', s);
    forall i ensures i in d[id].intents <==> i in d'[id].intents {
      assert Lists(d, i, s) <==> Lists(d', i, s);
    }
    assert d[id].intents == d'[id].intents;
  }

  /** An intent is in the index exactly when some registration names it. */
  lemma IndexedIffNamed(known: KnownServices, index: IntentIndex, d: Registrations, i: IntentConfiguration)
    requires Represents(known, index, d)
    ensures i in index <==> exists id :: id in d && i in d[id].intents
  {
    if i in index {
      var s :| s in index[i];
      assert Lists(d, i, s);
    }
    if id :| id in d && i in d[id].intents {
      assert Lists(d, i, d[id].service);
    }
  }

  // ----- the three operations -----

  function ToSet(intents: seq<IntentConfiguration>): set<IntentConfiguration> {
    set i | i in intents
  }

  function Touch(d: Registrations, s: ServiceConfiguration, t: Instant): Registrations {
    if Knows(d, s) then d[s.id := d[s.id].(lastSeen := t)] else d
  }

  function Upsert(d: Registrations, s: ServiceConfiguration, intents: set<IntentConfiguration>, t: Instant): Registrations {
    d[s.id := Registration(s, intents, t)]
  }

  /** Keeps the entries the predicate does not doom. */
  function Retain(d: Registrations, doomed: (ServiceConfiguration, Instant) -> bool): Registrations {
    map id | id in d && !doomed(d[id].service, d[id].lastSeen) :: d[id]
  }

  predicate Expired(r: Registration, now: Instant, ttl: nat) {
    Since(now, r.lastSeen) > ttl
  }

  function Prune(d: Registrations, now: Instant, ttl: nat): Registrations {
    map id | id in d && !Expired(d[id], now, ttl) :: d[id]
  }

  // ----- the deadline -----

  datatype Specificity = Default | Specific

  ghost predicate IsDeadline(d: Registrations, now: Instant, ttl: nat, specificity: Specificity, deadline: Instant) {
    if d == map[] then specificity == Default && deadline == now + ttl
    else
      && specificity == Specific
      && (exists id :: id in d && deadline == d[id].lastSeen + ttl)
      && (forall id | id in d :: deadline <= d[id].lastSeen + ttl)
  }

  /** The deadline `prune` returns is tight: it is not in the past, pruning again up to and
      including it removes nothing, and if it is specific then any later prune removes
      something. */
  lemma DeadlineIsTight(d: Registrations, now: Instant, ttl: nat, specificity: Specificity, deadline: Instant)
    requires IsDeadline(Prune(d, now, ttl), now, ttl, specificity, deadline)
    ensures now <= deadline
    ensures forall t: Instant | t <= deadline :: Prune(Prune(d, now, ttl), t, ttl) == Prune(d, now, ttl)
    ensures specificity == Specific ==>
              forall t: Instant | t > deadline :: Prune(Prune(d, now, ttl), t, ttl) != Prune(d, now, ttl)
  {}

  // ----- net changes of the index -----

  datatype ChangeKind = Add | Remove | Modify

  type Changes = map<IntentConfiguration, ChangeKind>

  /** What a folded series of changes must say about an index before and after: `Add` exactly
      for intents that are new, `Remove` exactly for those that are gone, `Modify` only for
      those present on both sides, and nothing that differs goes unreported. */
  ghost predicate NetChange(before: IntentIndex, after: IntentIndex, changes: Changes) {
    && (forall i :: i in changes && changes[i] == Add <==> i !in before && i in after)
    && (forall i :: i in changes && changes[i] == Remove <==> i in before && i !in after)
    && (forall i | i in changes && changes[i] == Modify :: i in before && i in after)
    && (forall i | i in before && i in after && before[i] != after[i] :: i in changes)
  }

  /** The transition table for folding one more change into a series; `None` is the arm
      that panics. */
  function Fold(changes: Changes, i: IntentConfiguration, to: ChangeKind): Option<ChangeKind> {
    if i !in changes then Some(to)
    else match (changes[i], to)
      case (Remove, Add) => Some(Modify)
      case (Modify, Modify) => Some(Modify)
      case (Add, Modify) => Some(Add)
      case _ => None
  }

  /** The index with one more service listed under an intent. */
  function Insert(index: IntentIndex, i: IntentConfiguration, s: ServiceConfiguration): IntentIndex {
    index[i := (if i in index then index[i] else {}) + {s}]
  }

  /** Reporting `Modify` for an indexed intent and `Add` for another, and then listing the
      service, never reaches the panic arm and keeps the series a net change. */
  lemma InsertIsFolded(before: IntentIndex, index: IntentIndex, changes: Changes,
                       i: IntentConfiguration, s: ServiceConfiguration)
    requires NetChange(before, index, changes)
    ensures var kind := Fold(changes, i, if i in index then Modify else Add);
            && kind.Some?
            && NetChange(before, Insert(index, i, s), changes[i := kind.value])
  {}

  /** A re-registration reports every intent the old or the new registration names.  For such
      an intent the set of services is nevertheless unchanged exactly when the very same
      configuration was listed under it and is again. */
  lemma ReportedYetUnchangedIff(d: Registrations, s: ServiceConfiguration, intents: set<IntentConfiguration>, t: Instant,
                                i: IntentConfiguration)
    requires Coherent(d)
    requires i in intents || (s.id in d && i in d[s.id].intents)
    ensures (forall x :: Lists(d, i, x) <==> Lists(Upsert(d, s, intents, t), i, x)) <==> Lists(d, i, s) && i in intents
  {
    var d' := Upsert(d, s, intents, t);
    if forall x :: Lists(d, i, x) <==> Lists(d', i, x) {
      assert Lists(d', i, s) <==> i in intents;
      if i !in intents {
        assert Lists(d, i, d[s.id].service);
      }
    }
  }

  /** The intent kinds registered under a namespace. */
  function KindsUnder(index: IntentIndex, namespace: string): set<IntentKind> {
    set i | i in index && i.namespace == namespace :: i.intent
  }

  /** The kinds under a namespace changed exactly when some intent of it was added or removed. */
  lemma KindsChangedIff(before: IntentIndex, after: IntentIndex, changes: Changes, namespace: string)
    requires NetChange(before, after, changes)
    ensures KindsUnder(before, namespace) != KindsUnder(after, namespace)
            <==> exists i :: i in changes && changes[i] != Modify && i.namespace == namespace
  {
    if i :| i in changes && changes[i] != Modify && i.namespace == namespace {
      assert i == IntentConfiguration(namespace, i.intent);
      if changes[i] == Add {
        assert i.intent in KindsUnder(after, namespace) && i.intent !in KindsUnder(before, namespace);
      } else {
        assert i.intent in KindsUnder(before, namespace) && i.intent !in KindsUnder(after, namespace);
      }
    } else {
      forall i: IntentConfiguration | i.namespace == namespace ensures i in before <==> i in after {
        assert i !in changes || changes[i] == Modify;
      }
    }
  }
}
