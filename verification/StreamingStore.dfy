/** The streaming key-value store: a map whose every write is also published to the event
    of its key.  A write holds the store lock while it publishes and then inserts. */
module StreamingStore {
  import opened Types
  import opened Ess
  import opened EssTheorems
  import opened EssInvariant
  import EventSubSystem

  /** What is published when a key is set. */
  datatype Entry<V> = Entry(key: EventId, value: V)

  /** `writing` is a write that has published but not yet inserted; the lock is then taken. */
  datatype StoreState<V> = StoreState(ess: State<Entry<V>>, store: map<EventId, V>, writing: Option<Entry<V>>)

  datatype StoreStep<V> =
    | Notify(w: Entry<V>)          // take the lock and publish
    | Insert                       // insert and release
    | EssStep(step: Step<Entry<V>>) // anything else in the event sub-system

  ghost predicate Next<V>(s: StoreState<V>, step: StoreStep<V>, t: StoreState<V>) {
    match step
    case Notify(w) =>
      && s.writing == None && Enabled(s.ess, DoPublish(w.key, w))
      && t == s.(ess := Apply(s.ess, DoPublish(w.key, w)), writing := Some(w))
    case Insert =>
      s.writing.Some? && t == s.(store := s.store[s.writing.value.key := s.writing.value.value], writing := None)
    case EssStep(step) =>
      !step.DoPublish? && Enabled(s.ess, step) && t == s.(ess := Apply(s.ess, step))
  }

  ghost predicate IsStoreRun<V>(states: seq<StoreState<V>>, steps: seq<StoreStep<V>>) {
    && |states| == |steps| + 1
    && states[0].store == map[] && states[0].writing == None
    && states[0].ess.publishCapacity > 0 && states[0].ess.clientCapacity > 0
    && states[0].ess == Initial(states[0].ess.publishCapacity, states[0].ess.clientCapacity)
    && forall k {:trigger steps[k]} | 0 <= k < |steps| :: Next(states[k], steps[k], states[k + 1])
  }

  /** The values written to a key, in order. */
  function Written<V>(steps: seq<StoreStep<V>>, key: EventId): seq<V> {
    if steps == [] then []
    else
      var last := steps[|steps| - 1];
      var before := Written(steps[..|steps| - 1], key);
      if last.Notify? && last.w.key == key then before + [last.w.value] else before
  }

  /** The published history of a key is its written values, tagged with the key. */
  ghost predicate Tagged<V>(history: seq<Entry<V>>, key: EventId, values: seq<V>) {
    |history| == |values| && forall j | 0 <= j < |values| :: history[j] == Entry(key, values[j])
  }

  lemma StepWrites<V>(s: StoreState<V>, step: StoreStep<V>, t: StoreState<V>, key: EventId)
    requires Next(s, step, t)
    ensures History(t.ess, key) ==
            if step.Notify? && step.w.key == key then History(s.ess, key) + [step.w] else History(s.ess, key)
  {
    match step
    case Notify(w) => StepHistory(s.ess, DoPublish(w.key, w), t.ess, key);
    case Insert =>
    case EssStep(step) => StepHistory(s.ess, step, t.ess, key);
  }

  lemma {:induction false} HistoryIsWritten<V>(states: seq<StoreState<V>>, steps: seq<StoreStep<V>>, k: nat, key: EventId)
    requires IsStoreRun(states, steps) && k <= |steps|
    ensures Tagged(History(states[k].ess, key), key, Written(steps[..k], key))
  {
    if k > 0 {
      HistoryIsWritten(states, steps, k - 1, key);
      assert steps[..k][..k - 1] == steps[..k - 1];
      StepWrites(states[k - 1], steps[k - 1], states[k], key);
    }
  }

  /** The value a reader of the store gets. */
  function Lookup<V>(s: StoreState<V>, key: EventId): Option<V> {
    if key in s.store then Some(s.store[key]) else None
  }

  function Last<V>(values: seq<V>): Option<V> {
    if values == [] then None else Some(values[|values| - 1])
  }

  /** A reader sees the last value published for a key, unless a write of that key is in
      flight, and then the one before. */
  ghost predicate InStep<V>(s: StoreState<V>, key: EventId) {
    var history := History(s.ess, key);
    if s.writing.Some? && s.writing.value.key == key then
      && history != [] && history[|history| - 1] == s.writing.value
      && Lookup(s, key) == LastValue(history[..|history| - 1])
    else
      Lookup(s, key) == LastValue(history)
  }

  function LastValue<V>(history: seq<Entry<V>>): Option<V> {
    if history == [] then None else Some(history[|history| - 1].value)
  }

  lemma StepInStep<V>(s: StoreState<V>, step: StoreStep<V>, t: StoreState<V>, key: EventId)
    requires Next(s, step, t) && InStep(s, key)
    ensures InStep(t, key)
  {
    StepWrites(s, step, t, key);
    if step.Notify? && step.w.key == key {
      assert (History(s.ess, key) + [step.w])[..|History(s.ess, key)|] == History(s.ess, key);
    }
  }

  lemma {:induction false} RunInStep<V>(states: seq<StoreState<V>>, steps: seq<StoreStep<V>>, k: nat, key: EventId)
    requires IsStoreRun(states, steps) && k <= |steps|
    ensures InStep(states[k], key)
  {
    if k > 0 {
      RunInStep(states, steps, k - 1, key);
      StepInStep(states[k - 1], steps[k - 1], states[k], key);
    }
  }

  /** Whenever the store lock is free, reading a key gives the last value written to it, and
      that is the last value published for it. */
  lemma GetIsLastPublished<V>(states: seq<StoreState<V>>, steps: seq<StoreStep<V>>, k: nat, key: EventId)
    requires IsStoreRun(states, steps) && k <= |steps| && states[k].writing == None
    ensures Lookup(states[k], key) == Last(Written(steps[..k], key))
    ensures Lookup(states[k], key) == LastValue(History(states[k].ess, key))
  {
    RunInStep(states, steps, k, key);
    HistoryIsWritten(states, steps, k, key);
  }

  // ----- what a subscriber of a key gets -----

  lemma {:induction false} WrittenSplit<V>(steps: seq<StoreStep<V>>, m: nat, k: nat, key: EventId)
    requires m <= k <= |steps|
    ensures Written(steps[..k], key) == Written(steps[..m], key) + Written(steps[m..k], key)
    decreases k
  {
    if m == k {
      assert steps[m..k] == [];
    } else {
      WrittenSplit(steps, m, k - 1, key);
      assert steps[..k][..k - 1] == steps[..k - 1];
      assert steps[m..k][..k - m - 1] == steps[m..k - 1];
    }
  }

  lemma {:induction false} StoreRunKeeps<V>(states: seq<StoreState<V>>, steps: seq<StoreStep<V>>, k: nat)
    requires IsStoreRun(states, steps) && k <= |steps|
    ensures Inv(states[k].ess)
  {
    if k == 0 {
      InvInitial<Entry<V>>(states[0].ess.publishCapacity, states[0].ess.clientCapacity);
    } else {
      StoreRunKeeps(states, steps, k - 1);
      assert Next(states[k - 1], steps[k - 1], states[k]);
      match steps[k - 1]
      case Notify(w) => StepKeeps(states[k - 1].ess, DoPublish(w.key, w));
      case Insert =>
      case EssStep(step) => StepKeeps(states[k - 1].ess, step);
    }
  }

  lemma StoreStepIdentity<V>(s: StoreState<V>, step: StoreStep<V>, t: StoreState<V>, i: nat)
    requires Next(s, step, t) && i < |s.ess.subs|
    ensures i < |t.ess.subs| && IdentityOf(t.ess.subs[i]) == IdentityOf(s.ess.subs[i])
  {
    match step
    case Notify(w) => StepContinues(s.ess, DoPublish(w.key, w), t.ess, i);
    case Insert =>
    case EssStep(step) => StepContinues(s.ess, step, t.ess, i);
  }

  lemma {:induction false} StoreSubscriptionPersists<V>(states: seq<StoreState<V>>, steps: seq<StoreStep<V>>,
                                                        m: nat, k: nat, i: nat)
    requires IsStoreRun(states, steps) && m <= k <= |steps| && i < |states[m].ess.subs|
    ensures i < |states[k].ess.subs| && IdentityOf(states[k].ess.subs[i]) == IdentityOf(states[m].ess.subs[i])
  {
    if m < k {
      StoreSubscriptionPersists(states, steps, m, k - 1, i);
      StoreStepIdentity(states[k - 1], steps[k - 1], states[k], i);
    }
  }

  /** The `number` given with an event counts the values set since the subscription, and the
      event carries that value. */
  ghost predicate CarriesKth<V>(later: seq<V>, key: EventId, h: Handed<Entry<V>>) {
    && 1 <= h.ordinal <= |later|
    && h.event == Entry(key, later[h.ordinal - 1])
    && h.number == h.ordinal % U64
  }

  lemma LedgerCarries<V>(history: seq<Entry<V>>, key: EventId, before: seq<V>, later: seq<V>, h: Handed<Entry<V>>)
    requires Tagged(history, key, before + later) && Genuine(history, |before|, h)
    ensures CarriesKth(later, key, h)
  {}

  lemma SubscribedWith<V>(states: seq<StoreState<V>>, steps: seq<StoreStep<V>>, m: nat, i: nat)
    requires IsStoreRun(states, steps) && m < |steps| && |states[m].ess.subs| <= i < |states[m + 1].ess.subs|
    ensures var sub := states[m + 1].ess.subs[i]; sub.base == |Written(steps[..m + 1], sub.event)|
  {
    assert Next(states[m], steps[m], states[m + 1]);
    var sub := states[m + 1].ess.subs[i];
    match steps[m] {
      case Notify(w) =>
      case Insert =>
      case EssStep(step) => StepRegisters(states[m].ess, step, states[m + 1].ess, i);
    }
    HistoryIsWritten(states, steps, m + 1, sub.event);
  }

  lemma StillSubscribedWith<V>(states: seq<StoreState<V>>, steps: seq<StoreStep<V>>, m: nat, k: nat, i: nat)
    requires IsStoreRun(states, steps) && m < k <= |steps| && |states[m].ess.subs| <= i < |states[m + 1].ess.subs|
    ensures i < |states[k].ess.subs|
    ensures var sub := states[k].ess.subs[i]; sub.base == |Written(steps[..m + 1], sub.event)|
  {
    SubscribedWith(states, steps, m, i);
    StoreSubscriptionPersists(states, steps, m + 1, k, i);
  }

  lemma StoreLedger<V>(states: seq<StoreState<V>>, steps: seq<StoreStep<V>>, k: nat, i: nat)
    requires IsStoreRun(states, steps) && k <= |steps| && i < |states[k].ess.subs|
    ensures SubLedger(states[k].ess, states[k].ess.subs[i])
  {
    StoreRunKeeps(states, steps, k);
  }

  lemma TaggedSince<V>(states: seq<StoreState<V>>, steps: seq<StoreStep<V>>, m: nat, k: nat, key: EventId)
    requires IsStoreRun(states, steps) && m <= k <= |steps|
    ensures Tagged(History(states[k].ess, key), key, Written(steps[..m], key) + Written(steps[m..k], key))
  {
    HistoryIsWritten(states, steps, k, key);
    WrittenSplit(steps, m, k, key);
  }

  lemma AllCarry<V>(s: State<Entry<V>>, sub: Subscription<Entry<V>>, before: seq<V>, later: seq<V>)
    requires SubLedger(s, sub) && Tagged(History(s, sub.event), sub.event, before + later) && sub.base == |before|
    ensures forall h | h in sub.handed :: CarriesKth(later, sub.event, h)
  {
    forall h | h in sub.handed ensures CarriesKth(later, sub.event, h) {
      assert Genuine(History(s, sub.event), sub.base, h);
      LedgerCarries(History(s, sub.event), sub.event, before, later, h);
    }
  }

  /** A subscriber's event with sequence number k carries the k-th value set for its key after
      it subscribed. */
  lemma SubscriberGetsKthValue<V>(states: seq<StoreState<V>>, steps: seq<StoreStep<V>>, m: nat, k: nat, i: nat)
    requires IsStoreRun(states, steps) && m < k <= |steps|
    requires |states[m].ess.subs| <= i < |states[m + 1].ess.subs|
    ensures i < |states[k].ess.subs|
    ensures var sub := states[k].ess.subs[i];
            forall h | h in sub.handed :: CarriesKth(Written(steps[m + 1..k], sub.event), sub.event, h)
  {
    StillSubscribedWith(states, steps, m, k, i);
    StoreLedger(states, steps, k, i);
    var sub := states[k].ess.subs[i];
    TaggedSince(states, steps, m + 1, k, sub.event);
    AllCarry(states[k].ess, sub, Written(steps[..m + 1], sub.event), Written(steps[m + 1..k], sub.event));
  }

  // ----- the store object -----

  class StreamingStore<V> {
    const ess: EventSubSystem.EventSubSystem<Entry<V>>
    var store: map<EventId, V>

    constructor (ess: EventSubSystem.EventSubSystem<Entry<V>>)
      ensures this.ess == ess && store == map[]
    {
      this.ess, store := ess, map[];
    }

    function Content(): StoreState<V>
      reads this, ess
    {
      StoreState(ess.View(), store, None)
    }

    method Get(key: EventId) returns (value: Option<V>)
      ensures value == Lookup(Content(), key)
    {
      value := if key in store then Some(store[key]) else None;
    }

    /** Publishes and inserts under the store lock: the two steps of a write. */
    method Set(key: EventId, value: V)
      requires SenderInArena(ess.View(), key)
      modifies this, ess
      ensures exists midway ::
                && Next(old(Content()), Notify(Entry(key, value)), midway)
                && Next(midway, Insert, Content())
    {
      ghost var before := Content();
      var _ := ess.Publish(key, Entry(key, value));
      ghost var midway := StoreState(ess.View(), store, Some(Entry(key, value)));
      store := store[key := value];
      assert Next(before, Notify(Entry(key, value)), midway);
      assert Next(midway, Insert, Content());
    }
  }
}
