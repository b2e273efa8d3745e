/** Whole histories of registry calls, and what the registry makes of them. */
module RegistryRuns {
  import opened Types
  import opened Directory
  import opened Broker
  import Registry

  datatype Call =
    | DoUpsert(service: ServiceConfiguration, intents: seq<IntentConfiguration>, t: Instant)
    | DoTouch(service: ServiceConfiguration, t: Instant)
    | DoPrune(t: Instant)

  /** A registration that is not refused for naming a system namespace. */
  predicate Registers(c: Call) {
    c.DoUpsert? && forall i | i in c.intents :: !IsSystemNamespace(i.namespace)
  }

  function Perform(d: Registrations, c: Call, ttl: nat): Registrations {
    match c
    case DoUpsert(s, intents, t) => if Registers(c) then Upsert(d, s, ToSet(intents), t) else d
    case DoTouch(s, t) => Touch(d, s, t)
    case DoPrune(t) => Prune(d, t, ttl)
  }

  /** The directory after a history of calls on a new registry. */
  function After(calls: seq<Call>, ttl: nat): Registrations {
    if calls == [] then map[] else Perform(After(calls[..|calls| - 1], ttl), calls[|calls| - 1], ttl)
  }

  // ----- a description that only looks at the history -----

  /** Call `k` is the last accepted registration of a service id. */
  ghost predicate IsLastRegistration(calls: seq<Call>, k: nat, id: ServiceId) {
    && k < |calls| && Registers(calls[k]) && calls[k].service.id == id
    && forall j | k < j < |calls| && Registers(calls[j]) :: calls[j].service.id != id
  }

  /** When the service registered by call `k` was last heard of. */
  function LastSeen(calls: seq<Call>, k: nat): Instant
    requires k < |calls| && calls[k].DoUpsert?
  {
    if |calls| == k + 1 then calls[k].t
    else
      var last := calls[|calls| - 1];
      if last.DoTouch? && last.service == calls[k].service then last.t
      else LastSeen(calls[..|calls| - 1], k)
  }

  /** No prune since call `k` found its service silent for longer than the TTL. */
  ghost predicate Survives(calls: seq<Call>, ttl: nat, k: nat)
    requires k < |calls| && calls[k].DoUpsert?
  {
    forall p | k < p < |calls| && calls[p].DoPrune? :: Since(calls[p].t, LastSeen(calls[..p], k)) <= ttl
  }

  lemma SurvivesStep(calls: seq<Call>, ttl: nat, k: nat)
    requires k + 1 < |calls| && calls[k].DoUpsert?
    ensures var front, last := calls[..|calls| - 1], calls[|calls| - 1];
            Survives(calls, ttl, k) <==>
            Survives(front, ttl, k) && (last.DoPrune? ==> Since(last.t, LastSeen(front, k)) <= ttl)
  {
    var front := calls[..|calls| - 1];
    assert forall p | k < p < |front| :: front[..p] == calls[..p] && front[p] == calls[p];
    if Survives(calls, ttl, k) {
      forall p | k < p < |front| && front[p].DoPrune? ensures Since(front[p].t, LastSeen(front[..p], k)) <= ttl {
        assert calls[p].DoPrune?;
      }
    }
    if Survives(front, ttl, k) && (calls[|front|].DoPrune? ==> Since(calls[|front|].t, LastSeen(front, k)) <= ttl) {
      forall p | k < p < |calls| && calls[p].DoPrune? ensures Since(calls[p].t, LastSeen(calls[..p], k)) <= ttl {
        if p < |front| { assert front[p].DoPrune?; }
      }
    }
  }

  /** An id with a last registration is in the directory exactly while it survives, with
      that registration's configuration and intents and the time it was last heard of. */
  lemma {:induction false} EntryIsLastRegistration(calls: seq<Call>, ttl: nat, k: nat, id: ServiceId)
    requires IsLastRegistration(calls, k, id)
    ensures var d := After(calls, ttl);
            && (id in d <==> Survives(calls, ttl, k))
            && (id in d ==> d[id] == Registration(calls[k].service, ToSet(calls[k].intents), LastSeen(calls, k)))
  {
    if k + 1 < |calls| {
      var front := calls[..|calls| - 1];
      assert IsLastRegistration(front, k, id);
      EntryIsLastRegistration(front, ttl, k, id);
      SurvivesStep(calls, ttl, k);
      assert Registers(calls[|front|]) ==> calls[|front|].service.id != id;
    }
  }

  lemma {:induction false} UnregisteredIsAbsent(calls: seq<Call>, ttl: nat, id: ServiceId)
    requires forall j | 0 <= j < |calls| && Registers(calls[j]) :: calls[j].service.id != id
    ensures id !in After(calls, ttl)
  {
    if calls != [] {
      UnregisteredIsAbsent(calls[..|calls| - 1], ttl, id);
    }
  }

  lemma {:induction false} FindLastRegistration(calls: seq<Call>, id: ServiceId, j: nat) returns (k: nat)
    requires j < |calls| && Registers(calls[j]) && calls[j].service.id == id
    ensures IsLastRegistration(calls, k, id)
    decreases |calls| - j
  {
    if m: nat :| j < m < |calls| && Registers(calls[m]) && calls[m].service.id == id {
      k := FindLastRegistration(calls, id, m);
    } else {
      k := j;
    }
  }

  /** After any history, the services listed for an intent are exactly those whose last
      accepted registration named it and which no prune has found expired since. */
  lemma ListedIffLastRegistrationNames(calls: seq<Call>, ttl: nat, i: IntentConfiguration, s: ServiceConfiguration)
    ensures Lists(After(calls, ttl), i, s) <==>
            exists k: nat :: IsLastRegistration(calls, k, s.id) && calls[k].service == s && i in calls[k].intents
                        && Survives(calls, ttl, k)
  {
    if j: nat :| j < |calls| && Registers(calls[j]) && calls[j].service.id == s.id {
      var k := FindLastRegistration(calls, s.id, j);
      EntryIsLastRegistration(calls, ttl, k, s.id);
      forall m: nat | IsLastRegistration(calls, m, s.id) ensures m == k {}
    } else {
      UnregisteredIsAbsent(calls, ttl, s.id);
    }
  }

  // ----- heartbeats -----

  /** Timestamps are taken under the registry lock from a monotone clock. */
  ghost predicate InTimeOrder(calls: seq<Call>) {
    forall j, n | 0 <= j <= n < |calls| :: calls[j].t <= calls[n].t
  }

  /** The registry hears of the service that call `k` registered: by that call, or by a later
      announcement of that very configuration. */
  predicate IsBeat(calls: seq<Call>, k: nat, j: nat)
    requires k < |calls| && calls[k].DoUpsert?
  {
    k <= j < |calls| && (j == k || (calls[j].DoTouch? && calls[j].service == calls[k].service))
  }

  /** A beat is followed by another within the TTL, unless the history ends before that. */
  ghost predicate IsFollowed(calls: seq<Call>, ttl: nat, k: nat, j: nat)
    requires k < |calls| && calls[k].DoUpsert? && j < |calls|
  {
    || (exists n: nat :: j < n && IsBeat(calls, k, n) && calls[n].t <= calls[j].t + ttl)
    || (forall n | j < n < |calls| :: calls[n].t <= calls[j].t + ttl)
  }

  /** Every beat is followed in time. */
  ghost predicate AtGaps(calls: seq<Call>, ttl: nat, k: nat)
    requires k < |calls| && calls[k].DoUpsert?
  {
    forall j: nat {:trigger IsFollowed(calls, ttl, k, j)} | IsBeat(calls, k, j) :: IsFollowed(calls, ttl, k, j)
  }

  /** The last beat before call `p`, and that it is when the service was last heard of. */
  lemma {:induction false} LastBeat(calls: seq<Call>, k: nat, p: nat) returns (j: nat)
    requires k < p <= |calls| && calls[k].DoUpsert?
    ensures j < p && IsBeat(calls, k, j) && calls[j].t == LastSeen(calls[..p], k)
    ensures forall n | j < n < p :: !IsBeat(calls, k, n)
  {
    if p == k + 1 || IsBeat(calls, k, p - 1) {
      j := p - 1;
    } else {
      j := LastBeat(calls, k, p - 1);
      assert calls[..p][..p - 1] == calls[..p - 1];
    }
  }

  lemma NeverSilent(calls: seq<Call>, ttl: nat, k: nat, p: nat)
    requires InTimeOrder(calls) && k < p < |calls| && calls[k].DoUpsert? && calls[p].DoPrune?
    requires AtGaps(calls, ttl, k)
    ensures Since(calls[p].t, LastSeen(calls[..p], k)) <= ttl
  {
    var j := LastBeat(calls, k, p);
    assert IsFollowed(calls, ttl, k, j);
    if n: nat :| j < n && IsBeat(calls, k, n) && calls[n].t <= calls[j].t + ttl {
      assert p < n;
    }
  }

  /** A service that is announced at gaps of at most the TTL is never removed: from its
      registration on it stays listed under everything that named. */
  lemma HeartbeatsKeepAlive(calls: seq<Call>, ttl: nat, k: nat, n: nat)
    requires InTimeOrder(calls) && k < n <= |calls| && calls[k].DoUpsert?
    requires IsLastRegistration(calls, k, calls[k].service.id)
    requires AtGaps(calls, ttl, k)
    ensures forall i | i in calls[k].intents :: Lists(After(calls[..n], ttl), i, calls[k].service)
  {
    forall p | k < p < n && calls[p].DoPrune? ensures Since(calls[p].t, LastSeen(calls[..n][..p], k)) <= ttl {
      assert calls[..n][..p] == calls[..p];
      NeverSilent(calls, ttl, k, p);
    }
    EntryIsLastRegistration(calls[..n], ttl, k, calls[k].service.id);
  }

  /** One call on a registry object. */
  method Submit(registry: Registry.Registry, call: Call)
    requires registry.Valid()
    modifies registry, registry.observer.left`bindingsByIntent, registry.observer.right
    ensures registry.Valid()
    ensures registry.directory == Perform(old(registry.directory), call, registry.entryTtl)
  {
    match call {
      case DoUpsert(s, intents, t) => SubmitUpsert(registry, s, intents, t);
      case DoTouch(s, t) => SubmitTouch(registry, s, t);
      case DoPrune(t) => var _, _, _ := registry.Prune(t);
    }
  }

  method SubmitUpsert(registry: Registry.Registry, s: ServiceConfiguration, intents: seq<IntentConfiguration>, t: Instant)
    requires registry.Valid()
    modifies registry, registry.observer.left`bindingsByIntent, registry.observer.right
    ensures registry.Valid()
    ensures registry.directory == Perform(old(registry.directory), DoUpsert(s, intents, t), registry.entryTtl)
  {
    var _, _ := registry.Upsert(s, intents, t);
    Registry.RefusedIff(intents);
  }

  method SubmitTouch(registry: Registry.Registry, s: ServiceConfiguration, t: Instant)
    requires registry.Valid()
    modifies registry`knownServices, registry`directory
    ensures registry.Valid()
    ensures registry.directory == Touch(old(registry.directory), s, t)
  {
    var _ := registry.Touch(s, t);
  }

  /** Any history of calls on a registry object leaves it representing the directory that
      history describes, and the broker mirroring it. */
  method Replay(registry: Registry.Registry, calls: seq<Call>)
    requires registry.Valid() && registry.directory == map[]
    modifies registry, registry.observer.left`bindingsByIntent, registry.observer.right
    ensures registry.Valid()
    ensures registry.directory == After(calls, registry.entryTtl)
  {
    for n := 0 to |calls|
      invariant registry.Valid()
      invariant registry.directory == After(calls[..n], registry.entryTtl)
    {
      AfterNext(calls, n, registry.entryTtl);
      Submit(registry, calls[n]);
    }
    assert calls[..|calls|] == calls;
  }

  lemma AfterNext(calls: seq<Call>, n: nat, ttl: nat)
    requires n < |calls|
    ensures After(calls[..n + 1], ttl) == Perform(After(calls[..n], ttl), calls[n], ttl)
  {
    assert calls[..n + 1][..n] == calls[..n];
  }
}
