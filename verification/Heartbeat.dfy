/** A provider keeping its registration alive: it announces itself, and registers when the
    registry does not know it or when it has never registered before.  Calls can fail with
    or without having been processed, the registry may restart empty at any time, prune, and
    serve other providers; no other provider uses this one's service id. */
module Heartbeat {
  import opened Types
  import opened Directory
  import RegistryRuns

  datatype Provider = Provider(service: ServiceConfiguration, intents: seq<IntentConfiguration>)

  /** `Registering`: the announcement was answered and a registration has to follow. */
  datatype Phase = Idle | Registering

  datatype World = World(directory: Registrations, phase: Phase, firstIteration: bool)

  datatype Step =
    | Announced(t: Instant)                        // processed and answered
    | AnnounceFailed(processed: bool, t: Instant)  // the provider sees an error
    | Registered(t: Instant)
    | RegisterRefused                              // a system namespace
    | RegisterFailed(processed: bool, t: Instant)
    | Late(t: Instant)                             // a given-up registration arrives after all
    | OtherUpsert(service: ServiceConfiguration, intents: seq<IntentConfiguration>, t: Instant)
    | OtherTouch(service: ServiceConfiguration, t: Instant)
    | Pruned(t: Instant)
    | Restarted

  predicate NamesSystem(p: Provider) {
    exists i | i in p.intents :: IsSystemNamespace(i.namespace)
  }

  function Registration(d: Registrations, p: Provider, t: Instant): Registrations {
    if NamesSystem(p) then d else Upsert(d, p.service, ToSet(p.intents), t)
  }

  ghost predicate Enabled(w: World, step: Step, p: Provider) {
    match step
    case Announced(_) => w.phase == Idle
    case AnnounceFailed(_, _) => w.phase == Idle
    case Registered(_) => w.phase == Registering && !NamesSystem(p)
    case RegisterRefused => w.phase == Registering && NamesSystem(p)
    case RegisterFailed(_, _) => w.phase == Registering
    case OtherUpsert(service, _, _) => service.id != p.service.id
    case OtherTouch(service, _) => service.id != p.service.id
    case _ => true
  }

  /** The answer to an announcement: whether the very configuration was known. */
  predicate Known(w: World, p: Provider) {
    Knows(w.directory, p.service)
  }

  function Apply(w: World, step: Step, p: Provider, ttl: nat): World {
    match step
    case Announced(t) =>
      var touched := w.(directory := Touch(w.directory, p.service, t));
      if w.firstIteration || !Known(w, p) then touched.(phase := Registering) else touched.(firstIteration := false)
    case AnnounceFailed(processed, t) => if processed then w.(directory := Touch(w.directory, p.service, t)) else w
    case Registered(t) => World(Registration(w.directory, p, t), Idle, false)
    case RegisterRefused => w.(phase := Idle)
    case RegisterFailed(processed, t) =>
      World(if processed then Registration(w.directory, p, t) else w.directory, Idle, w.firstIteration)
    case Late(t) => w.(directory := Registration(w.directory, p, t))
    case OtherUpsert(service, intents, t) => w.(directory := Registration(w.directory, Provider(service, intents), t))
    case OtherTouch(service, t) => w.(directory := Touch(w.directory, service, t))
    case Pruned(t) => w.(directory := Prune(w.directory, t, ttl))
    case Restarted => w.(directory := map[])
  }

  /** The step processes the last call of a `register_once` that then succeeds. */
  predicate Succeeds(w: World, step: Step, p: Provider) {
    step.Registered? || (step.Announced? && !w.firstIteration && Known(w, p))
  }

  /** The provider's service is known and listed under exactly its intents. */
  predicate ListedExactly(d: Registrations, p: Provider) {
    Knows(d, p.service) && d[p.service.id].intents == ToSet(p.intents)
  }

  /** A run from any directory, including one left by an earlier incarnation. */
  ghost predicate IsRun(worlds: seq<World>, steps: seq<Step>, p: Provider, ttl: nat) {
    && |worlds| == |steps| + 1
    && worlds[0].phase == Idle && worlds[0].firstIteration
    && forall k {:trigger steps[k]} | 0 <= k < |steps| ::
         Enabled(worlds[k], steps[k], p) && worlds[k + 1] == Apply(worlds[k], steps[k], p, ttl)
  }

  /** Once the provider has registered, any entry under its id is its registration. */
  ghost predicate Settled(w: World, p: Provider) {
    !w.firstIteration && p.service.id in w.directory ==> ListedExactly(w.directory, p)
  }

  lemma StepSettles(w: World, step: Step, p: Provider, ttl: nat)
    requires Settled(w, p) && Enabled(w, step, p)
    ensures Settled(Apply(w, step, p, ttl), p)
    ensures Succeeds(w, step, p) ==> ListedExactly(Apply(w, step, p, ttl).directory, p)
  {}

  lemma {:induction false} RunSettles(worlds: seq<World>, steps: seq<Step>, p: Provider, ttl: nat, k: nat)
    requires IsRun(worlds, steps, p, ttl) && k <= |steps|
    ensures Settled(worlds[k], p)
  {
    if k > 0 {
      RunSettles(worlds, steps, p, ttl, k - 1);
      StepSettles(worlds[k - 1], steps[k - 1], p, ttl);
    }
  }

  /** After every successful `register_once`, at the moment its last call was processed, the
      service is known and listed under exactly the provider's intents. */
  lemma SuccessMeansListed(worlds: seq<World>, steps: seq<Step>, p: Provider, ttl: nat, k: nat)
    requires IsRun(worlds, steps, p, ttl) && k < |steps|
    requires Succeeds(worlds[k], steps[k], p)
    ensures ListedExactly(worlds[k + 1].directory, p)
  {
    RunSettles(worlds, steps, p, ttl, k);
    StepSettles(worlds[k], steps[k], p, ttl);
  }

  /** A provider that names a system namespace never succeeds; any other succeeds as soon as
      its announcement and registration get through. */
  lemma {:induction false} SystemProviderNeverSucceeds(worlds: seq<World>, steps: seq<Step>, p: Provider, ttl: nat, k: nat)
    requires IsRun(worlds, steps, p, ttl) && k < |steps|
    requires NamesSystem(p)
    ensures worlds[k].firstIteration && !Succeeds(worlds[k], steps[k], p)
  {
    assert Enabled(worlds[k], steps[k], p);
    if k > 0 {
      SystemProviderNeverSucceeds(worlds, steps, p, ttl, k - 1);
      assert worlds[k] == Apply(worlds[k - 1], steps[k - 1], p, ttl);
    }
  }

  lemma TwoCallsSuffice(w: World, p: Provider, ttl: nat, t: Instant, t': Instant)
    requires w.phase == Idle && !NamesSystem(p)
    ensures var w' := Apply(w, Announced(t), p, ttl);
            if Succeeds(w, Announced(t), p) then w'.phase == Idle && !w'.firstIteration
            else Enabled(w', Registered(t'), p) && Succeeds(w', Registered(t'), p)
                 && ListedExactly(Apply(w', Registered(t'), p, ttl).directory, p)
  {}

  // ----- the registry side of the protocol -----

  /** The registry call that a step has processed, if any. */
  function CallOf(step: Step, p: Provider): Option<RegistryRuns.Call> {
    match step
    case Announced(t) => Some(RegistryRuns.DoTouch(p.service, t))
    case AnnounceFailed(processed, t) => if processed then Some(RegistryRuns.DoTouch(p.service, t)) else None
    case Registered(t) => Some(RegistryRuns.DoUpsert(p.service, p.intents, t))
    case RegisterRefused => None
    case RegisterFailed(processed, t) => if processed then Some(RegistryRuns.DoUpsert(p.service, p.intents, t)) else None
    case Late(t) => Some(RegistryRuns.DoUpsert(p.service, p.intents, t))
    case OtherUpsert(service, intents, t) => Some(RegistryRuns.DoUpsert(service, intents, t))
    case OtherTouch(service, t) => Some(RegistryRuns.DoTouch(service, t))
    case Pruned(t) => Some(RegistryRuns.DoPrune(t))
    case Restarted => None
  }

  /** Every step but a restart does to the directory what the registry does for its call. */
  lemma StepIsRegistryCall(w: World, step: Step, p: Provider, ttl: nat)
    ensures Apply(w, step, p, ttl).directory ==
            if step == Restarted then map[]
            else if CallOf(step, p).Some? then RegistryRuns.Perform(w.directory, CallOf(step, p).value, ttl)
            else w.directory
  {
    match step
    case Registered(t) => RegistrationIsUpsert(w.directory, p, t, ttl);
    case RegisterFailed(_, t) => RegistrationIsUpsert(w.directory, p, t, ttl);
    case Late(t) => RegistrationIsUpsert(w.directory, p, t, ttl);
    case OtherUpsert(service, intents, t) => RegistrationIsUpsert(w.directory, Provider(service, intents), t, ttl);
    case _ =>
  }

  lemma RegistrationIsUpsert(d: Registrations, p: Provider, t: Instant, ttl: nat)
    ensures Registration(d, p, t) == RegistryRuns.Perform(d, RegistryRuns.DoUpsert(p.service, p.intents, t), ttl)
  {
    var call := RegistryRuns.DoUpsert(p.service, p.intents, t);
    assert NamesSystem(p) <==> !RegistryRuns.Registers(call);
  }

  /** When the registry heard of the provider's service by a step: it was announced while known,
      or its registration was processed, whether or not the provider got to know. */
  function HeardAt(w: World, step: Step, p: Provider): Option<Instant> {
    match step
    case Announced(t) => if Known(w, p) then Some(t) else None
    case AnnounceFailed(processed, t) => if processed && Known(w, p) then Some(t) else None
    case Registered(t) => Some(t)
    case RegisterFailed(processed, t) => if processed && !NamesSystem(p) then Some(t) else None
    case Late(t) => if NamesSystem(p) then None else Some(t)
    case _ => None
  }

  /** A step after the registry heard of the service at `t`, before its TTL is over. */
  predicate IsSoon(step: Step, p: Provider, t: Instant, ttl: nat) {
    && step != Restarted
    && (CallOf(step, p).Some? ==> t <= CallOf(step, p).value.t)
    && (step.Pruned? ==> step.t <= t + ttl)
  }

  lemma StepHears(w: World, step: Step, p: Provider, ttl: nat)
    requires Enabled(w, step, p)
    ensures var d := Apply(w, step, p, ttl).directory;
            && (HeardAt(w, step, p).Some? ==>
                  Knows(d, p.service) && d[p.service.id].lastSeen == HeardAt(w, step, p).value)
            && (HeardAt(w, step, p).None? && Knows(w.directory, p.service) && !step.Pruned? && !step.Restarted? ==>
                  Knows(d, p.service) && d[p.service.id] == w.directory[p.service.id])
  {}

  /** Once the registry has heard of the service it knows it, with that time or a later one, for
      as long as the registry does not restart and no prune comes after the TTL. */
  lemma {:induction false} KnownUntilSilent(worlds: seq<World>, steps: seq<Step>, p: Provider, ttl: nat,
                                            j: nat, k: nat, t: Instant)
    requires IsRun(worlds, steps, p, ttl) && j < k <= |steps|
    requires HeardAt(worlds[j], steps[j], p) == Some(t)
    requires forall m | j < m < k :: IsSoon(steps[m], p, t, ttl)
    ensures Knows(worlds[k].directory, p.service)
    ensures t <= worlds[k].directory[p.service.id].lastSeen
    ensures k == j + 1 ==> worlds[k].directory[p.service.id].lastSeen == t
  {
    var w, step := worlds[k - 1], steps[k - 1];
    assert Enabled(w, step, p) && worlds[k] == Apply(w, step, p, ttl);
    StepHears(w, step, p, ttl);
    if k > j + 1 {
      KnownUntilSilent(worlds, steps, p, ttl, j, k - 1, t);
      assert IsSoon(step, p, t, ttl);
    }
  }
}
