/** The prune loop: it prunes, sleeps until the deadline the prune returned, and prunes
    again, while announcements and registrations arrive.  Timestamps are taken under the
    registry lock, so they never run ahead of the clock the loop reads. */
module PruneLoop {
  import opened Types
  import opened Directory

  datatype State = State(directory: Registrations, clock: Instant, deadline: Instant)

  datatype Step =
    | Tick(to: Instant)
    | Announce(service: ServiceConfiguration)
    | Register(service: ServiceConfiguration, intents: set<IntentConfiguration>)
    | Wake

  ghost predicate Next(s: State, step: Step, t: State, ttl: nat) {
    match step
    case Tick(to) => s.clock <= to && t == s.(clock := to)
    case Announce(service) => t == s.(directory := Touch(s.directory, service, s.clock))
    case Register(service, intents) => t == s.(directory := Upsert(s.directory, service, intents, s.clock))
    case Wake =>
      && s.deadline <= s.clock == t.clock
      && t.directory == Prune(s.directory, s.clock, ttl)
      && exists specificity :: IsDeadline(t.directory, s.clock, ttl, specificity, t.deadline)
  }

  /** The loop has just pruned for the first time; the server may have been running before. */
  ghost predicate Begins(s: State, ttl: nat) {
    exists d: Registrations, specificity ::
      && (forall id | id in d :: d[id].lastSeen <= s.clock)
      && s.directory == Prune(d, s.clock, ttl)
      && IsDeadline(s.directory, s.clock, ttl, specificity, s.deadline)
  }

  /** A run from the loop's first prune on. */
  ghost predicate IsRun(states: seq<State>, steps: seq<Step>, ttl: nat) {
    && |states| == |steps| + 1
    && Begins(states[0], ttl)
    && forall k {:trigger steps[k]} | 0 <= k < |steps| :: Next(states[k], steps[k], states[k + 1], ttl)
  }

  /** The pending deadline is not later than any known service's expiry. */
  ghost predicate InTime(s: State, ttl: nat) {
    && s.deadline <= s.clock + ttl
    && forall id | id in s.directory :: s.directory[id].lastSeen <= s.clock && s.deadline <= s.directory[id].lastSeen + ttl
  }

  lemma StepInTime(s: State, step: Step, t: State, ttl: nat)
    requires InTime(s, ttl) && Next(s, step, t, ttl)
    ensures InTime(t, ttl)
  {}

  /** No expiry is slept through: at all times the loop's pending wake-up is no later than
      last-seen plus TTL of every known service. */
  lemma {:induction false} NoExpiryIsSleptThrough(states: seq<State>, steps: seq<Step>, ttl: nat, k: nat)
    requires IsRun(states, steps, ttl) && k <= |steps|
    ensures InTime(states[k], ttl)
  {
    if k > 0 {
      NoExpiryIsSleptThrough(states, steps, ttl, k - 1);
      StepInTime(states[k - 1], steps[k - 1], states[k], ttl);
    }
  }

  /** The scheduler lets the loop run at most `latency` after its deadline. */
  ghost predicate Punctual(states: seq<State>, steps: seq<Step>, latency: nat)
    requires |states| == |steps| + 1
  {
    forall k {:trigger steps[k]} | 0 <= k < |steps| && steps[k].Tick? :: steps[k].to <= states[k].deadline + latency
  }

  lemma WakeLooksAhead(s: State, t: State, ttl: nat)
    requires Next(s, Wake, t, ttl)
    ensures s.clock <= t.deadline
  {}

  /** With a punctual loop nothing is known for longer than the TTL plus the latency after it
      was last heard of. */
  lemma {:induction false} NothingStaleIsKnown(states: seq<State>, steps: seq<Step>, ttl: nat, latency: nat, k: nat)
    requires IsRun(states, steps, ttl) && Punctual(states, steps, latency) && k <= |steps|
    ensures states[k].clock <= states[k].deadline + latency
    ensures forall id | id in states[k].directory :: states[k].clock <= states[k].directory[id].lastSeen + ttl + latency
  {
    NoExpiryIsSleptThrough(states, steps, ttl, k);
    if k > 0 {
      NothingStaleIsKnown(states, steps, ttl, latency, k - 1);
      var s, step, t := states[k - 1], steps[k - 1], states[k];
      assert Next(s, step, t, ttl);
      if step == Wake {
        WakeLooksAhead(s, t, ttl);
      }
    }
  }

  /** And nothing is removed before its TTL is over. */
  lemma NothingFreshIsRemoved(states: seq<State>, steps: seq<Step>, ttl: nat, k: nat, id: ServiceId)
    requires IsRun(states, steps, ttl) && k < |steps|
    requires id in states[k].directory && id !in states[k + 1].directory
    ensures steps[k] == Wake && states[k].clock > states[k].directory[id].lastSeen + ttl
  {}

  /** The step is a registration of the id, or an announcement of a configuration that is known. */
  ghost predicate HearsOf(s: State, step: Step, id: ServiceId) {
    || (step.Register? && step.service.id == id)
    || (step.Announce? && step.service.id == id && Knows(s.directory, step.service))
  }

  lemma StepHears(s: State, step: Step, t: State, ttl: nat, id: ServiceId)
    requires Next(s, step, t, ttl)
    ensures HearsOf(s, step, id) ==> id in t.directory && t.directory[id].lastSeen == s.clock
    ensures !HearsOf(s, step, id) && id in s.directory && step != Wake ==>
              id in t.directory && t.directory[id] == s.directory[id]
  {}

  /** A service that was heard of is known with that time, or a later one, until its TTL is over. */
  lemma {:induction false} HeardOfIsKept(states: seq<State>, steps: seq<Step>, ttl: nat, j: nat, k: nat, id: ServiceId)
    requires IsRun(states, steps, ttl) && j < k <= |steps| && HearsOf(states[j], steps[j], id)
    requires states[k].clock <= states[j].clock + ttl
    ensures id in states[k].directory && states[j].clock <= states[k].directory[id].lastSeen <= states[k].clock
    ensures k == j + 1 ==> states[k].directory[id].lastSeen == states[j].clock
  {
    StepHears(states[k - 1], steps[k - 1], states[k], ttl, id);
    NoExpiryIsSleptThrough(states, steps, ttl, k);
    if k > j + 1 {
      HeardOfIsKept(states, steps, ttl, j, k - 1, id);
    }
  }

  /** Expiry is strict but the deadline is not: a wake-up changes nothing, its own deadline
      included, exactly when it comes exactly on time and that is when some service is due
      (or the TTL is zero and there is none). */
  lemma WakingChangesNothingIff(s: State, t: State, ttl: nat)
    requires InTime(s, ttl) && Next(s, Wake, t, ttl)
    ensures t == s <==>
            && s.clock == s.deadline
            && ((exists id :: id in s.directory && s.directory[id].lastSeen + ttl == s.deadline)
                || (s.directory == map[] && ttl == 0))
  {
    WakeLooksAhead(s, t, ttl);
    if s.clock == s.deadline {
      forall id | id in s.directory ensures id in t.directory {
        assert !Expired(s.directory[id], s.clock, ttl);
      }
      assert t.directory == s.directory;
    }
  }

  /** Such wake-ups are within reach, and as many in a row as the clock allows. */
  lemma SpinsOnTheDot(service: ServiceConfiguration, ttl: nat, n: nat) returns (states: seq<State>, steps: seq<Step>)
    ensures IsRun(states, steps, ttl) && |steps| == n + 2
    ensures forall k | 2 <= k < n + 2 :: steps[k] == Wake && states[k + 1] == states[k]
    ensures service.id in states[n + 2].directory
  {
    var d := map[service.id := Registration(service, {}, 0)];
    var due := State(d, ttl, ttl);
    states := [State(map[], 0, ttl), State(d, 0, ttl)] + seq(n + 1, _ => due);
    steps := [Register(service, {}), Tick(ttl)] + seq(n, _ => Wake);
    assert IsDeadline(map[], 0, ttl, Default, ttl) && Prune(map[], 0, ttl) == map[];
    assert service.id in d && d[service.id].lastSeen + ttl == ttl;
    assert Prune(d, ttl, ttl) == d && IsDeadline(d, ttl, ttl, Specific, ttl);
    assert Upsert(map[], service, {}, 0) == d;
    forall k | 0 <= k < |steps| ensures Next(states[k], steps[k], states[k + 1], ttl) {
      if k >= 2 { assert states[k] == due && states[k + 1] == due && steps[k] == Wake; }
    }
  }
}
