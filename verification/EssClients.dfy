/** What a client's record says about its subscriptions, over whole runs, and what opening an
    id again does to it. */
module EssClients {
  import opened Ess
  import opened EssInvariant
  import opened EssTheorems

  // ----- the record of a client -----

  /** The registered-minus-deregistered event ids of a client since it was last opened. */
  function Wanted<V>(steps: seq<Step<V>>, c: ClientId): set<EventId> {
    if steps == [] then {}
    else
      var before := Wanted(steps[..|steps| - 1], c);
      match steps[|steps| - 1]
      case DoOpen(d) => if d == c then {} else before
      case DoRegister(d, e) => if d == c then before + {e} else before
      case DoRevoke(d, e) => if d == c then before - {e} else before
      case _ => before
  }

  lemma StepWants<V>(s: State<V>, step: Step<V>, t: State<V>, c: ClientId)
    requires Enabled(s, step) && t == Apply(s, step)
    ensures Requested(t, c) == match step
                               case DoOpen(d) => if d == c then {} else Requested(s, c)
                               case DoRegister(d, e) => if d == c then Requested(s, c) + {e} else Requested(s, c)
                               case DoRevoke(d, e) => if d == c then Requested(s, c) - {e} else Requested(s, c)
                               case _ => Requested(s, c)
  {
    if IsTaskStep(step) { TaskStepLeaves(s, step); }
  }

  lemma {:induction false} RequestedIsWanted<V>(states: seq<State<V>>, steps: seq<Step<V>>, k: nat, c: ClientId)
    requires IsRun(states, steps) && k <= |steps|
    ensures Requested(states[k], c) == Wanted(steps[..k], c)
  {
    if k > 0 {
      RequestedIsWanted(states, steps, k - 1, c);
      assert steps[..k][..k - 1] == steps[..k - 1];
      StepWants(states[k - 1], steps[k - 1], states[k], c);
    }
  }

  predicate IsLive<V>(sub: Subscription<V>, c: ClientId) {
    sub.client == c && !IsOver(sub.phase) && !sub.cancelled
  }

  /** The record of the client holds exactly its live un-cancelled subscriptions, one per
      event id, and each of them is being served. */
  ghost predicate RecordIsExact<V>(s: State<V>, c: ClientId) {
    && c in s.clients
    && (forall i: nat | i < |s.subs| && IsLive(s.subs[i], c) ::
          s.subs[i].event in s.clients[c].subscriptions && s.clients[c].subscriptions[s.subs[i].event] == i)
    && (forall e | e in s.clients[c].subscriptions ::
          && s.clients[c].subscriptions[e] < |s.subs|
          && var sub := s.subs[s.clients[c].subscriptions[e]];
             IsLive(sub, c) && sub.event == e && (sub.phase == Serving || sub.phase == Offering))
  }

  /** The client's current stream is open. */
  ghost predicate IsReading<V>(s: State<V>, c: ClientId) {
    Shape(s) && c in s.clients && StreamOpen(s, c)
  }

  lemma ReadingIsExact<V>(s: State<V>, c: ClientId)
    requires Inv(s) && IsReading(s, c) && c !in s.overlapped
    ensures RecordIsExact(s, c) && GetSubscriptions(s, c) == Requested(s, c)
  {
    assert ClientOk(s, c);
    forall i: nat | i < |s.subs| && IsLive(s.subs[i], c)
      ensures s.subs[i].event in s.clients[c].subscriptions && s.clients[c].subscriptions[s.subs[i].event] == i
    {
      assert SubOnRecord(s, i);
    }
    forall e | e in s.clients[c].subscriptions
      ensures var sub := s.subs[s.clients[c].subscriptions[e]];
              IsLive(sub, c) && sub.event == e && (sub.phase == Serving || sub.phase == Offering)
    {
      assert RecordPoints(s, c, e);
      assert SubStopsForReason(s, s.subs[s.clients[c].subscriptions[e]]);
    }
  }

  lemma StepOverlaps<V>(s: State<V>, step: Step<V>, t: State<V>, c: ClientId)
    requires Enabled(s, step) && t == Apply(s, step) && step != DoOpen(c)
    ensures c in t.clients <==> c in s.clients
    ensures c in t.overlapped <==> c in s.overlapped
  {
    if IsTaskStep(step) { TaskStepLeaves(s, step); }
  }

  /** Step `j` is the last opening of the id before state `k`. */
  ghost predicate LastOpened<V>(steps: seq<Step<V>>, j: nat, k: nat, c: ClientId) {
    j < k <= |steps| && steps[j] == DoOpen(c) && forall n | j < n < k :: steps[n] != DoOpen(c)
  }

  lemma {:induction false} StaysApart<V>(states: seq<State<V>>, steps: seq<Step<V>>, j: nat, k: nat, c: ClientId)
    requires IsPath(states, steps) && LastOpened(steps, j, k, c) && AllOver(states[j], c)
    ensures c in states[k].clients && c !in states[k].overlapped
  {
    if k == j + 1 {
      assert states[k] == Open(states[j], c);
    } else {
      StaysApart(states, steps, j, k - 1, c);
      StepOverlaps(states[k - 1], steps[k - 1], states[k], c);
    }
  }

  /** For a client whose stream is open and whose older tasks, if it had been opened before,
      were all over when it was last opened: `get_subscriptions` is registered minus
      deregistered, and each event id has at most one live un-cancelled subscription, namely
      the one whose token is on record, and that one is being served. */
  lemma OneLiveSubscriptionPerEvent<V>(states: seq<State<V>>, steps: seq<Step<V>>, j: nat, k: nat, c: ClientId)
    requires IsRun(states, steps) && LastOpened(steps, j, k, c) && AllOver(states[j], c)
    requires IsReading(states[k], c)
    ensures GetSubscriptions(states[k], c) == Wanted(steps[..k], c)
    ensures RecordIsExact(states[k], c)
  {
    RunKeeps(states, steps, k);
    StaysApart(states, steps, j, k, c);
    ReadingIsExact(states[k], c);
    RequestedIsWanted(states, steps, k, c);
  }

  /** That covers every id that is opened for the first time. */
  lemma FirstOpeningIsApart<V>(states: seq<State<V>>, steps: seq<Step<V>>, j: nat, c: ClientId)
    requires IsRun(states, steps) && j <= |steps| && forall n | 0 <= n < j :: steps[n] != DoOpen(c)
    ensures c !in states[j].clients && AllOver(states[j], c)
  {
    NeverOpened(states, steps, j, c);
    RunKeeps(states, steps, j);
    forall i | 0 <= i < |states[j].subs| ensures states[j].subs[i].client != c {
      assert SubStopsForReason(states[j], states[j].subs[i]);
    }
  }

  lemma {:induction false} NeverOpened<V>(states: seq<State<V>>, steps: seq<Step<V>>, j: nat, c: ClientId)
    requires IsRun(states, steps) && j <= |steps| && forall n | 0 <= n < j :: steps[n] != DoOpen(c)
    ensures c !in states[j].clients
  {
    if j > 0 {
      NeverOpened(states, steps, j - 1, c);
      StepOverlaps(states[j - 1], steps[j - 1], states[j], c);
    }
  }

  // ----- opening an id again -----

  /** `t` can be reached from `s` without opening the id. */
  ghost predicate Reaches<V(!new)>(s: State<V>, t: State<V>, c: ClientId) {
    exists states, steps :: Leads(states, steps, s, t, c)
  }

  ghost predicate Leads<V>(states: seq<State<V>>, steps: seq<Step<V>>, s: State<V>, t: State<V>, c: ClientId) {
    IsPath(states, steps) && states[0] == s && states[|steps|] == t && forall n | 0 <= n < |steps| :: steps[n] != DoOpen(c)
  }

  lemma ReachesItself<V(!new)>(s: State<V>, c: ClientId)
    ensures Reaches(s, s, c)
  {
    assert Leads([s], [], s, s, c);
  }

  lemma ReachesNext<V(!new)>(s: State<V>, t: State<V>, step: Step<V>, c: ClientId)
    requires Reaches(s, t, c) && Enabled(t, step) && step != DoOpen(c)
    ensures Reaches(s, Apply(t, step), c)
  {
    var states, steps :| Leads(states, steps, s, t, c);
    var states', steps' := Extend(states, steps, step);
    assert Leads(states', steps', s, Apply(t, step), c);
  }

  ghost predicate AtMostOneLive<V>(s: State<V>, c: ClientId) {
    forall i: nat, j: nat | i < j < |s.subs| && IsLive(s.subs[i], c) && IsLive(s.subs[j], c) ::
      s.subs[i].event != s.subs[j].event
  }

  /** Whatever happens after the id is opened, until it is opened again: while the client
      reads, it has at most one live subscription per event. */
  ghost predicate SafeToOpen<V(!new)>(s: State<V>, c: ClientId) {
    forall t | Reaches(Open(s, c), t, c) && IsReading(t, c) :: AtMostOneLive(t, c)
  }

  /** Opening an id, anew or again, is safe exactly when every task that ever served it is
      over, cancelled or not. */
  lemma OpeningIsSafeIff<V(!new)>(s: State<V>, c: ClientId, v: V)
    requires Inv(s)
    ensures SafeToOpen(s, c) <==> AllOver(s, c)
  {
    if AllOver(s, c) {
      forall t | Reaches(Open(s, c), t, c) && IsReading(t, c) ensures AtMostOneLive(t, c) {
        ApartIsExact(s, c, t);
      }
    } else {
      var i: nat :| i < |s.subs| && s.subs[i].client == c && !IsOver(s.subs[i].phase);
      var t := Collision(s, c, i, v);
    }
  }

  /** After an opening beside no older task the record stays exact. */
  lemma ApartIsExact<V(!new)>(s: State<V>, c: ClientId, t: State<V>)
    requires Inv(s) && AllOver(s, c) && Reaches(Open(s, c), t, c) && IsReading(t, c)
    ensures RecordIsExact(t, c) && GetSubscriptions(t, c) == Requested(t, c)
  {
    var states, steps :| Leads(states, steps, Open(s, c), t, c);
    OpenKeeps(s, c);
    PathKeeps(states, steps, |steps|);
    PathStaysApart(states, steps, |steps|, c);
    ReadingIsExact(t, c);
  }

  lemma {:induction false} PathStaysApart<V>(states: seq<State<V>>, steps: seq<Step<V>>, k: nat, c: ClientId)
    requires IsPath(states, steps) && k <= |steps| && forall n | 0 <= n < |steps| :: steps[n] != DoOpen(c)
    requires c !in states[0].overlapped
    ensures c !in states[k].overlapped
  {
    if k > 0 {
      PathStaysApart(states, steps, k - 1, c);
      StepOverlaps(states[k - 1], steps[k - 1], states[k], c);
    }
  }

  /** One more step on the way. */
  lemma Go<V(!new)>(o: State<V>, s: State<V>, step: Step<V>, c: ClientId) returns (t: State<V>)
    requires Reaches(o, s, c) && Inv(s) && Enabled(s, step) && step != DoOpen(c)
    ensures t == Apply(s, step) && Reaches(o, t, c) && Inv(t)
  {
    ReachesNext(o, s, step, c);
    StepKeeps(s, step);
    t := Apply(s, step);
  }

  /** From any older task that still runs, a continuation in which the client, reading, holds
      two live subscriptions for the event of that task: if its token was never cancelled,
      itself and a new one; otherwise two new ones, because its clean-up takes the first of
      them off the record. */
  lemma Collision<V(!new)>(s: State<V>, c: ClientId, i: nat, v: V) returns (t: State<V>)
    requires Inv(s) && i < |s.subs| && s.subs[i].client == c && !IsOver(s.subs[i].phase)
    ensures Reaches(Open(s, c), t, c) && IsReading(t, c) && !AtMostOneLive(t, c)
  {
    var e, o := s.subs[i].event, Open(s, c);
    OpenKeeps(s, c);
    ReachesItself(o, c);
    if !s.subs[i].cancelled {
      t := Collide(o, o, c, e, i);
    } else {
      Registered(o, c, e);
      t := Go(o, o, DoRegister(c, e), c);
      t := OffRecord(o, t, c, i, |s.subs|, v);
      t := Collide(o, t, c, e, |s.subs|);
    }
  }

  /** A live subscription that is off the record is joined by another on registering again. */
  lemma Collide<V(!new)>(o: State<V>, s: State<V>, c: ClientId, e: EventId, j: nat) returns (t: State<V>)
    requires Reaches(o, s, c) && Inv(s) && IsReading(s, c) && e !in s.clients[c].subscriptions
    requires j < |s.subs| && IsLive(s.subs[j], c) && s.subs[j].event == e
    ensures Reaches(o, t, c) && IsReading(t, c) && !AtMostOneLive(t, c)
  {
    Registered(s, c, e);
    t := Go(o, s, DoRegister(c, e), c);
    assert IsLive(t.subs[j], c) && IsLive(t.subs[|s.subs|], c);
  }

  /** A task on an older stream can take a newer subscription `j` to its event off the record. */
  lemma OffRecord<V(!new)>(o: State<V>, s: State<V>, c: ClientId, i: nat, j: nat, v: V) returns (t: State<V>)
    requires Reaches(o, s, c) && Inv(s) && IsReading(s, c)
    requires i < j < |s.subs| && s.subs[i].client == c && !IsOver(s.subs[i].phase)
    requires s.subs[i].queue != s.clients[c].queue
    ensures Reaches(o, t, c) && Inv(t) && IsReading(t, c) && s.subs[i].event !in t.clients[c].subscriptions
    ensures j < |t.subs| && t.subs[j] == s.subs[j]
  {
    assert SubShape(s, s.subs[i]);
    t := Go(o, s, DoClose(s.subs[i].queue), c);
    assert IsShutOut(t, i, c) && IsReading(t, c);
    t := Abandon(o, t, c, i, v);
  }

  lemma Registered<V>(s: State<V>, c: ClientId, e: EventId)
    requires Shape(s) && c in s.clients && e !in s.clients[c].subscriptions
    ensures var t := Register(s, c, e);
            && |t.subs| == |s.subs| + 1 && (forall i | 0 <= i < |s.subs| :: t.subs[i] == s.subs[i])
            && IsLive(t.subs[|s.subs|], c) && t.subs[|s.subs|].event == e
            && c in t.clients && t.clients[c].queue == s.clients[c].queue && t.queues == s.queues
  {}

  // ----- how a task whose channel is closed comes to clean up -----

  /** Task `i` of client `c` is not over, and its client channel is closed. */
  ghost predicate IsShutOut<V>(s: State<V>, i: nat, c: ClientId) {
    && i < |s.subs| && s.subs[i].client == c && !IsOver(s.subs[i].phase)
    && s.subs[i].queue < |s.queues| && !s.queues[s.subs[i].queue].open
  }

  /** Of clients, streams and subscriptions nothing changed but task `i`, which is still shut out. */
  ghost predicate OnlyTask<V>(s: State<V>, t: State<V>, i: nat, c: ClientId) {
    && t.clients == s.clients && t.queues == s.queues && |t.subs| == |s.subs|
    && (forall j | 0 <= j < |s.subs| && j != i :: t.subs[j] == s.subs[j])
    && IsShutOut(s, i, c) && IsShutOut(t, i, c) && t.subs[i].event == s.subs[i].event
  }

  lemma PublishSupplies<V>(s: State<V>, i: nat, c: ClientId, v: V)
    requires Shape(s) && IsShutOut(s, i, c) && s.subs[i].phase == Serving && SubAttached(s, s.subs[i])
    ensures var t := Publish(s, s.subs[i].event, v);
            && OnlyTask(s, t, i, c) && t.subs == s.subs && |t.channels| == |s.channels|
            && (CanTake(t, i) || CanLag(t, i))
  {
    assert HasReceiver(s, s.subs[i].channel);
    assert SubShape(s, s.subs[i]);
  }

  lemma LagSupplies<V>(s: State<V>, i: nat, c: ClientId)
    requires s.publishCapacity > 0 && IsShutOut(s, i, c) && CanLag(s, i)
    ensures OnlyTask(s, Lag(s, i), i, c) && CanTake(Lag(s, i), i)
  {}

  lemma TakeLeads<V>(s: State<V>, i: nat, c: ClientId)
    requires IsShutOut(s, i, c) && CanTake(s, i)
    ensures OnlyTask(s, Take(s, i), i, c) && CanOffer(Take(s, i), i)
  {}

  lemma OfferLeads<V>(s: State<V>, i: nat, c: ClientId)
    requires IsShutOut(s, i, c) && CanOffer(s, i)
    ensures OnlyTask(s, Offer(s, i), i, c) && CanCleanUp(Offer(s, i), i)
  {}

  /** A publication, and a lag if that overtakes the receiver, gives the task something to take. */
  lemma Supply<V(!new)>(o: State<V>, s: State<V>, c: ClientId, i: nat, v: V) returns (t: State<V>)
    requires Reaches(o, s, c) && Inv(s) && IsShutOut(s, i, c) && s.subs[i].phase == Serving
    ensures Reaches(o, t, c) && Inv(t) && OnlyTask(s, t, i, c) && CanTake(t, i)
  {
    assert SubAttached(s, s.subs[i]);
    PublishSupplies(s, i, c, v);
    t := Go(o, s, DoPublish(s.subs[i].event, v), c);
    if CanLag(t, i) {
      LagSupplies(t, i, c);
      t := Go(o, t, DoLag(i), c);
    }
  }

  /** The task takes an event. */
  lemma GetHold<V(!new)>(o: State<V>, s: State<V>, c: ClientId, i: nat, v: V) returns (t: State<V>)
    requires Reaches(o, s, c) && Inv(s) && IsShutOut(s, i, c) && s.subs[i].phase == Serving
    ensures Reaches(o, t, c) && Inv(t) && OnlyTask(s, t, i, c) && t.subs[i].phase == Offering
  {
    t := Supply(o, s, c, i, v);
    TakeLeads(t, i, c);
    t := Go(o, t, DoTake(i), c);
  }

  /** The task with an event in hand finds its client gone. */
  lemma FindOut<V(!new)>(o: State<V>, s: State<V>, c: ClientId, i: nat) returns (t: State<V>)
    requires Reaches(o, s, c) && Inv(s) && IsShutOut(s, i, c) && s.subs[i].phase == Offering
    ensures Reaches(o, t, c) && Inv(t) && OnlyTask(s, t, i, c) && CanCleanUp(t, i)
  {
    assert SubHolds(s.subs[i]);
    OfferLeads(s, i, c);
    t := Go(o, s, DoOffer(i), c);
  }

  lemma Stranded<V(!new)>(o: State<V>, s: State<V>, c: ClientId, i: nat, v: V) returns (t: State<V>)
    requires Reaches(o, s, c) && Inv(s) && IsShutOut(s, i, c)
    ensures Reaches(o, t, c) && Inv(t) && OnlyTask(s, t, i, c) && CanCleanUp(t, i)
  {
    t := s;
    if t.subs[i].phase == Serving { t := GetHold(o, t, c, i, v); }
    if t.subs[i].phase == Offering { t := FindOut(o, t, c, i); }
  }

  /** A task whose client channel is closed can go on to take its event off the record. */
  lemma Abandon<V(!new)>(o: State<V>, s: State<V>, c: ClientId, i: nat, v: V) returns (t: State<V>)
    requires Reaches(o, s, c) && Inv(s) && IsShutOut(s, i, c) && c in s.clients
    ensures Reaches(o, t, c) && Inv(t)
    ensures t.queues == s.queues && |t.subs| == |s.subs|
    ensures forall j | 0 <= j < |s.subs| && j != i :: t.subs[j] == s.subs[j]
    ensures t.clients == s.clients[c := Client(s.clients[c].queue, s.clients[c].subscriptions - {s.subs[i].event})]
  {
    t := Stranded(o, s, c, i, v);
    t := Go(o, t, DoCleanUp(i), c);
  }

  /** Such an opening is within reach: a client that opens its id again while it holds a
      subscription, and subscribes again, holds two for one event. */
  lemma ReopeningDuplicates<V>() returns (states: seq<State<V>>, steps: seq<Step<V>>)
    ensures IsRun(states, steps)
    ensures var s := states[|steps|];
            && |s.subs| == 2 && s.subs[0].event == s.subs[1].event
            && IsLive(s.subs[0], "c") && IsLive(s.subs[1], "c")
  {
    states, steps := SubscribedRun();
    states, steps := Extend(states, steps, DoOpen("c"));
    assert states[3].senders == map["e" := 0] && states[3].clients == map["c" := Client(1, map[])];
    states, steps := Extend(states, steps, DoRegister("c", "e"));
  }
}
