/** Whatever is done with an event sub-system object is a run of the protocol, so what is proved
    of all runs holds of the object. */
module EventSubSystemRuns {
  import opened Types
  import opened Ess
  import opened EssInvariant
  import opened EssTheorems
  import opened EventSubSystem

  /** What callers, serving tasks and clients do with the object.  A turn of a task that no
      longer serves, and a use of a stream that is not open, are nothing. */
  datatype Call<V> =
    | CallPublish(e: EventId, v: V)
    | CallReadEvents(c: ClientId)
    | CallRegister(c: ClientId, ids: seq<EventId>)
    | CallDeregister(c: ClientId, ids: seq<EventId>)
    | TaskTurn(i: nat, cancelFirst: bool)
    | ClientReads(q: nat)
    | ClientCloses(q: nat)

  /** The values that a history of calls published to an event id. */
  function PublishedBy<V>(calls: seq<Call<V>>, e: EventId): seq<V> {
    if calls == [] then []
    else
      var last := calls[|calls| - 1];
      var before := PublishedBy(calls[..|calls| - 1], e);
      if last.CallPublish? && last.e == e then before + [last.v] else before
  }

  /** A run and the state it has led to. */
  ghost predicate Led<V>(states: seq<State<V>>, steps: seq<Step<V>>, s: State<V>) {
    IsRun(states, steps) && states[|steps|] == s
  }

  lemma Goes<V>(states: seq<State<V>>, steps: seq<Step<V>>, s: State<V>, step: Step<V>)
    returns (states': seq<State<V>>, steps': seq<Step<V>>)
    requires Led(states, steps, s) && Enabled(s, step)
    ensures Led(states', steps', Apply(s, step))
    ensures forall e :: Published(steps', e) ==
                        if step.DoPublish? && step.e == e then Published(steps, e) + [step.v] else Published(steps, e)
  {
    states', steps' := Extend(states, steps, step);
    assert steps'[..|steps|] == steps;
  }

  lemma LedKeeps<V>(states: seq<State<V>>, steps: seq<Step<V>>, s: State<V>)
    requires Led(states, steps, s)
    ensures Inv(s) && InArena(s)
  {
    RunKeeps(states, steps, |steps|);
  }

  lemma {:induction false} Registrations<V>(states: seq<State<V>>, steps: seq<Step<V>>, s: State<V>, c: ClientId,
                                            ids: seq<EventId>)
    returns (states': seq<State<V>>, steps': seq<Step<V>>)
    requires Led(states, steps, s) && InArena(s) && c in s.clients
    ensures Led(states', steps', RegisterAll(s, c, ids))
    ensures forall e :: Published(steps', e) == Published(steps, e)
    decreases |ids|
  {
    if ids == [] {
      states', steps' := states, steps;
    } else {
      var front, e := ids[..|ids| - 1], ids[|ids| - 1];
      states', steps' := Registrations(states, steps, s, c, front);
      states', steps' := Goes(states', steps', RegisterAll(s, c, front), DoRegister(c, e));
    }
  }

  lemma OneDeregistration<V>(states: seq<State<V>>, steps: seq<Step<V>>, s: State<V>, c: ClientId, e: EventId)
    returns (states': seq<State<V>>, steps': seq<Step<V>>)
    requires Led(states, steps, s) && InArena(s) && c in s.clients
    ensures Led(states', steps', Deregister(s, c, e))
    ensures forall f :: Published(steps', f) == Published(steps, f)
  {
    states', steps' := Goes(states, steps, s, DoRevoke(c, e));
    if e in s.clients[c].subscriptions {
      states', steps' := Goes(states', steps', Revoke(s, c, e), DoSweep(e));
    }
  }

  lemma {:induction false} Deregistrations<V>(states: seq<State<V>>, steps: seq<Step<V>>, s: State<V>, c: ClientId,
                                              ids: seq<EventId>)
    returns (states': seq<State<V>>, steps': seq<Step<V>>)
    requires Led(states, steps, s) && InArena(s) && c in s.clients
    ensures Led(states', steps', DeregisterAll(s, c, ids))
    ensures forall e :: Published(steps', e) == Published(steps, e)
    decreases |ids|
  {
    if ids == [] {
      states', steps' := states, steps;
    } else {
      var front, e := ids[..|ids| - 1], ids[|ids| - 1];
      states', steps' := Deregistrations(states, steps, s, c, front);
      states', steps' := OneDeregistration(states', steps', DeregisterAll(s, c, front), c, e);
    }
  }

  /** A turn in which the task received an event: two steps, or four if its client is gone. */
  lemma HandingOver<V>(states: seq<State<V>>, steps: seq<Step<V>>, s: State<V>, i: nat, gone: bool)
    returns (states': seq<State<V>>, steps': seq<Step<V>>)
    requires Led(states, steps, s) && CanTake(s, i) && CanOffer(Take(s, i), i)
    requires gone ==> CanCleanUp(Offer(Take(s, i), i), i) && CanLeave(CleanUp(Offer(Take(s, i), i), i), i)
    ensures Led(states', steps', if gone then Leave(CleanUp(Offer(Take(s, i), i), i), i) else Offer(Take(s, i), i))
    ensures forall e :: Published(steps', e) == Published(steps, e)
  {
    states', steps' := Goes(states, steps, s, DoTake(i));
    states', steps' := Goes(states', steps', Take(s, i), DoOffer(i));
    if gone {
      states', steps' := Goes(states', steps', Offer(Take(s, i), i), DoCleanUp(i));
      states', steps' := Goes(states', steps', CleanUp(Offer(Take(s, i), i), i), DoLeave(i));
    }
  }

  /** One turn of a task, as steps of a run. */
  method TakeTurn<V>(ess: EventSubSystem<V>, i: nat, cancelFirst: bool, ghost states: seq<State<V>>, ghost steps: seq<Step<V>>)
    returns (ghost states': seq<State<V>>, ghost steps': seq<Step<V>>)
    requires Led(states, steps, ess.View()) && i < |ess.subs| && ess.subs[i].phase == Serving
    modifies ess
    ensures Led(states', steps', ess.View())
    ensures forall e :: Published(steps', e) == Published(steps, e)
  {
    LedKeeps(states, steps, ess.View());
    ghost var s := ess.View();
    var turn := ess.ServeTurn(i, cancelFirst);
    match turn {
      case Pending => states', steps' := states, steps;
      case Revoked => states', steps' := Goes(states, steps, s, DoCancel(i));
      case HandedOver => states', steps' := HandingOver(states, steps, s, i, false);
      case Lagged(_) => states', steps' := Goes(states, steps, s, DoLag(i));
      case ClientGone => states', steps' := HandingOver(states, steps, s, i, true);
      case Disconnected =>
        ClosedIsUnreachable(states, steps, |steps|, i);
        assert false;
    }
  }

  /** One call on the object, as steps of a run. */
  method Submit<V>(ess: EventSubSystem<V>, call: Call<V>, ghost states: seq<State<V>>, ghost steps: seq<Step<V>>)
    returns (ghost states': seq<State<V>>, ghost steps': seq<Step<V>>)
    requires Led(states, steps, ess.View())
    modifies ess
    ensures Led(states', steps', ess.View())
    ensures forall e :: Published(steps', e) ==
                        if call.CallPublish? && call.e == e then Published(steps, e) + [call.v] else Published(steps, e)
  {
    LedKeeps(states, steps, ess.View());
    states', steps' := states, steps;
    ghost var s := ess.View();
    match call {
      case CallPublish(e, v) =>
        var _ := ess.Publish(e, v);
        states', steps' := Goes(states, steps, s, DoPublish(e, v));
      case CallReadEvents(c) =>
        var _ := ess.ReadEvents(c);
        states', steps' := Goes(states, steps, s, DoOpen(c));
      case CallRegister(c, ids) =>
        var r := ess.RegisterSubscriptions(c, ids);
        if r.Some? { states', steps' := Registrations(states, steps, s, c, ids); }
      case CallDeregister(c, ids) =>
        var reading := ess.DeregisterSubscriptions(c, ids);
        if reading { states', steps' := Deregistrations(states, steps, s, c, ids); }
      case TaskTurn(i, cancelFirst) =>
        if i < |ess.subs| && ess.subs[i].phase == Serving {
          states', steps' := TakeTurn(ess, i, cancelFirst, states, steps);
        }
      case ClientReads(q) =>
        if q < |ess.queues| && ess.queues[q].open {
          var event := ess.ReadNext(q);
          if event.Some? { states', steps' := Goes(states, steps, s, DoRead(q)); }
        }
      case ClientCloses(q) =>
        if q < |ess.queues| {
          ess.CloseStream(q);
          states', steps' := Goes(states, steps, s, DoClose(q));
        }
    }
  }

  /** Any history of calls, turns and reads on a new object is a run that ends in its state
      and publishes what the calls published. */
  method Replay<V>(ess: EventSubSystem<V>, calls: seq<Call<V>>)
    returns (ghost states: seq<State<V>>, ghost steps: seq<Step<V>>)
    requires ess.publishBufferSize > 0 && ess.clientBufferSize > 0
    requires ess.View() == Initial(ess.publishBufferSize, ess.clientBufferSize)
    modifies ess
    ensures Led(states, steps, ess.View())
    ensures forall e :: Published(steps, e) == PublishedBy(calls, e)
  {
    states, steps := [ess.View()], [];
    for n := 0 to |calls|
      invariant Led(states, steps, ess.View())
      invariant forall e :: Published(steps, e) == PublishedBy(calls[..n], e)
    {
      assert calls[..n + 1][..n] == calls[..n];
      states, steps := Submit(ess, calls[n], states, steps);
    }
    assert calls[..|calls|] == calls;
  }
}
