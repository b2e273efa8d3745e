/** The event sub-system object and the operations its callers, tasks and clients see.  Every
    operation is proved to be one step, or a series of steps, of the protocol in module Ess;
    module EventSubSystemRuns puts them together. */
module EventSubSystem {
  import opened Types
  import opened Ess
  import opened EssInvariant

  datatype UpsertResult = Inserted | Updated

  /** How one turn of the serving loop went. */
  datatype Turn = Pending | Revoked | HandedOver | Lagged(amount: nat) | ClientGone | Disconnected

  /** Sender entries and cancellation tokens point into their arenas: the part of the
      invariant that the operations themselves lean on. */
  ghost predicate InArena<V>(s: State<V>) {
    && (forall e | e in s.senders :: s.senders[e] < |s.channels|)
    && (forall c, e | c in s.clients && e in s.clients[c].subscriptions :: s.clients[c].subscriptions[e] < |s.subs|)
  }

  /** The registration loop, as a fold of single registrations. */
  ghost function RegisterAll<V>(s: State<V>, c: ClientId, ids: seq<EventId>): (r: State<V>)
    requires InArena(s) && c in s.clients
    ensures InArena(r) && c in r.clients
  {
    if ids == [] then s else Register(RegisterAll(s, c, ids[..|ids| - 1]), c, ids[|ids| - 1])
  }

  ghost function Deregister<V>(s: State<V>, c: ClientId, e: EventId): (r: State<V>)
    requires InArena(s) && c in s.clients
    ensures InArena(r) && c in r.clients
  {
    var revoked := Revoke(s, c, e);
    if e in s.clients[c].subscriptions then Sweep(revoked, e) else revoked
  }

  /** The deregistration loop, as a fold of single deregistrations. */
  ghost function DeregisterAll<V>(s: State<V>, c: ClientId, ids: seq<EventId>): (r: State<V>)
    requires InArena(s) && c in s.clients
    ensures InArena(r) && c in r.clients
  {
    if ids == [] then s else Deregister(DeregisterAll(s, c, ids[..|ids| - 1]), c, ids[|ids| - 1])
  }

  /** The loops are runs of protocol steps, so they keep what every step keeps. */
  lemma {:induction false} LoopsKeep<V>(s: State<V>, c: ClientId, ids: seq<EventId>)
    requires Inv(s) && c in s.clients
    ensures Inv(RegisterAll(s, c, ids)) && Inv(DeregisterAll(s, c, ids))
  {
    if ids != [] {
      var front, e := ids[..|ids| - 1], ids[|ids| - 1];
      LoopsKeep(s, c, front);
      RegisterKeeps(RegisterAll(s, c, front), c, e);
      RevokeKeeps(DeregisterAll(s, c, front), c, e);
      SweepKeeps(Revoke(DeregisterAll(s, c, front), c, e), e);
    }
  }

  /** The requested ids that are not subscribed yet, each at its first mention. */
  function FirstMentions(subscribed: set<EventId>, ids: seq<EventId>): (r: seq<EventId>)
    ensures forall e :: e in r <==> e in ids && e !in subscribed
    ensures forall j, k | 0 <= j < k < |r| :: r[j] != r[k]
  {
    if ids == [] then []
    else
      var before := FirstMentions(subscribed, ids[..|ids| - 1]);
      var e := ids[|ids| - 1];
      if e in subscribed || e in ids[..|ids| - 1] then before else before + [e]
  }

  ghost predicate IsFresh<V>(sub: Subscription<V>, c: ClientId, e: EventId) {
    sub.client == c && sub.event == e && sub.handed == [] && sub.phase == Serving && !sub.cancelled
  }

  lemma RegisterEffect<V>(s: State<V>, c: ClientId, e: EventId)
    requires InArena(s) && c in s.clients
    ensures var r := Register(s, c, e);
            && GetSubscriptions(r, c) == GetSubscriptions(s, c) + {e}
            && if e in GetSubscriptions(s, c) then r.subs == s.subs
               else |r.subs| == |s.subs| + 1 && r.subs[..|s.subs|] == s.subs && IsFresh(r.subs[|s.subs|], c, e)
  {}

  /** A registration call subscribes the client to everything it named and makes one new
      subscription per id that was not subscribed, in the order they were first named. */
  lemma {:induction false} RegisterAllEffect<V>(s: State<V>, c: ClientId, ids: seq<EventId>)
    requires InArena(s) && c in s.clients
    ensures var r := RegisterAll(s, c, ids); var added := FirstMentions(GetSubscriptions(s, c), ids);
            && (forall e :: e in GetSubscriptions(r, c) <==> e in GetSubscriptions(s, c) || e in ids)
            && |r.subs| == |s.subs| + |added|
            && (forall j | 0 <= j < |s.subs| :: r.subs[j] == s.subs[j])
            && (forall j | 0 <= j < |added| :: IsFresh(r.subs[|s.subs| + j], c, added[j]))
  {
    if ids != [] {
      var front, e := ids[..|ids| - 1], ids[|ids| - 1];
      var before := RegisterAll(s, c, front);
      RegisterAllEffect(s, c, front);
      RegisterEffect(before, c, e);
      assert forall f :: f in ids <==> f in front || f == e;
      var r := Register(before, c, e);
      var added := FirstMentions(GetSubscriptions(s, c), ids);
      forall j | 0 <= j < |s.subs| ensures r.subs[j] == s.subs[j] {
        assert before.subs[j] == s.subs[j] && r.subs[..|before.subs|][j] == before.subs[j];
      }
      forall j | 0 <= j < |added| ensures IsFresh(r.subs[|s.subs| + j], c, added[j]) {
        if |s.subs| + j < |before.subs| {
          assert r.subs[..|before.subs|][|s.subs| + j] == before.subs[|s.subs| + j];
        }
      }
    }
  }

  lemma DeregisterEffect<V>(s: State<V>, c: ClientId, e: EventId)
    requires InArena(s) && c in s.clients
    ensures var r := Deregister(s, c, e);
            && |r.subs| == |s.subs|
            && r.clients[c].subscriptions == s.clients[c].subscriptions - {e}
            && (forall i | 0 <= i < |s.subs| && s.subs[i].cancelled :: r.subs[i].cancelled)
            && (e in GetSubscriptions(s, c) ==> r.subs[s.clients[c].subscriptions[e]].cancelled)
            && (e in GetSubscriptions(s, c) && e in r.senders ==> HasReceiver(r, r.senders[e]))
  {}

  /** A deregistration call leaves the client subscribed to exactly the rest, and cancels
      the token of everything it named. */
  lemma {:induction false} DeregisterAllEffect<V>(s: State<V>, c: ClientId, ids: seq<EventId>)
    requires InArena(s) && c in s.clients
    ensures var r := DeregisterAll(s, c, ids);
            && |r.subs| == |s.subs|
            && (forall e :: e in GetSubscriptions(r, c) <==> e in GetSubscriptions(s, c) && e !in ids)
            && (forall e | e in GetSubscriptions(r, c) :: r.clients[c].subscriptions[e] == s.clients[c].subscriptions[e])
            && (forall i | 0 <= i < |s.subs| && s.subs[i].cancelled :: r.subs[i].cancelled)
            && (forall e | e in ids && e in GetSubscriptions(s, c) :: r.subs[s.clients[c].subscriptions[e]].cancelled)
  {
    if ids != [] {
      var front, e := ids[..|ids| - 1], ids[|ids| - 1];
      DeregisterAllEffect(s, c, front);
      var before := DeregisterAll(s, c, front);
      DeregisterEffect(before, c, e);
      assert forall f :: f in ids <==> f in front || f == e;
      forall f | f in ids && f in GetSubscriptions(s, c)
        ensures DeregisterAll(s, c, ids).subs[s.clients[c].subscriptions[f]].cancelled
      {
        if f !in front {
          assert f == e && before.clients[c].subscriptions[e] == s.clients[c].subscriptions[e];
        }
      }
    }
  }

  class EventSubSystem<V> {
    const publishBufferSize: nat
    const clientBufferSize: nat
    var senderByEventId: map<EventId, nat>
    var clientById: map<ClientId, Client>
    var channels: seq<seq<V>>
    var queues: seq<Queue<V>>
    var subs: seq<Subscription<V>>
    var history: map<EventId, seq<V>>           // auxiliary, as in Ess.State
    var requested: map<ClientId, set<EventId>>  // auxiliary
    var overlapped: set<ClientId>                 // auxiliary

    function View(): State<V>
      reads this
    {
      State(publishBufferSize, clientBufferSize, senderByEventId, clientById, channels, queues, subs,
            history, requested, overlapped)
    }

    ghost predicate Healthy()
      reads this
    {
      Inv(View())
    }

    constructor (publishBufferSize: nat, clientBufferSize: nat)
      requires publishBufferSize > 0 && clientBufferSize > 0
      ensures View() == Initial(publishBufferSize, clientBufferSize) && Healthy()
    {
      this.publishBufferSize, this.clientBufferSize := publishBufferSize, clientBufferSize;
      senderByEventId, clientById, channels, queues, subs := map[], map[], [], [], [];
      history, requested, overlapped := map[], map[], {};
    }

    method Publish(e: EventId, v: V) returns (answer: bool)
      requires SenderInArena(View(), e)
      modifies this
      ensures View() == Ess.Publish(old(View()), e, v)
      ensures answer == (e in old(senderByEventId))
    {
      var s := View();
      history := history[e := History(s, e) + [v]];
      if e in senderByEventId {
        var channel := senderByEventId[e];
        if exists i | 0 <= i < |subs| :: subs[i].phase != Ended && subs[i].channel == channel {
          assert HasReceiver(s, channel);
          channels := channels[channel := channels[channel] + [v]];
        }
        answer := true;
      } else {
        answer := false;
      }
    }

    method ReadEvents(c: ClientId) returns (upsert: UpsertResult)
      modifies this
      ensures View() == Open(old(View()), c)
      ensures upsert == Updated <==> c in old(clientById)
    {
      requested := requested[c := {}];
      overlapped := if AllOver(View(), c) then overlapped - {c} else overlapped + {c};
      upsert := if c in clientById then Updated else Inserted;
      clientById := clientById[c := Client(|queues|, map[])];
      queues := queues + [Queue([], true, [], [])];
    }

    method RegisterSubscriptions(c: ClientId, ids: seq<EventId>) returns (r: Option<seq<nat>>)
      requires InArena(View())
      modifies this
      ensures InArena(View())
      ensures c !in old(clientById) ==> r == None && View() == old(View())
      ensures c in old(clientById) ==>
                && View() == RegisterAll(old(View()), c, ids)
                && r.Some? && |subs| == |old(subs)| + |r.value|
                && forall j | 0 <= j < |r.value| :: r.value[j] == |old(subs)| + j
    {
      if c !in clientById {
        return None;
      }
      var created: seq<nat> := [];
      ghost var s := View();
      assert s == RegisterAll(s, c, ids[..0]);
      for k := 0 to |ids|
        invariant c in clientById && View() == RegisterAll(s, c, ids[..k])
        invariant |subs| == |s.subs| + |created|
        invariant forall j | 0 <= j < |created| :: created[j] == |s.subs| + j
      {
        assert ids[..k + 1][..k] == ids[..k];
        var added := RegisterOne(c, ids[k]);
        created := created + added;
      }
      assert ids[..|ids|] == ids;
      r := Some(created);
    }

    /** One turn of the registration loop; returns the new subscription, if any. */
    method RegisterOne(c: ClientId, e: EventId) returns (created: seq<nat>)
      requires c in clientById && SenderInArena(View(), e)
      modifies this
      ensures View() == Register(old(View()), c, e)
      ensures |subs| == |old(subs)| + |created|
      ensures created == [] || created == [|old(subs)|]
    {
      created := [];
      if e !in clientById[c].subscriptions {
        if e !in senderByEventId {
          senderByEventId := senderByEventId[e := |channels|];
          channels := channels + [[]];
        }
        var client := clientById[c];
        var subscription := NewSubscription(View(), c, e);
        clientById := clientById[c := client.(subscriptions := client.subscriptions[e := |subs|])];
        created := [|subs|];
        subs := subs + [subscription];
      }
      requested := requested[c := Requested(View(), c) + {e}];
    }

    method GetSubscriptions(c: ClientId) returns (ids: set<EventId>)
      ensures ids == Ess.GetSubscriptions(View(), c)
    {
      if c in clientById {
        ids := clientById[c].subscriptions.Keys;
      } else {
        ids := {};
      }
    }

    method DeregisterSubscriptions(c: ClientId, ids: seq<EventId>) returns (reading: bool)
      requires InArena(View())
      modifies this
      ensures InArena(View())
      ensures reading == (c in old(clientById))
      ensures View() == if reading then DeregisterAll(old(View()), c, ids) else old(View())
    {
      if c !in clientById {
        return false;
      }
      ghost var s := View();
      assert s == DeregisterAll(s, c, ids[..0]);
      for k := 0 to |ids|
        invariant c in clientById && View() == DeregisterAll(s, c, ids[..k])
      {
        var e := ids[k];
        assert ids[..k + 1][..k] == ids[..k];
        label turn:
        requested := requested[c := Requested(View(), c) - {e}];
        var client := clientById[c];
        if e in client.subscriptions {
          var token := client.subscriptions[e];
          clientById := clientById[c := client.(subscriptions := client.subscriptions - {e})];
          subs := subs[token := subs[token].(cancelled := true)];
          assert View() == Revoke(old@turn(View()), c, e);
          if e in senderByEventId && !HasReceiver(View(), senderByEventId[e]) {
            senderByEventId := senderByEventId - {e};
          }
        }
        assert View() == Deregister(old@turn(View()), c, e);
      }
      assert ids[..|ids|] == ids;
      reading := true;
    }

    /** One turn of the serving loop of task `i`; `cancelFirst` is the coin the unbiased
        select tosses when both of its branches are ready. */
    method ServeTurn(i: nat, cancelFirst: bool) returns (turn: Turn)
      requires i < |subs| && subs[i].phase == Serving && SubShape(View(), subs[i])
      modifies this
      ensures match turn
              case Pending => View() == old(View()) && !subs[i].cancelled
                              && subs[i].position == |channels[subs[i].channel]|
              case Revoked => CanCancel(old(View()), i) && View() == Cancel(old(View()), i)
              case HandedOver => CanTake(old(View()), i) && CanOffer(Take(old(View()), i), i)
                                 && View() == Offer(Take(old(View()), i), i)
              case Lagged(amount) => CanLag(old(View()), i) && amount == LagAmount(old(View()), i)
                                     && View() == Lag(old(View()), i)
              case ClientGone => CanTake(old(View()), i) && CanOffer(Take(old(View()), i), i)
                                 && CanCleanUp(Offer(Take(old(View()), i), i), i)
                                 && CanLeave(CleanUp(Offer(Take(old(View()), i), i), i), i)
                                 && View() == Leave(CleanUp(Offer(Take(old(View()), i), i), i), i)
              case Disconnected => RecvClosed(old(View()), i)
                                   && View() == old(View()).(subs := old(subs)[i := old(subs[i]).(phase := Ended)])
    {
      var sub := subs[i];
      var log := channels[sub.channel];
      if sub.cancelled && (cancelFirst || sub.position == |log|) {
        subs := subs[i := sub.(phase := Ended)];
        turn := Revoked;
      } else if sub.position == |log| {
        if sub.channel in senderByEventId.Values {
          turn := Pending;
        } else {
          subs := subs[i := sub.(phase := Ended)];
          turn := Disconnected;
        }
      } else if sub.position < Oldest(View(), sub.channel) {
        var amount := Oldest(View(), sub.channel) - sub.position;
        var consumed := sub.position - sub.start;
        subs := subs[i := sub.(
          position := sub.position + amount,
          seqno := (sub.seqno + amount) % U64,
          lagged := sub.lagged + Between(consumed, consumed + amount))];
        turn := Lagged(amount);
      } else {
        turn := HandOver(i);
      }
    }

    /** The branch of a turn that receives an event. */
    method HandOver(i: nat) returns (turn: Turn)
      requires CanTake(View(), i) && subs[i].queue < |queues|
      modifies this
      ensures CanOffer(Take(old(View()), i), i)
      ensures turn == HandedOver || turn == ClientGone
      ensures turn == HandedOver ==> View() == Offer(Take(old(View()), i), i)
      ensures turn == ClientGone ==> CanCleanUp(Offer(Take(old(View()), i), i), i)
                                     && CanLeave(CleanUp(Offer(Take(old(View()), i), i), i), i)
                                     && View() == Leave(CleanUp(Offer(Take(old(View()), i), i), i), i)
    {
      TakeEvent(i);
      var fate := OfferEvent(i);
      if fate == Abandoned {
        RemoveFromRecord(i);
        subs := subs[i := subs[i].(phase := Ended)];
        turn := ClientGone;
      } else {
        turn := HandedOver;
      }
    }

    /** The task receives an event and calls its closure. */
    method TakeEvent(i: nat)
      requires CanTake(View(), i)
      modifies this
      ensures View() == Take(old(View()), i)
    {
      var sub := subs[i];
      var event := channels[sub.channel][sub.position];
      var number := (sub.seqno + 1) % U64;
      var handed := sub.handed + [Handed(sub.position + 1 - sub.start, number, event, InHand)];
      subs := subs[i := sub.(position := sub.position + 1, seqno := number, handed := handed, phase := Offering)];
    }

    /** The task offers what the closure made of it to the client. */
    method OfferEvent(i: nat) returns (fate: Fate)
      requires CanOffer(View(), i)
      modifies this
      ensures View() == Offer(old(View()), i)
      ensures fate == TrySend(old(View()), old(queues[subs[i].queue])) && (fate == Abandoned <==> CanCleanUp(View(), i))
    {
      var sub := subs[i];
      var held := sub.handed[|sub.handed| - 1];
      var q := queues[sub.queue];
      fate := TrySend(View(), q);
      if fate == Accepted {
        var entry := ClientEvent(i, sub.event, held.event, held.number);
        queues := queues[sub.queue := q.(buffer := q.buffer + [entry], accepted := q.accepted + [entry])];
      }
      subs := subs[i := sub.(handed := Settled(sub.handed, fate),
                             phase := if fate == Abandoned then Abandoning else Serving)];
    }

    /** The task that found its client gone takes its event off the client's record. */
    method RemoveFromRecord(i: nat)
      requires CanCleanUp(View(), i)
      modifies this
      ensures View() == CleanUp(old(View()), i)
    {
      var sub := subs[i];
      subs := subs[i := sub.(phase := Leaving)];
      if sub.client in clientById {
        var client := clientById[sub.client];
        clientById := clientById[sub.client := client.(subscriptions := client.subscriptions - {sub.event})];
      }
    }

    /** The client reads the next event of a stream it was given, if there is one. */
    method ReadNext(q: nat) returns (event: Option<ClientEvent<V>>)
      requires q < |queues| && queues[q].open
      modifies this
      ensures event.None? ==> old(queues[q].buffer) == [] && View() == old(View())
      ensures event.Some? ==> CanRead(old(View()), q) && event.value == old(queues[q].buffer[0])
                              && View() == Ess.Read(old(View()), q)
    {
      var queue := queues[q];
      if queue.buffer == [] {
        return None;
      }
      event := Some(queue.buffer[0]);
      queues := queues[q := queue.(buffer := queue.buffer[1..], received := queue.received + [queue.buffer[0]])];
    }

    /** The client drops a stream it was given. */
    method CloseStream(q: nat)
      requires q < |queues|
      modifies this
      ensures View() == Close(old(View()), q)
    {
      queues := queues[q := queues[q].(open := false, buffer := [])];
    }
  }
}
