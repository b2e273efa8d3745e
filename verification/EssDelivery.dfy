/** What becomes of every publication on its way to a subscriber: when a task can take it or
    must lag over it, when the client channel accepts it, and when it is lost. */
module EssDelivery {
  import opened Ess
  import opened EssInvariant
  import opened EssTheorems

  // ----- taking and lagging -----

  /** How many publications since its registration a subscription has yet to consume. */
  function Unread<V>(s: State<V>, sub: Subscription<V>): int {
    |History(s, sub.event)| - sub.base - Consumed(sub)
  }

  lemma UnreadInChannel<V>(s: State<V>, sub: Subscription<V>)
    requires SubShape(s, sub) && SubTracks(s, sub) && sub.phase != Ended
    ensures Unread(s, sub) == |s.channels[sub.channel]| - sub.position
  {
    assert |History(s, sub.event)[sub.base..]| == |s.channels[sub.channel][sub.start..]|;
  }

  /** A serving task can take the next event exactly while no more events wait for it than the
      channel retains, and has to lag exactly when more do. */
  lemma TakesOrLags<V>(states: seq<State<V>>, steps: seq<Step<V>>, k: nat, i: nat)
    requires IsRun(states, steps) && k <= |steps| && i < |states[k].subs| && states[k].subs[i].phase == Serving
    ensures var s := states[k]; var unread := Unread(s, s.subs[i]);
            && 0 <= unread
            && (Enabled(s, DoTake(i)) <==> 1 <= unread <= s.publishCapacity)
            && (Enabled(s, DoLag(i)) <==> unread > s.publishCapacity)
  {
    RunKeeps(states, steps, k);
    UnreadInChannel(states[k], states[k].subs[i]);
  }

  /** A lag step skips exactly the events that were overwritten, by the amount it reports, and
      leaves as many to take as the channel retains. */
  lemma LagIsExact<V>(s: State<V>, i: nat)
    requires Inv(s) && CanLag(s, i)
    ensures var t := Lag(s, i); var before, after := s.subs[i], t.subs[i];
            && (forall o: nat :: o in after.lagged <==> o in before.lagged || (Consumed(before) < o && IsOverwritten(s, before, o)))
            && Consumed(after) == Consumed(before) + LagAmount(s, i)
            && Unread(t, after) == t.publishCapacity
            && after.handed == before.handed
            && CanTake(t, i)
  {
    UnreadInChannel(s, s.subs[i]);
  }

  /** Nothing but what it waits for ever holds a step up: operations on known clients are
      always possible, and so is the next step of a task that is past taking an event. */
  lemma NothingElseBlocks<V>(states: seq<State<V>>, steps: seq<Step<V>>, k: nat, i: nat, c: ClientId, e: EventId, v: V)
    requires IsRun(states, steps) && k <= |steps|
    ensures var s := states[k];
            && Enabled(s, DoPublish(e, v)) && Enabled(s, DoOpen(c)) && Enabled(s, DoSweep(e))
            && (c in s.clients ==> Enabled(s, DoRegister(c, e)) && Enabled(s, DoRevoke(c, e)))
            && (i < |s.subs| ==>
                  match s.subs[i].phase
                  case Serving => s.subs[i].cancelled ==> Enabled(s, DoCancel(i))
                  case Offering => Enabled(s, DoOffer(i))
                  case Abandoning => Enabled(s, DoCleanUp(i))
                  case Leaving => Enabled(s, DoLeave(i))
                  case Ended => true)
  {
    RunKeeps(states, steps, k);
    if i < |states[k].subs| {
      assert SubHolds(states[k].subs[i]) && SubShape(states[k], states[k].subs[i]);
    }
  }

  // ----- offering -----

  /** What the client channel of a subscription makes of the next offer: it is accepted if the
      client still reads and fewer events than the channel holds are unread, dropped if the
      client reads and the channel is full, and abandoned if the client is gone. */
  ghost predicate Deserves<V>(s: State<V>, q: nat, fate: Fate) {
    && q < |s.queues|
    && var queue := s.queues[q]; var unread := |queue.accepted| - |queue.received|;
       match fate
       case InHand => false
       case Accepted => queue.open && 0 <= unread < s.clientCapacity
       case DroppedFull => queue.open && unread == s.clientCapacity
       case Abandoned => !queue.open
  }

  lemma DeservedIsUnique<V>(s: State<V>, q: nat, a: Fate, b: Fate)
    requires Deserves(s, q, a) && Deserves(s, q, b)
    ensures a == b
  {}

  /** Step `m` offered the closure call number `j` of a task. */
  ghost predicate OfferedAt<V>(states: seq<State<V>>, steps: seq<Step<V>>, m: nat, i: nat, j: nat) {
    m < |steps| && m < |states| && steps[m] == DoOffer(i) && i < |states[m].subs| && |states[m].subs[i].handed| == j + 1
  }

  lemma OfferIsDeserved<V>(s: State<V>, i: nat)
    requires Inv(s) && CanOffer(s, i)
    ensures var before, after := s.subs[i].handed, Offer(s, i).subs[i].handed;
            && |after| == |before| && after[..|before| - 1] == before[..|before| - 1]
            && Deserves(s, s.subs[i].queue, after[|before| - 1].fate)
  {
    assert QueueOk(s, s.subs[i].queue);
  }

  /** Every offer has exactly the fate that the client channel's state calls for. */
  lemma OfferFate<V>(states: seq<State<V>>, steps: seq<Step<V>>, m: nat, i: nat, j: nat, fate: Fate)
    requires IsRun(states, steps) && OfferedAt(states, steps, m, i, j)
    ensures i < |states[m + 1].subs| && |states[m + 1].subs[i].handed| == j + 1
    ensures states[m + 1].subs[i].handed[j].fate == fate <==> Deserves(states[m], states[m].subs[i].queue, fate)
  {
    RunKeeps(states, steps, m);
    OfferIsDeserved(states[m], i);
    var given := states[m + 1].subs[i].handed[j].fate;
    if Deserves(states[m], states[m].subs[i].queue, fate) {
      DeservedIsUnique(states[m], states[m].subs[i].queue, given, fate);
    }
  }

  /** How a closure call comes to be as it is: it was so before the step, or the step offered
      it, or the step made it. */
  lemma StepHanded<V>(s: State<V>, step: Step<V>, t: State<V>, i: nat, j: nat)
    requires Enabled(s, step) && t == Apply(s, step)
    requires i < |t.subs| && j < |t.subs[i].handed|
    ensures i < |s.subs|
    ensures || (j < |s.subs[i].handed| && t.subs[i].handed[j] == s.subs[i].handed[j])
            || (step == DoOffer(i) && |s.subs[i].handed| == j + 1)
            || t.subs[i].handed[j].fate == InHand
  {
    if IsTaskStep(step) { TaskStepLeaves(s, step); } else { CallStepHanded(s, step, i); }
  }

  lemma CallStepHanded<V>(s: State<V>, step: Step<V>, i: nat)
    requires Enabled(s, step) && !IsTaskStep(step) && i < |Apply(s, step).subs|
    ensures if i < |s.subs| then Apply(s, step).subs[i].handed == s.subs[i].handed else Apply(s, step).subs[i].handed == []
  {
    if step.DoRegister? && i < |s.subs| { RegisterContinues(s, step.c, step.e, i); }
  }

  /** Some earlier step offered the call and gave it that fate, deservedly. */
  ghost predicate WasDeserved<V>(states: seq<State<V>>, steps: seq<Step<V>>, k: nat, i: nat, j: nat, fate: Fate) {
    exists m: nat :: m < k && OfferedAt(states, steps, m, i, j) && Deserves(states[m], states[m].subs[i].queue, fate)
  }

  /** Every closure call that is no longer in hand was offered, and has the fate that the state
      of its client channel called for at that moment: a call was dropped only when the client
      had a full channel of events to read, and abandoned only when it had gone. */
  lemma {:induction false} FatesAreDeserved<V>(states: seq<State<V>>, steps: seq<Step<V>>, k: nat, i: nat, j: nat)
    requires IsRun(states, steps) && k <= |steps| && i < |states[k].subs| && j < |states[k].subs[i].handed|
    ensures var fate := states[k].subs[i].handed[j].fate;
            fate != InHand ==> WasDeserved(states, steps, k, i, j, fate)
  {
    if k > 0 && states[k].subs[i].handed[j].fate != InHand {
      var fate := states[k].subs[i].handed[j].fate;
      StepHanded(states[k - 1], steps[k - 1], states[k], i, j);
      if j < |states[k - 1].subs[i].handed| && states[k].subs[i].handed[j] == states[k - 1].subs[i].handed[j] {
        FatesAreDeserved(states, steps, k - 1, i, j);
        var m: nat :| m < k - 1 && OfferedAt(states, steps, m, i, j) && Deserves(states[m], states[m].subs[i].queue, fate);
      } else {
        OfferFate(states, steps, k - 1, i, j, fate);
      }
    }
  }

  // ----- nothing is lost without a reason -----

  lemma {:induction false} SentHas<V>(handed: seq<Handed<V>>, i: nat, source: EventId, j: nat)
    requires j < |handed| && handed[j].fate == Accepted
    ensures ClientEvent(i, source, handed[j].event, handed[j].number) in Sent(handed, i, source)
  {
    if j < |handed| - 1 { SentHas(handed[..|handed| - 1], i, source, j); }
  }

  lemma {:induction false} ProjectionIsFrom<V>(stream: seq<ClientEvent<V>>, i: nat, x: ClientEvent<V>)
    requires x in Projection(stream, i)
    ensures x in stream
  {
    var front := stream[..|stream| - 1];
    if x in Projection(front, i) { ProjectionIsFrom(front, i, x); }
  }

  /** What became of the `j`-th closure call of a task. */
  ghost predicate CallExplained<V>(states: seq<State<V>>, steps: seq<Step<V>>, k: nat, i: nat, j: nat)
    requires k < |states| && i < |states[k].subs| && j < |states[k].subs[i].handed|
  {
    var sub := states[k].subs[i];
    var h := sub.handed[j];
    match h.fate
    case InHand => sub.phase == Offering && j == |sub.handed| - 1
    case Accepted =>
      && WasDeserved(states, steps, k, i, j, Accepted)
      && sub.queue < |states[k].queues|
      && ClientEvent(i, sub.event, h.event, h.number) in states[k].queues[sub.queue].accepted
    case _ => WasDeserved(states, steps, k, i, j, h.fate)
  }

  lemma CallIsExplained<V>(states: seq<State<V>>, steps: seq<Step<V>>, k: nat, i: nat, j: nat)
    requires IsRun(states, steps) && k <= |steps| && i < |states[k].subs| && j < |states[k].subs[i].handed|
    ensures CallExplained(states, steps, k, i, j)
  {
    var sub := states[k].subs[i];
    FatesAreDeserved(states, steps, k, i, j);
    StreamIsWhatWasSent(states, steps, k, i);
    if sub.handed[j].fate == Accepted {
      SentHas(sub.handed, i, sub.event, j);
      ProjectionIsFrom(states[k].queues[sub.queue].accepted, i,
                       ClientEvent(i, sub.event, sub.handed[j].event, sub.handed[j].number));
    }
  }

  /** Every publication a subscription has consumed is accounted for: it was lagged over, and
      then it had been overwritten; or it was handed to the closure, and then it is on the
      client's stream, or was dropped on a full channel, or met a client that had gone, or is
      the one in hand. */
  lemma NothingIsLostWithoutReason<V>(states: seq<State<V>>, steps: seq<Step<V>>, k: nat, i: nat, o: nat)
    requires IsRun(states, steps) && k <= |steps| && i < |states[k].subs|
    requires 1 <= o <= Consumed(states[k].subs[i])
    ensures var sub := states[k].subs[i];
            || (o in sub.lagged && IsOverwritten(states[k], sub, o))
            || exists j: nat :: j < |sub.handed| && sub.handed[j].ordinal == o && CallExplained(states, steps, k, i, j)
  {
    var sub := states[k].subs[i];
    HandedOrLagged(states, steps, k, i);
    if o in sub.lagged {
      RunLedger(states, steps, k, i);
    } else {
      var h :| h in sub.handed && h.ordinal == o;
      var j :| 0 <= j < |sub.handed| && sub.handed[j] == h;
      CallIsExplained(states, steps, k, i, j);
    }
  }
}
