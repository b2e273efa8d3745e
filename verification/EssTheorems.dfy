/** What holds over whole runs of the event sub-system, in every interleaving. */
module EssTheorems {
  import opened Ess
  import opened EssInvariant

  // ----- every reachable state satisfies the invariant -----

  lemma StepKeeps<V>(s: State<V>, step: Step<V>)
    requires Inv(s) && Enabled(s, step)
    ensures Inv(Apply(s, step))
  {
    match step
    case DoPublish(e, v) => PublishKeeps(s, e, v);
    case DoOpen(c) => OpenKeeps(s, c);
    case DoRegister(c, e) => RegisterKeeps(s, c, e);
    case DoRevoke(c, e) => RevokeKeeps(s, c, e);
    case DoSweep(e) => SweepKeeps(s, e);
    case DoTake(i) => TakeKeeps(s, i);
    case DoOffer(i) => OfferKeeps(s, i);
    case DoLag(i) => LagKeeps(s, i);
    case DoCancel(i) => CancelKeeps(s, i);
    case DoCleanUp(i) => CleanUpKeeps(s, i);
    case DoLeave(i) => LeaveKeeps(s, i);
    case DoRead(q) => ReadKeeps(s, q);
    case DoClose(q) => CloseKeeps(s, q);
  }

  lemma {:induction false} PathKeeps<V>(states: seq<State<V>>, steps: seq<Step<V>>, k: nat)
    requires IsPath(states, steps) && Inv(states[0]) && k <= |steps|
    ensures Inv(states[k])
  {
    if k > 0 {
      PathKeeps(states, steps, k - 1);
      StepKeeps(states[k - 1], steps[k - 1]);
    }
  }

  lemma RunKeeps<V>(states: seq<State<V>>, steps: seq<Step<V>>, k: nat)
    requires IsRun(states, steps) && k <= |steps|
    ensures Inv(states[k])
  {
    InvInitial<V>(states[0].publishCapacity, states[0].clientCapacity);
    PathKeeps(states, steps, k);
  }

  /** One more step. */
  lemma Extend<V>(states: seq<State<V>>, steps: seq<Step<V>>, step: Step<V>)
    returns (states': seq<State<V>>, steps': seq<Step<V>>)
    requires IsPath(states, steps) && Enabled(states[|steps|], step)
    ensures states' == states + [Apply(states[|steps|], step)] && steps' == steps + [step]
    ensures IsPath(states', steps')
  {
    states', steps' := states + [Apply(states[|steps|], step)], steps + [step];
  }

  // ----- the events a subscriber is handed -----

  /** The values published to an event id, in the order of the publishing steps. */
  function Published<V>(steps: seq<Step<V>>, e: EventId): seq<V> {
    if steps == [] then []
    else
      var last := steps[|steps| - 1];
      var before := Published(steps[..|steps| - 1], e);
      if last.DoPublish? && last.e == e then before + [last.v] else before
  }

  lemma PublishedBetween<V>(steps: seq<Step<V>>, m: nat, k: nat, e: EventId)
    requires m <= k <= |steps|
    ensures Published(steps[..k], e) == Published(steps[..m], e) + Published(steps[m..k], e)
  {
    assert steps[..k] == steps[..m] + steps[m..k];
    PublishedAppend(steps[..m], steps[m..k], e);
  }

  lemma {:induction false} PublishedAppend<V>(a: seq<Step<V>>, b: seq<Step<V>>, e: EventId)
    ensures Published(a + b, e) == Published(a, e) + Published(b, e)
  {
    if b == [] {
      assert a + b == a;
    } else {
      var front, last := b[..|b| - 1], b[|b| - 1];
      assert b == front + [last] && a + b == (a + front) + [last];
      PublishedAppend(a, front, e);
      PublishedSnoc(a + front, last, e);
      PublishedSnoc(front, last, e);
    }
  }

  lemma PublishedSnoc<V>(steps: seq<Step<V>>, step: Step<V>, e: EventId)
    ensures Published(steps + [step], e) ==
            if step.DoPublish? && step.e == e then Published(steps, e) + [step.v] else Published(steps, e)
  {
    assert (steps + [step])[..|steps|] == steps;
  }

  /** Steps that are not calls of the sub-system's operations. */
  predicate IsTaskStep<V>(step: Step<V>) {
    || step.DoTake? || step.DoOffer? || step.DoLag? || step.DoCancel? || step.DoCleanUp? || step.DoLeave?
    || step.DoRead? || step.DoClose?
  }

  /** Tasks and clients do not touch what only operations write. */
  lemma TaskStepLeaves<V>(s: State<V>, step: Step<V>)
    requires Enabled(s, step) && IsTaskStep(step)
    ensures var t := Apply(s, step);
            && t.senders == s.senders && t.history == s.history && t.requested == s.requested && t.overlapped == s.overlapped
            && t.clients.Keys == s.clients.Keys && |t.subs| == |s.subs| && t.channels == s.channels
  {}

  lemma StepHistory<V>(s: State<V>, step: Step<V>, t: State<V>, e: EventId)
    requires Enabled(s, step) && t == Apply(s, step)
    ensures History(t, e) == if step.DoPublish? && step.e == e then History(s, e) + [step.v] else History(s, e)
  {
    if IsTaskStep(step) { TaskStepLeaves(s, step); }
  }

  lemma {:induction false} HistoryIsPublished<V>(states: seq<State<V>>, steps: seq<Step<V>>, k: nat, e: EventId)
    requires IsRun(states, steps) && k <= |steps|
    ensures History(states[k], e) == Published(steps[..k], e)
  {
    if k > 0 {
      HistoryIsPublished(states, steps, k - 1, e);
      assert steps[..k][..k - 1] == steps[..k - 1];
      StepHistory(states[k - 1], steps[k - 1], states[k], e);
    }
  }

  /** What never changes about a subscription. */
  datatype Identity = Identity(client: ClientId, event: EventId, channel: nat, queue: nat, start: nat, base: nat)

  function IdentityOf<V>(sub: Subscription<V>): Identity {
    Identity(sub.client, sub.event, sub.channel, sub.queue, sub.start, sub.base)
  }

  /** A subscription across a step: it stays the same one, and only two kinds of step end it. */
  ghost predicate Continues<V>(a: Subscription<V>, b: Subscription<V>, step: Step<V>) {
    && IdentityOf(a) == IdentityOf(b)
    && (a.phase != Ended && b.phase == Ended ==> step.DoCancel? || step.DoLeave?)
  }

  lemma TaskStepContinues<V>(s: State<V>, step: Step<V>, i: nat)
    requires Enabled(s, step) && IsTaskStep(step) && i < |s.subs|
    ensures i < |Apply(s, step).subs| && Continues(s.subs[i], Apply(s, step).subs[i], step)
  {
    if step.DoTake? || step.DoOffer? || step.DoLag? { ServingStepContinues(s, step, i); }
  }

  lemma ServingStepContinues<V>(s: State<V>, step: Step<V>, i: nat)
    requires Enabled(s, step) && (step.DoTake? || step.DoOffer? || step.DoLag?) && i < |s.subs|
    ensures i < |Apply(s, step).subs| && Continues(s.subs[i], Apply(s, step).subs[i], step)
  {}

  lemma CallStepContinues<V>(s: State<V>, step: Step<V>, i: nat)
    requires Enabled(s, step) && !IsTaskStep(step) && i < |s.subs|
    ensures i < |Apply(s, step).subs| && Continues(s.subs[i], Apply(s, step).subs[i], step)
  {
    if step.DoRegister? { RegisterContinues(s, step.c, step.e, i); }
  }

  lemma RegisterContinues<V>(s: State<V>, c: ClientId, e: EventId, i: nat)
    requires c in s.clients && SenderInArena(s, e) && i < |s.subs|
    ensures i < |Register(s, c, e).subs| && Register(s, c, e).subs[i] == s.subs[i]
  {}

  lemma StepContinues<V>(s: State<V>, step: Step<V>, t: State<V>, i: nat)
    requires Enabled(s, step) && t == Apply(s, step)
    requires i < |s.subs|
    ensures i < |t.subs| && Continues(s.subs[i], t.subs[i], step)
  {
    if IsTaskStep(step) { TaskStepContinues(s, step, i); } else { CallStepContinues(s, step, i); }
  }

  lemma {:induction false} SubscriptionPersists<V>(states: seq<State<V>>, steps: seq<Step<V>>, m: nat, k: nat, i: nat)
    requires IsRun(states, steps) && m <= k <= |steps| && i < |states[m].subs|
    ensures i < |states[k].subs| && IdentityOf(states[k].subs[i]) == IdentityOf(states[m].subs[i])
  {
    if m < k {
      SubscriptionPersists(states, steps, m, k - 1, i);
      StepContinues(states[k - 1], steps[k - 1], states[k], i);
    }
  }

  /** Step `m` of the run is the registration that created subscription `i`. */
  ghost predicate RegisteredAt<V>(states: seq<State<V>>, steps: seq<Step<V>>, m: nat, i: nat) {
    IsRun(states, steps) && m < |steps| && |states[m].subs| <= i < |states[m + 1].subs|
  }

  lemma StepRegisters<V>(s: State<V>, step: Step<V>, t: State<V>, i: nat)
    requires Enabled(s, step) && t == Apply(s, step)
    requires |s.subs| <= i < |t.subs|
    ensures step == DoRegister(t.subs[i].client, t.subs[i].event)
    ensures t.subs[i].base == |History(t, t.subs[i].event)|
  {
    if IsTaskStep(step) { TaskStepLeaves(s, step); }
  }

  lemma RegistrationPoint<V>(states: seq<State<V>>, steps: seq<Step<V>>, m: nat, k: nat, i: nat)
    requires RegisteredAt(states, steps, m, i) && m < k <= |steps|
    ensures i < |states[k].subs|
    ensures var sub := states[k].subs[i];
            && steps[m] == DoRegister(sub.client, sub.event)
            && sub.base == |Published(steps[..m + 1], sub.event)|
  {
    StepRegisters(states[m], steps[m], states[m + 1], i);
    SubscriptionPersists(states, steps, m + 1, k, i);
    HistoryIsPublished(states, steps, m + 1, states[m + 1].subs[i].event);
  }

  lemma RunLedger<V>(states: seq<State<V>>, steps: seq<Step<V>>, k: nat, i: nat)
    requires IsRun(states, steps) && k <= |steps| && i < |states[k].subs|
    ensures SubLedger(states[k], states[k].subs[i])
  {
    RunKeeps(states, steps, k);
  }

  /** `h` is the `ordinal`-th of the events published later, and says so. */
  ghost predicate IsKth<V>(later: seq<V>, h: Handed<V>) {
    && 1 <= h.ordinal <= |later|
    && h.event == later[h.ordinal - 1]
    && h.number == h.ordinal % U64
    && (|later| < U64 ==> h.number == h.ordinal)
  }

  lemma GenuineIsKth<V>(before: seq<V>, later: seq<V>, h: Handed<V>)
    requires Genuine(before + later, |before|, h)
    ensures IsKth(later, h)
  {}

  lemma AllKth<V>(s: State<V>, sub: Subscription<V>, before: seq<V>, later: seq<V>)
    requires SubLedger(s, sub) && History(s, sub.event) == before + later && sub.base == |before|
    ensures forall h | h in sub.handed :: IsKth(later, h)
  {
    forall h | h in sub.handed ensures IsKth(later, h) {
      assert Genuine(History(s, sub.event), sub.base, h);
      GenuineIsKth(before, later, h);
    }
  }

  lemma HistorySince<V>(states: seq<State<V>>, steps: seq<Step<V>>, m: nat, k: nat, e: EventId)
    requires IsRun(states, steps) && m <= k <= |steps|
    ensures History(states[k], e) == Published(steps[..m], e) + Published(steps[m..k], e)
  {
    HistoryIsPublished(states, steps, k, e);
    PublishedBetween(steps, m, k, e);
  }

  /** Every event handed to a subscriber's closure with sequence number `number` is the
      `ordinal`-th event published to its event id after the registration, and `number` is
      that ordinal (modulo 2^64). */
  lemma HandedIsKthPublished<V>(states: seq<State<V>>, steps: seq<Step<V>>, m: nat, k: nat, i: nat)
    requires RegisteredAt(states, steps, m, i) && m < k <= |steps|
    ensures i < |states[k].subs|
    ensures var sub := states[k].subs[i];
            forall h | h in sub.handed :: IsKth(Published(steps[m + 1..k], sub.event), h)
  {
    RegistrationPoint(states, steps, m, k, i);
    var sub := states[k].subs[i];
    RunLedger(states, steps, k, i);
    HistorySince(states, steps, m + 1, k, sub.event);
    AllKth(states[k], sub, Published(steps[..m + 1], sub.event), Published(steps[m + 1..k], sub.event));
  }

  /** Nothing is handed twice, nothing out of order, and what is missing is exactly what
      lag reported: handed and lagged ordinals split everything the receiver consumed. */
  lemma HandedOrLagged<V>(states: seq<State<V>>, steps: seq<Step<V>>, k: nat, i: nat)
    requires IsRun(states, steps) && k <= |steps| && i < |states[k].subs|
    ensures var sub := states[k].subs[i];
            && Increasing(sub.handed)
            && Ordinals(sub.handed) !! sub.lagged
            && forall o: nat :: 1 <= o <= Consumed(sub) <==> o in Ordinals(sub.handed) || o in sub.lagged
  {
    RunKeeps(states, steps, k);
    var sub := states[k].subs[i];
    assert SubLedger(states[k], sub);
    assert forall o: nat :: o in Between(0, Consumed(sub)) <==> o in Ordinals(sub.handed) || o in sub.lagged;
  }

  // ----- the stream a client reads -----

  ghost predicate StrictNumbers<V>(stream: seq<ClientEvent<V>>) {
    forall a, b | 0 <= a < b < |stream| :: stream[a].number < stream[b].number
  }

  /** Where an entry of a task's output comes from. */
  lemma {:induction false} SentOrigin<V>(handed: seq<Handed<V>>, i: nat, source: EventId, x: ClientEvent<V>)
    requires x in Sent(handed, i, source)
    ensures exists j :: 0 <= j < |handed| && handed[j].fate == Accepted
                        && x == ClientEvent(i, source, handed[j].event, handed[j].number)
  {
    var front := handed[..|handed| - 1];
    if x in Sent(front, i, source) {
      SentOrigin(front, i, source, x);
      var j :| 0 <= j < |front| && front[j].fate == Accepted && x == ClientEvent(i, source, front[j].event, front[j].number);
      assert handed[j] == front[j];
    } else {
      assert x == ClientEvent(i, source, handed[|front|].event, handed[|front|].number);
    }
  }

  lemma {:induction false} SentInOrder<V>(handed: seq<Handed<V>>, i: nat, source: EventId)
    requires Increasing(handed) && forall h | h in handed :: h.number == h.ordinal
    ensures StrictNumbers(Sent(handed, i, source))
  {
    if handed != [] {
      var front := handed[..|handed| - 1];
      SentInOrder(front, i, source);
      forall x | x in Sent(front, i, source)
        ensures x.number < handed[|front|].number
      {
        SentOrigin(front, i, source, x);
        var j :| 0 <= j < |front| && x == ClientEvent(i, source, front[j].event, front[j].number);
        assert handed[j] in handed && handed[|front|] in handed;
      }
    }
  }

  lemma {:induction false} ProjectionHas<V>(stream: seq<ClientEvent<V>>, a: nat)
    requires a < |stream|
    ensures stream[a] in Projection(stream, stream[a].subscription)
  {
    if a < |stream| - 1 {
      ProjectionHas(stream[..|stream| - 1], a);
    }
  }

  lemma {:induction false} ProjectionInOrder<V>(stream: seq<ClientEvent<V>>, a: nat, b: nat)
    requires a < b < |stream| && stream[a].subscription == stream[b].subscription
    requires StrictNumbers(Projection(stream, stream[a].subscription))
    ensures stream[a].number < stream[b].number
  {
    var i := stream[a].subscription;
    var front := stream[..|stream| - 1];
    var whole := Projection(stream, i);
    assert Projection(front, i) <= whole;
    if b < |stream| - 1 {
      assert forall x, y | 0 <= x < y < |Projection(front, i)| :: whole[x].number < whole[y].number;
      ProjectionInOrder(front, a, b);
    } else {
      ProjectionHas(front, a);
      assert front[a] == stream[a];
      var j :| 0 <= j < |Projection(front, i)| && Projection(front, i)[j] == stream[a];
      assert whole[|whole| - 1] == stream[b];
    }
  }

  lemma RunStreams<V>(states: seq<State<V>>, steps: seq<Step<V>>, k: nat, q: nat, a: nat)
    requires IsRun(states, steps) && k <= |steps|
    requires q < |states[k].queues| && a < |states[k].queues[q].received|
    ensures states[k].queues[q].received <= states[k].queues[q].accepted
    ensures var i := states[k].queues[q].received[a].subscription;
            i < |states[k].subs| && states[k].subs[i].queue == q && SubStreamed(states[k], i)
  {
    RunKeeps(states, steps, k);
    assert QueueOk(states[k], q);
    assert states[k].queues[q].accepted[a] == states[k].queues[q].received[a];
  }

  /** A client's stream is what was sent to it, and the entries of one subscription on it
      are exactly that subscription's closure calls that were not dropped: a number missing
      from the stream was lagged over, dropped on a full buffer or abandoned, or it is the one
      call a task that is offering has in its hand. */
  lemma StreamIsWhatWasSent<V>(states: seq<State<V>>, steps: seq<Step<V>>, k: nat, i: nat)
    requires IsRun(states, steps) && k <= |steps| && i < |states[k].subs|
    ensures var s := states[k]; var sub := s.subs[i];
            && sub.queue < |s.queues|
            && s.queues[sub.queue].received <= s.queues[sub.queue].accepted
            && (s.queues[sub.queue].open ==>
                  s.queues[sub.queue].accepted == s.queues[sub.queue].received + s.queues[sub.queue].buffer)
            && Projection(s.queues[sub.queue].accepted, i) == Sent(sub.handed, i, sub.event)
            && SubHolds(sub)
  {
    RunKeeps(states, steps, k);
    var sub := states[k].subs[i];
    assert SubShape(states[k], sub) && SubStreamed(states[k], i);
    assert QueueOk(states[k], sub.queue);
  }

  /** The closure call behind an event a client has read. */
  lemma RunOrigin<V>(states: seq<State<V>>, steps: seq<Step<V>>, k: nat, q: nat, a: nat) returns (j: nat)
    requires IsRun(states, steps) && k <= |steps|
    requires q < |states[k].queues| && a < |states[k].queues[q].received|
    ensures var x := states[k].queues[q].received[a];
            && x.subscription < |states[k].subs|
            && var sub := states[k].subs[x.subscription];
            && j < |sub.handed| && sub.handed[j].fate == Accepted
            && x == ClientEvent(x.subscription, sub.event, sub.handed[j].event, sub.handed[j].number)
  {
    RunStreams(states, steps, k, q, a);
    var x := states[k].queues[q].received[a];
    var sub := states[k].subs[x.subscription];
    ProjectionHas(states[k].queues[q].accepted, a);
    SentOrigin(sub.handed, x.subscription, sub.event, x);
    j :| 0 <= j < |sub.handed| && sub.handed[j].fate == Accepted
         && x == ClientEvent(x.subscription, sub.event, sub.handed[j].event, sub.handed[j].number);
  }

  /** Every event a client has read is the publication its sequence number says it is. */
  lemma ReadIsKthPublished<V>(states: seq<State<V>>, steps: seq<Step<V>>, m: nat, k: nat, q: nat, a: nat)
    requires IsRun(states, steps) && k <= |steps|
    requires q < |states[k].queues| && a < |states[k].queues[q].received|
    requires RegisteredAt(states, steps, m, states[k].queues[q].received[a].subscription) && m < k
    ensures var x := states[k].queues[q].received[a];
            var later := Published(steps[m + 1..k], x.source);
            exists o :: 1 <= o <= |later| && x.value == later[o - 1] && x.number == o % U64
  {
    var j := RunOrigin(states, steps, k, q, a);
    var x := states[k].queues[q].received[a];
    HandedIsKthPublished(states, steps, m, k, x.subscription);
    var sub := states[k].subs[x.subscription];
    assert x.source == sub.event && sub.handed[j] in sub.handed;
    assert IsKth(Published(steps[m + 1..k], sub.event), sub.handed[j]);
  }

  lemma LedgerNumbers<V>(s: State<V>, sub: Subscription<V>)
    requires SubLedger(s, sub) && |History(s, sub.event)| < U64
    ensures Increasing(sub.handed) && forall h | h in sub.handed :: h.number == h.ordinal
  {
    forall h | h in sub.handed ensures h.number == h.ordinal {
      assert Genuine(History(s, sub.event), sub.base, h);
    }
  }

  lemma SentByOne<V>(stream: seq<ClientEvent<V>>, handed: seq<Handed<V>>, source: EventId, a: nat, b: nat)
    requires a < b < |stream| && stream[a].subscription == stream[b].subscription
    requires Projection(stream, stream[a].subscription) == Sent(handed, stream[a].subscription, source)
    requires Increasing(handed) && forall h | h in handed :: h.number == h.ordinal
    ensures stream[a].number < stream[b].number
  {
    SentInOrder(handed, stream[a].subscription, source);
    ProjectionInOrder(stream, a, b);
  }

  lemma RunNumbers<V>(states: seq<State<V>>, steps: seq<Step<V>>, k: nat, i: nat)
    requires IsRun(states, steps) && k <= |steps| && i < |states[k].subs|
    requires |Published(steps[..k], states[k].subs[i].event)| < U64
    ensures Increasing(states[k].subs[i].handed) && forall h | h in states[k].subs[i].handed :: h.number == h.ordinal
  {
    RunLedger(states, steps, k, i);
    HistoryIsPublished(states, steps, k, states[k].subs[i].event);
    LedgerNumbers(states[k], states[k].subs[i]);
  }

  lemma RunSource<V>(states: seq<State<V>>, steps: seq<Step<V>>, k: nat, q: nat, a: nat)
    requires IsRun(states, steps) && k <= |steps|
    requires q < |states[k].queues| && a < |states[k].queues[q].received|
    ensures var x := states[k].queues[q].received[a];
            x.subscription < |states[k].subs| && states[k].subs[x.subscription].event == x.source
  {
    var j := RunOrigin(states, steps, k, q, a);
  }

  /** The events of one subscription reach the client in publication order: their
      sequence numbers strictly increase along its stream. */
  lemma StreamInOrder<V>(states: seq<State<V>>, steps: seq<Step<V>>, k: nat, q: nat, a: nat, b: nat)
    requires IsRun(states, steps) && k <= |steps|
    requires q < |states[k].queues| && a < b < |states[k].queues[q].received|
    requires states[k].queues[q].received[a].subscription == states[k].queues[q].received[b].subscription
    requires |Published(steps[..k], states[k].queues[q].received[a].source)| < U64
    ensures states[k].queues[q].received[a].number < states[k].queues[q].received[b].number
  {
    RunStreams(states, steps, k, q, a);
    RunSource(states, steps, k, q, a);
    var received, accepted := states[k].queues[q].received, states[k].queues[q].accepted;
    assert received[a] == accepted[a] && received[b] == accepted[b];
    var i := received[a].subscription;
    RunNumbers(states, steps, k, i);
    SentByOne(accepted, states[k].subs[i].handed, states[k].subs[i].event, a, b);
  }

  // ----- senders -----

  /** While the sub-system lives no serving task ever sees its broadcast channel closed. */
  lemma ClosedIsUnreachable<V>(states: seq<State<V>>, steps: seq<Step<V>>, k: nat, i: nat)
    requires IsRun(states, steps) && k <= |steps|
    ensures !RecvClosed(states[k], i)
  {
    RunKeeps(states, steps, k);
    if i < |states[k].subs| {
      assert SubAttached(states[k], states[k].subs[i]);
    }
  }

  /** What `publish` answers: whether a sender entry exists. */
  predicate PublishAnswer<V>(s: State<V>, e: EventId) {
    e in s.senders
  }

  ghost predicate HasLiveSubscription<V>(s: State<V>, e: EventId) {
    exists i :: 0 <= i < |s.subs| && s.subs[i].phase != Ended && s.subs[i].event == e
  }

  /** A refused publication had no live subscription to go to; an accepted one reaches the
      channel of every live subscription, and the event is lost to none of them unless
      they lag. */
  lemma PublishReachesEveryLive<V>(states: seq<State<V>>, steps: seq<Step<V>>, k: nat, e: EventId, v: V)
    requires IsRun(states, steps) && k <= |steps|
    ensures HasLiveSubscription(states[k], e) ==> PublishAnswer(states[k], e)
    ensures Shape(states[k])
    ensures var s := states[k]; var t := Publish(s, e, v);
            forall i | 0 <= i < |s.subs| && s.subs[i].phase != Ended ::
              t.channels[s.subs[i].channel] == s.channels[s.subs[i].channel] + if s.subs[i].event == e then [v] else []
  {
    RunKeeps(states, steps, k);
    var s := states[k];
    forall i | 0 <= i < |s.subs| && s.subs[i].phase != Ended
      ensures s.subs[i].event in s.senders && s.senders[s.subs[i].event] == s.subs[i].channel
    {
      assert SubAttached(s, s.subs[i]);
    }
  }

  /** The converse fails: a positive answer does not mean anyone is subscribed.  The sender
      entry survives a deregistration whose task has not ended yet, and nothing removes
      it when the task does end. */
  lemma AnswerMayBeStale<V>(v: V) returns (states: seq<State<V>>, steps: seq<Step<V>>)
    ensures IsRun(states, steps)
    ensures var s := states[|steps|];
            && PublishAnswer(s, "e") && SenderInArena(s, "e")
            && !HasLiveSubscription(s, "e") && Publish(s, "e", v).channels == s.channels
  {
    states, steps := SubscribedRun();
    states, steps := Extend(states, steps, DoRevoke("c", "e"));
    assert states[3].subs == [Subscription("c", "e", 0, 0, true, Serving, 0, 0, 0, 0, [], {})];
    assert states[3].senders == map["e" := 0];
    assert states[3].subs[0].phase != Ended && HasReceiver(states[3], 0);
    assert Sweep(states[3], "e") == states[3];
    states, steps := Extend(states, steps, DoSweep("e"));
    states, steps := Extend(states, steps, DoCancel(0));
    assert states[5].subs == [Subscription("c", "e", 0, 0, true, Ended, 0, 0, 0, 0, [], {})];
  }

  /** A run in which one client has opened its stream and subscribed to one event. */
  lemma SubscribedRun<V>() returns (states: seq<State<V>>, steps: seq<Step<V>>)
    ensures IsRun(states, steps) && |steps| == 2
    ensures var s := states[2];
            && s.subs == [Subscription("c", "e", 0, 0, false, Serving, 0, 0, 0, 0, [], {})]
            && s.clients == map["c" := Client(0, map["e" := 0])]
            && s.senders == map["e" := 0] && s.channels == [[]] && |s.queues| == 1
  {
    states, steps := [Initial(1, 1)], [];
    states, steps := Extend(states, steps, DoOpen("c"));
    states, steps := Extend(states, steps, DoRegister("c", "e"));
  }

  /** The answer of `publish` would be wrong: it says yes and nobody is subscribed. */
  ghost predicate IsStale<V>(s: State<V>, e: EventId) {
    PublishAnswer(s, e) && !HasLiveSubscription(s, e)
  }

  /** The step ended the last task that served an event. */
  ghost predicate EndsLastTask<V>(s: State<V>, step: Step<V>, t: State<V>, e: EventId) {
    (step.DoCancel? || step.DoLeave?) && HasLiveSubscription(s, e) && !HasLiveSubscription(t, e)
  }

  /** Step `j` ended the last task that served the event, and since then, up to state `k`, no
      deregistration looked at its sender entry and nobody subscribed to it. */
  ghost predicate LeftBehind<V>(states: seq<State<V>>, steps: seq<Step<V>>, j: nat, k: nat, e: EventId) {
    && j < k < |states| == |steps| + 1
    && EndsLastTask(states[j], steps[j], states[j + 1], e)
    && (forall n | j < n < k :: steps[n] != DoSweep(e))
    && (forall n | j < n <= k :: !HasLiveSubscription(states[n], e))
  }

  ghost predicate IsLeftBehind<V>(states: seq<State<V>>, steps: seq<Step<V>>, k: nat, e: EventId) {
    exists j: nat :: LeftBehind(states, steps, j, k, e)
  }

  /** `publish` answers yes with nobody subscribed exactly when the last task that served the
      event has ended on its own, and since then no deregistration swept the entry away and
      nobody subscribed again. */
  lemma {:induction false} AnswerIsStaleIff<V>(states: seq<State<V>>, steps: seq<Step<V>>, k: nat, e: EventId)
    requires IsRun(states, steps) && k <= |steps|
    ensures IsStale(states[k], e) <==> IsLeftBehind(states, steps, k, e)
  {
    if k > 0 {
      AnswerIsStaleIff(states, steps, k - 1, e);
      RunKeeps(states, steps, k - 1);
      StaleStep(states[k - 1], steps[k - 1], states[k], e);
      LeftBehindStep(states, steps, k, e);
    }
  }

  /** How being left behind goes on from one state to the next. */
  lemma LeftBehindStep<V>(states: seq<State<V>>, steps: seq<Step<V>>, k: nat, e: EventId)
    requires |states| == |steps| + 1 && 0 < k <= |steps|
    ensures IsLeftBehind(states, steps, k, e) <==>
            || EndsLastTask(states[k - 1], steps[k - 1], states[k], e)
            || (IsLeftBehind(states, steps, k - 1, e) && steps[k - 1] != DoSweep(e) && !HasLiveSubscription(states[k], e))
  {
    if j: nat :| LeftBehind(states, steps, j, k, e) {
      if j < k - 1 { assert LeftBehind(states, steps, j, k - 1, e); }
    }
    if EndsLastTask(states[k - 1], steps[k - 1], states[k], e) {
      assert LeftBehind(states, steps, k - 1, k, e);
    }
    if IsLeftBehind(states, steps, k - 1, e) && steps[k - 1] != DoSweep(e) && !HasLiveSubscription(states[k], e) {
      var p := k - 1;
      var j: nat :| LeftBehind(states, steps, j, p, e);
      assert LeftBehind(states, steps, j, k, e);
    }
  }

  /** A step leads to a stale answer exactly if it ends the last task, or the answer was stale
      before and the step neither sweeps it away nor makes it right. */
  lemma StaleStep<V>(s: State<V>, step: Step<V>, t: State<V>, e: EventId)
    requires Inv(s) && Enabled(s, step) && t == Apply(s, step)
    ensures IsStale(t, e) <==>
            || EndsLastTask(s, step, t, e)
            || (IsStale(s, e) && step != DoSweep(e) && !HasLiveSubscription(t, e))
  {
    if IsStale(t, e) {
      if IsStale(s, e) {
        SweepRemovesStale(s, e);
      } else {
        OnlyTaskEndsMakeStale(s, step, e);
        TaskStepLeaves(s, step);
      }
    } else if EndsLastTask(s, step, t, e) {
      LiveHasSender(s, e);
      TaskStepLeaves(s, step);
    } else if e in s.senders && step != DoSweep(e) {
      SenderOnlySwept(s, step, e);
    }
  }

  lemma LiveHasSender<V>(s: State<V>, e: EventId)
    requires Inv(s) && HasLiveSubscription(s, e)
    ensures e in s.senders
  {
    var i :| 0 <= i < |s.subs| && s.subs[i].phase != Ended && s.subs[i].event == e;
    assert SubAttached(s, s.subs[i]);
  }

  /** A deregistration that finds the entry stale removes it. */
  lemma SweepRemovesStale<V>(s: State<V>, e: EventId)
    requires Inv(s) && IsStale(s, e)
    ensures e !in Sweep(s, e).senders
  {
    forall i | 0 <= i < |s.subs| && s.subs[i].phase != Ended ensures s.subs[i].channel != s.senders[e] {
      assert SubAttached(s, s.subs[i]);
    }
  }

  /** Nothing but the end of a task leaves a sender entry behind without a subscriber. */
  lemma OnlyTaskEndsMakeStale<V>(s: State<V>, step: Step<V>, e: EventId)
    requires Inv(s) && Enabled(s, step) && !IsStale(s, e) && IsStale(Apply(s, step), e)
    ensures step.DoCancel? || step.DoLeave?
  {
    if !step.DoCancel? && !step.DoLeave? {
      if HasLiveSubscription(s, e) {
        var i :| 0 <= i < |s.subs| && s.subs[i].phase != Ended && s.subs[i].event == e;
        StepContinues(s, step, Apply(s, step), i);
      } else {
        SenderIsNew(s, step, e);
      }
      assert false;
    }
  }

  lemma SenderOnlySwept<V>(s: State<V>, step: Step<V>, e: EventId)
    requires Enabled(s, step) && e in s.senders && step != DoSweep(e)
    ensures e in Apply(s, step).senders
  {
    if IsTaskStep(step) { TaskStepLeaves(s, step); }
  }

  lemma SenderIsNew<V>(s: State<V>, step: Step<V>, e: EventId)
    requires Enabled(s, step) && e !in s.senders && e in Apply(s, step).senders
    ensures HasLiveSubscription(Apply(s, step), e)
  {
    var t := Apply(s, step);
    if IsTaskStep(step) { TaskStepLeaves(s, step); }
    assert |t.subs| == |s.subs| + 1 && t.subs[|s.subs|].event == e && t.subs[|s.subs|].phase == Serving;
  }
}
