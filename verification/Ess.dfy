/** The event sub-system as a concurrent protocol: a state, the atomic steps that
    change it, and the runs those steps make.

    Shared tokio objects live in arenas and are named by their index: a broadcast
    channel is the log of everything sent on it, a client channel is a bounded buffer
    with an open flag, and a subscription record holds the serving task's locals, its
    receiver's cursor and its cancellation token.  Fields marked "auxiliary" only
    record what happened; no step reads them to decide anything. */
module Ess {

  type ClientId = string
  type EventId = string

  /** Sequence numbers are 64-bit and wrap. */
  const U64: nat := 0x1_0000_0000_0000_0000

  /** What became of an event that a serving task passed to its closure; `InHand` has yet
      to be offered to the client channel. */
  datatype Fate = InHand | Accepted | DroppedFull | Abandoned

  /** One call of the closure: `number` is the sequence number it was given,
      `ordinal` (auxiliary) counts broadcast positions since registration. */
  datatype Handed<V> = Handed(ordinal: nat, number: nat, event: V, fate: Fate)

  /** `Offering` is a task that holds an event it took, the last it was handed; `Abandoning`
      saw its client channel closed and has yet to take the client lock to clean up;
      `Leaving` has cleaned up but not yet dropped its receiver; `Ended` has. */
  datatype Phase = Serving | Offering | Abandoning | Leaving | Ended

  /** The task touches neither its client's stream nor its client's record any more. */
  predicate IsOver(phase: Phase) {
    phase == Leaving || phase == Ended
  }

  datatype Subscription<V> = Subscription(
    client: ClientId,
    event: EventId,
    channel: nat,
    queue: nat,
    cancelled: bool,
    phase: Phase,
    position: nat,
    seqno: nat,
    start: nat,             // auxiliary: cursor at registration
    base: nat,              // auxiliary: publications of the event before registration
    handed: seq<Handed<V>>, // every closure call; auxiliary but for the one in hand
    lagged: set<nat>)       // auxiliary: ordinals skipped by lag

  /** An event as it sits in a client channel; `subscription` is auxiliary. */
  datatype ClientEvent<V> = ClientEvent(subscription: nat, source: EventId, value: V, number: nat)

  datatype Queue<V> = Queue(
    buffer: seq<ClientEvent<V>>,
    open: bool,
    accepted: seq<ClientEvent<V>>,  // auxiliary: everything ever accepted
    received: seq<ClientEvent<V>>)  // auxiliary: everything the client has read

  datatype Client = Client(queue: nat, subscriptions: map<EventId, nat>)

  datatype State<V> = State(
    publishCapacity: nat,
    clientCapacity: nat,
    senders: map<EventId, nat>,
    clients: map<ClientId, Client>,
    channels: seq<seq<V>>,
    queues: seq<Queue<V>>,
    subs: seq<Subscription<V>>,
    history: map<EventId, seq<V>>,           // auxiliary: every publication
    requested: map<ClientId, set<EventId>>,  // auxiliary: registered minus deregistered
    overlapped: set<ClientId>)               // auxiliary: ids last opened beside a live older task

  function Initial<V>(publishCapacity: nat, clientCapacity: nat): State<V> {
    State(publishCapacity, clientCapacity, map[], map[], [], [], [], map[], map[], {})
  }

  function History<V>(s: State<V>, e: EventId): seq<V> {
    if e in s.history then s.history[e] else []
  }

  function Requested<V>(s: State<V>, c: ClientId): set<EventId> {
    if c in s.requested then s.requested[c] else {}
  }

  /** The event ids `get_subscriptions` returns for a client. */
  function GetSubscriptions<V>(s: State<V>, c: ClientId): set<EventId> {
    if c in s.clients then s.clients[c].subscriptions.Keys else {}
  }

  // ----- shape: every index points into its arena -----

  ghost predicate SubShape<V>(s: State<V>, sub: Subscription<V>) {
    && sub.channel < |s.channels|
    && sub.queue < |s.queues|
    && sub.start <= sub.position <= |s.channels[sub.channel]|
  }

  ghost predicate Shape<V>(s: State<V>) {
    && s.publishCapacity > 0
    && s.clientCapacity > 0
    && (forall e | e in s.senders :: s.senders[e] < |s.channels|)
    && (forall c | c in s.clients :: s.clients[c].queue < |s.queues|)
    && (forall c, e | c in s.clients && e in s.clients[c].subscriptions ::
          s.clients[c].subscriptions[e] < |s.subs|)
    && (forall i | 0 <= i < |s.subs| :: SubShape(s, s.subs[i]))
  }

  // ----- the atomic steps -----

  predicate SenderInArena<V>(s: State<V>, e: EventId) {
    e in s.senders ==> s.senders[e] < |s.channels|
  }

  predicate TokenInArena<V>(s: State<V>, c: ClientId, e: EventId)
    requires c in s.clients
  {
    e in s.clients[c].subscriptions ==> s.clients[c].subscriptions[e] < |s.subs|
  }

  /** Whether the channel has a receiver: some task still holds one. */
  predicate HasReceiver<V>(s: State<V>, channel: nat) {
    exists i | 0 <= i < |s.subs| :: s.subs[i].phase != Ended && s.subs[i].channel == channel
  }

  /** Sending on a channel without receivers is an ignored error. */
  function Publish<V>(s: State<V>, e: EventId, v: V): State<V>
    requires SenderInArena(s, e)
  {
    var recorded := s.(history := s.history[e := History(s, e) + [v]]);
    if e in s.senders && HasReceiver(s, s.senders[e]) then
      recorded.(channels := s.channels[s.senders[e] := s.channels[s.senders[e]] + [v]])
    else
      recorded
  }

  /** Every task that ever served the client is over. */
  predicate AllOver<V>(s: State<V>, c: ClientId) {
    forall i | 0 <= i < |s.subs| && s.subs[i].client == c :: IsOver(s.subs[i].phase)
  }

  function Open<V>(s: State<V>, c: ClientId): State<V> {
    s.(queues := s.queues + [Queue([], true, [], [])],
       clients := s.clients[c := Client(|s.queues|, map[])],
       requested := s.requested[c := {}],
       overlapped := if AllOver(s, c) then s.overlapped - {c} else s.overlapped + {c})
  }

  /** The sender entry for an event, created on demand. */
  function WithSender<V>(s: State<V>, e: EventId): State<V> {
    if e in s.senders then s
    else s.(senders := s.senders[e := |s.channels|], channels := s.channels + [[]])
  }

  function Ask<V>(s: State<V>, c: ClientId, e: EventId): State<V> {
    s.(requested := s.requested[c := Requested(s, c) + {e}])
  }

  function NewSubscription<V>(s: State<V>, c: ClientId, e: EventId): Subscription<V>
    requires c in s.clients
    requires e in s.senders && s.senders[e] < |s.channels|
  {
    Subscription(c, e, s.senders[e], s.clients[c].queue, false, Serving,
                 |s.channels[s.senders[e]]|, 0,
                 |s.channels[s.senders[e]]|, |History(s, e)|, [], {})
  }

  function Subscribe<V>(s: State<V>, c: ClientId, e: EventId): State<V>
    requires c in s.clients
    requires e in s.senders && s.senders[e] < |s.channels|
  {
    var client := s.clients[c];
    s.(subs := s.subs + [NewSubscription(s, c, e)],
       clients := s.clients[c := client.(subscriptions := client.subscriptions[e := |s.subs|])])
  }

  /** One turn of the registration loop. */
  function Register<V>(s: State<V>, c: ClientId, e: EventId): State<V>
    requires c in s.clients && SenderInArena(s, e)
  {
    if e in s.clients[c].subscriptions then Ask(s, c, e) else Ask(Subscribe(WithSender(s, e), c, e), c, e)
  }

  /** First half of a turn of the deregistration loop: forget and cancel. */
  function Revoke<V>(s: State<V>, c: ClientId, e: EventId): State<V>
    requires c in s.clients && TokenInArena(s, c, e)
  {
    var asked := s.(requested := s.requested[c := Requested(s, c) - {e}]);
    var client := s.clients[c];
    if e in client.subscriptions then
      var i := client.subscriptions[e];
      asked.(clients := s.clients[c := client.(subscriptions := client.subscriptions - {e})],
             subs := s.subs[i := s.subs[i].(cancelled := true)])
    else
      asked
  }

  /** Second half: drop the sender entry if nobody receives from it. */
  function Sweep<V>(s: State<V>, e: EventId): State<V> {
    if e in s.senders && !HasReceiver(s, s.senders[e]) then s.(senders := s.senders - {e}) else s
  }

  /** The oldest log position a channel still retains. */
  function Oldest<V>(s: State<V>, channel: nat): nat
    requires channel < |s.channels|
  {
    if |s.channels[channel]| > s.publishCapacity then |s.channels[channel]| - s.publishCapacity else 0
  }

  predicate CanTake<V>(s: State<V>, i: nat) {
    && i < |s.subs| && s.subs[i].phase == Serving
    && s.subs[i].channel < |s.channels|
    && s.subs[i].start <= s.subs[i].position
    && Oldest(s, s.subs[i].channel) <= s.subs[i].position < |s.channels[s.subs[i].channel]|
  }

  /** The task receives the next event and passes it to the closure. */
  function Take<V>(s: State<V>, i: nat): State<V>
    requires CanTake(s, i)
  {
    var sub := s.subs[i];
    var event := s.channels[sub.channel][sub.position];
    var number := (sub.seqno + 1) % U64;
    s.(subs := s.subs[i := sub.(
         position := sub.position + 1,
         seqno := number,
         handed := sub.handed + [Handed(sub.position + 1 - sub.start, number, event, InHand)],
         phase := Offering)])
  }

  /** The outcome of `try_send` on a client channel. */
  function TrySend<V>(s: State<V>, q: Queue<V>): Fate {
    if !q.open then Abandoned
    else if |q.buffer| >= s.clientCapacity then DroppedFull
    else Accepted
  }

  predicate CanOffer<V>(s: State<V>, i: nat) {
    i < |s.subs| && s.subs[i].phase == Offering && s.subs[i].handed != [] && s.subs[i].queue < |s.queues|
  }

  /** The closure calls of a task once the one in hand has met its fate. */
  function Settled<V>(handed: seq<Handed<V>>, fate: Fate): seq<Handed<V>>
    requires handed != []
  {
    handed[..|handed| - 1] + [handed[|handed| - 1].(fate := fate)]
  }

  /** The task offers the event in its hand to the client channel. */
  function Offer<V>(s: State<V>, i: nat): State<V>
    requires CanOffer(s, i)
  {
    var sub := s.subs[i];
    var held := sub.handed[|sub.handed| - 1];
    var q := s.queues[sub.queue];
    var fate := TrySend(s, q);
    var entry := ClientEvent(i, sub.event, held.event, held.number);
    s.(subs := s.subs[i := sub.(
         handed := Settled(sub.handed, fate),
         phase := if fate == Abandoned then Abandoning else Serving)],
       queues := if fate == Accepted
                 then s.queues[sub.queue := q.(buffer := q.buffer + [entry], accepted := q.accepted + [entry])]
                 else s.queues)
  }

  predicate CanLag<V>(s: State<V>, i: nat) {
    && i < |s.subs| && s.subs[i].phase == Serving
    && s.subs[i].channel < |s.channels|
    && s.subs[i].start <= s.subs[i].position < Oldest(s, s.subs[i].channel)
  }

  /** How many events a lagging receiver is told it missed. */
  function LagAmount<V>(s: State<V>, i: nat): nat
    requires CanLag(s, i)
  {
    Oldest(s, s.subs[i].channel) - s.subs[i].position
  }

  function Lag<V>(s: State<V>, i: nat): State<V>
    requires CanLag(s, i)
  {
    var sub := s.subs[i];
    var n := sub.position - sub.start;
    s.(subs := s.subs[i := sub.(
         position := sub.position + LagAmount(s, i),
         seqno := (sub.seqno + LagAmount(s, i)) % U64,
         lagged := sub.lagged + Between(n, n + LagAmount(s, i)))])
  }

  /** The ordinals after `low` up to and including `high`. */
  function Between(low: nat, high: nat): (r: set<nat>)
    ensures forall o: nat :: o in r <==> low < o <= high
    decreases high
  {
    if high <= low then {} else Between(low, high - 1) + {high}
  }

  predicate CanCancel<V>(s: State<V>, i: nat) {
    i < |s.subs| && s.subs[i].phase == Serving && s.subs[i].cancelled
  }

  function Cancel<V>(s: State<V>, i: nat): State<V>
    requires CanCancel(s, i)
  {
    s.(subs := s.subs[i := s.subs[i].(phase := Ended)])
  }

  predicate CanCleanUp<V>(s: State<V>, i: nat) {
    i < |s.subs| && s.subs[i].phase == Abandoning
  }

  /** An abandoned task removes whatever its client record holds for its event. */
  function CleanUp<V>(s: State<V>, i: nat): State<V>
    requires CanCleanUp(s, i)
  {
    var sub := s.subs[i];
    var leaving := s.(subs := s.subs[i := sub.(phase := Leaving)]);
    if sub.client in s.clients then
      var client := s.clients[sub.client];
      leaving.(clients := s.clients[sub.client := client.(subscriptions := client.subscriptions - {sub.event})])
    else
      leaving
  }

  predicate CanLeave<V>(s: State<V>, i: nat) {
    i < |s.subs| && s.subs[i].phase == Leaving
  }

  function Leave<V>(s: State<V>, i: nat): State<V>
    requires CanLeave(s, i)
  {
    s.(subs := s.subs[i := s.subs[i].(phase := Ended)])
  }

  predicate CanRead<V>(s: State<V>, q: nat) {
    q < |s.queues| && s.queues[q].open && s.queues[q].buffer != []
  }

  function Read<V>(s: State<V>, q: nat): State<V>
    requires CanRead(s, q)
  {
    var queue := s.queues[q];
    s.(queues := s.queues[q := queue.(buffer := queue.buffer[1..], received := queue.received + [queue.buffer[0]])])
  }

  function Close<V>(s: State<V>, q: nat): State<V>
    requires q < |s.queues|
  {
    s.(queues := s.queues[q := s.queues[q].(open := false, buffer := [])])
  }

  /** `recv` reports `Closed` once the sender is gone and everything retained is read. */
  ghost predicate RecvClosed<V>(s: State<V>, i: nat) {
    && i < |s.subs| && s.subs[i].phase == Serving
    && s.subs[i].channel < |s.channels|
    && s.subs[i].position == |s.channels[s.subs[i].channel]|
    && s.subs[i].channel !in s.senders.Values
  }

  // ----- runs -----

  datatype Step<V> =
    | DoPublish(e: EventId, v: V)
    | DoOpen(c: ClientId)
    | DoRegister(c: ClientId, e: EventId)
    | DoRevoke(c: ClientId, e: EventId)
    | DoSweep(e: EventId)
    | DoTake(i: nat)
    | DoOffer(i: nat)
    | DoLag(i: nat)
    | DoCancel(i: nat)
    | DoCleanUp(i: nat)
    | DoLeave(i: nat)
    | DoRead(q: nat)
    | DoClose(q: nat)

  /** When a step can be taken.  The conditions on arena indexes, and that a task which is
      offering holds something, never block one: they are among what every step keeps. */
  predicate Enabled<V>(s: State<V>, step: Step<V>) {
    match step
    case DoPublish(e, _) => SenderInArena(s, e)
    case DoOpen(_) => true
    case DoRegister(c, e) => c in s.clients && SenderInArena(s, e)
    case DoRevoke(c, e) => c in s.clients && TokenInArena(s, c, e)
    case DoSweep(_) => true
    case DoTake(i) => CanTake(s, i)
    case DoOffer(i) => CanOffer(s, i)
    case DoLag(i) => CanLag(s, i)
    case DoCancel(i) => CanCancel(s, i)
    case DoCleanUp(i) => CanCleanUp(s, i)
    case DoLeave(i) => CanLeave(s, i)
    case DoRead(q) => CanRead(s, q)
    case DoClose(q) => q < |s.queues|
  }

  function Apply<V>(s: State<V>, step: Step<V>): State<V>
    requires Enabled(s, step)
  {
    match step
    case DoPublish(e, v) => Publish(s, e, v)
    case DoOpen(c) => Open(s, c)
    case DoRegister(c, e) => Register(s, c, e)
    case DoRevoke(c, e) => Revoke(s, c, e)
    case DoSweep(e) => Sweep(s, e)
    case DoTake(i) => Take(s, i)
    case DoOffer(i) => Offer(s, i)
    case DoLag(i) => Lag(s, i)
    case DoCancel(i) => Cancel(s, i)
    case DoCleanUp(i) => CleanUp(s, i)
    case DoLeave(i) => Leave(s, i)
    case DoRead(q) => Read(s, q)
    case DoClose(q) => Close(s, q)
  }

  /** A path: `states[k]` is the state before the `k`-th step. */
  ghost predicate IsPath<V>(states: seq<State<V>>, steps: seq<Step<V>>) {
    && |states| == |steps| + 1
    && forall k {:trigger steps[k]} | 0 <= k < |steps| ::
         Enabled(states[k], steps[k]) && states[k + 1] == Apply(states[k], steps[k])
  }

  /** A run: a path from a new event sub-system. */
  ghost predicate IsRun<V>(states: seq<State<V>>, steps: seq<Step<V>>) {
    && IsPath(states, steps)
    && states[0].publishCapacity > 0 && states[0].clientCapacity > 0
    && states[0] == Initial(states[0].publishCapacity, states[0].clientCapacity)
  }
}
