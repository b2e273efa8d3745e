/** What every step of the event sub-system keeps. */
module EssInvariant {
  import opened Ess

  // ----- attachment: a live receiver hangs on the sender stored for its event -----

  ghost predicate OneEventPerSender<V>(s: State<V>) {
    forall e, f | e in s.senders && f in s.senders && s.senders[e] == s.senders[f] :: e == f
  }

  ghost predicate SubAttached<V>(s: State<V>, sub: Subscription<V>) {
    sub.phase != Ended ==> sub.event in s.senders && s.senders[sub.event] == sub.channel
  }

  ghost predicate Attached<V>(s: State<V>) {
    && OneEventPerSender(s)
    && forall i | 0 <= i < |s.subs| :: SubAttached(s, s.subs[i])
  }

  // ----- tracking: what a live receiver's channel carried is what was published -----

  ghost predicate SubTracks<V>(s: State<V>, sub: Subscription<V>)
    requires SubShape(s, sub)
  {
    && sub.base <= |History(s, sub.event)|
    && (sub.phase != Ended ==> History(s, sub.event)[sub.base..] == s.channels[sub.channel][sub.start..])
  }

  ghost predicate Tracks<V>(s: State<V>)
    requires Shape(s)
  {
    forall i | 0 <= i < |s.subs| :: SubTracks(s, s.subs[i])
  }

  // ----- ledger: handed and lagged ordinals account for everything consumed -----

  function Consumed<V>(sub: Subscription<V>): int {
    sub.position - sub.start
  }

  ghost function Ordinals<V>(handed: seq<Handed<V>>): set<nat> {
    set h | h in handed :: h.ordinal
  }

  /** A handed event is the `ordinal`-th publication after registration. */
  ghost predicate Genuine<V>(published: seq<V>, base: nat, h: Handed<V>) {
    && 1 <= h.ordinal
    && base + h.ordinal <= |published|
    && h.event == published[base + h.ordinal - 1]
    && h.number == h.ordinal % U64
  }

  ghost predicate Increasing<V>(handed: seq<Handed<V>>) {
    forall j, k | 0 <= j < k < |handed| :: handed[j].ordinal < handed[k].ordinal
  }

  /** The first `n` publications after `base` were each handed over or lagged over. */
  ghost predicate Accounts<V>(published: seq<V>, base: nat, n: int, handed: seq<Handed<V>>, lagged: set<nat>) {
    && 0 <= n && base + n <= |published|
    && (forall h | h in handed :: Genuine(published, base, h))
    && Increasing(handed)
    && Ordinals(handed) !! lagged
    && Ordinals(handed) + lagged == Between(0, n)
  }

  /** At least a whole buffer of events was published after the one with that ordinal. */
  ghost predicate IsOverwritten<V>(s: State<V>, sub: Subscription<V>, ordinal: nat) {
    sub.base + ordinal + s.publishCapacity <= |History(s, sub.event)|
  }

  ghost predicate SubLedger<V>(s: State<V>, sub: Subscription<V>) {
    && Accounts(History(s, sub.event), sub.base, Consumed(sub), sub.handed, sub.lagged)
    && sub.seqno == Consumed(sub) % U64
    && (forall o | o in sub.lagged :: IsOverwritten(s, sub, o))
  }

  ghost predicate Ledger<V>(s: State<V>) {
    forall i | 0 <= i < |s.subs| :: SubLedger(s, s.subs[i])
  }

  /** A task has a closure call in hand exactly while it is offering, and it is the last. */
  ghost predicate SubHolds<V>(sub: Subscription<V>) {
    && (sub.phase == Offering ==> sub.handed != [])
    && forall j | 0 <= j < |sub.handed| ::
         sub.handed[j].fate == InHand <==> sub.phase == Offering && j == |sub.handed| - 1
  }

  ghost predicate Holds<V>(s: State<V>) {
    forall i | 0 <= i < |s.subs| :: SubHolds(s.subs[i])
  }

  // ----- client channels: a client's stream is what the tasks sent, in order -----

  /** The entries of one subscription, in stream order. */
  function Projection<V>(stream: seq<ClientEvent<V>>, i: nat): seq<ClientEvent<V>> {
    if stream == [] then []
    else
      var last := stream[|stream| - 1];
      var before := Projection(stream[..|stream| - 1], i);
      if last.subscription == i then before + [last] else before
  }

  /** The entries a task's accepted closure calls put into its client channel. */
  function Sent<V>(handed: seq<Handed<V>>, i: nat, source: EventId): seq<ClientEvent<V>> {
    if handed == [] then []
    else
      var last := handed[|handed| - 1];
      var before := Sent(handed[..|handed| - 1], i, source);
      if last.fate == Accepted then before + [ClientEvent(i, source, last.event, last.number)] else before
  }

  ghost predicate QueueOk<V>(s: State<V>, q: nat)
    requires q < |s.queues|
  {
    var queue := s.queues[q];
    && queue.received <= queue.accepted
    && (queue.open ==> queue.accepted == queue.received + queue.buffer)
    && |queue.buffer| <= s.clientCapacity
    && (forall x | x in queue.accepted :: x.subscription < |s.subs| && s.subs[x.subscription].queue == q)
  }

  ghost predicate SubStreamed<V>(s: State<V>, i: nat)
    requires i < |s.subs| && s.subs[i].queue < |s.queues|
  {
    Projection(s.queues[s.subs[i].queue].accepted, i) == Sent(s.subs[i].handed, i, s.subs[i].event)
  }

  ghost predicate Streams<V>(s: State<V>)
    requires Shape(s)
  {
    && (forall q | 0 <= q < |s.queues| :: QueueOk(s, q))
    && (forall i: nat | i < |s.subs| :: SubShape(s, s.subs[i]) && SubStreamed(s, i))
  }

  // ----- records: the client record knows its live subscriptions -----

  /** A task only stops serving because it was cancelled or its client went away. */
  ghost predicate SubStopsForReason<V>(s: State<V>, sub: Subscription<V>)
    requires SubShape(s, sub)
  {
    && sub.client in s.clients
    && (sub.phase == Abandoning || sub.phase == Leaving ==> !s.queues[sub.queue].open)
    && (sub.phase == Ended ==> sub.cancelled || !s.queues[sub.queue].open)
  }

  /** A live un-cancelled subscription of the client is the one on record. */
  ghost predicate SubOnRecord<V>(s: State<V>, i: nat)
    requires i < |s.subs| && s.subs[i].client in s.clients
  {
    var sub := s.subs[i];
    var record := s.clients[sub.client];
    !IsOver(sub.phase) && !sub.cancelled ==> sub.event in record.subscriptions && record.subscriptions[sub.event] == i
  }

  ghost predicate RecordPoints<V>(s: State<V>, c: ClientId, e: EventId)
    requires Shape(s) && c in s.clients && e in s.clients[c].subscriptions
  {
    var sub := s.subs[s.clients[c].subscriptions[e]];
    sub.client == c && sub.event == e && !sub.cancelled && !IsOver(sub.phase)
  }

  ghost predicate StreamOpen<V>(s: State<V>, c: ClientId)
    requires Shape(s) && c in s.clients
  {
    s.queues[s.clients[c].queue].open
  }

  /** Holds of a client id whose older tasks were all over when it was last opened. */
  ghost predicate ClientOk<V>(s: State<V>, c: ClientId)
    requires Shape(s) && c in s.clients
  {
    && (forall i: nat | i < |s.subs| && s.subs[i].client == c && !IsOver(s.subs[i].phase) ::
          s.subs[i].queue == s.clients[c].queue)
    && (StreamOpen(s, c) ==>
          && s.clients[c].subscriptions.Keys == Requested(s, c)
          && forall i: nat | i < |s.subs| && s.subs[i].client == c :: SubOnRecord(s, i))
  }

  ghost predicate Stopping<V>(s: State<V>)
    requires Shape(s)
  {
    forall i | 0 <= i < |s.subs| :: SubShape(s, s.subs[i]) && SubStopsForReason(s, s.subs[i])
  }

  ghost predicate Records<V>(s: State<V>)
    requires Shape(s)
  {
    && (forall c, e | c in s.clients && e in s.clients[c].subscriptions :: RecordPoints(s, c, e))
    && (forall c | c in s.clients && c !in s.overlapped :: ClientOk(s, c))
  }

  ghost predicate Inv<V>(s: State<V>) {
    Shape(s) && Attached(s) && Tracks(s) && Ledger(s) && Holds(s) && Streams(s) && Stopping(s) && Records(s)
  }

  lemma InvInitial<V>(publishCapacity: nat, clientCapacity: nat)
    requires publishCapacity > 0 && clientCapacity > 0
    ensures Inv<V>(Initial(publishCapacity, clientCapacity))
  {}

  // ----- frames -----

  /** A subscription before and after a step that changes nothing client records depend on. */
  ghost predicate SameRole<V>(a: Subscription<V>, b: Subscription<V>) {
    && a.client == b.client && a.event == b.event && a.queue == b.queue && a.cancelled == b.cancelled
    && (IsOver(a.phase) ==> IsOver(b.phase))
    && (IsOver(b.phase) ==> IsOver(a.phase) || a.cancelled)
  }

  ghost predicate SameRoles<V>(s: State<V>, t: State<V>) {
    |t.subs| == |s.subs| && forall i | 0 <= i < |s.subs| :: SameRole(s.subs[i], t.subs[i])
  }

  lemma RecordsFrame<V>(s: State<V>, t: State<V>)
    requires Shape(s) && Shape(t) && Records(s)
    requires t.clients == s.clients && t.requested == s.requested && t.overlapped == s.overlapped
    requires SameRoles(s, t)
    requires |t.queues| == |s.queues| && forall q | 0 <= q < |s.queues| :: t.queues[q].open ==> s.queues[q].open
    ensures Records(t)
  {}

  /** A subscription before and after a step that sends nothing for it. */
  ghost predicate SameOutput<V>(a: Subscription<V>, b: Subscription<V>, i: nat) {
    a.queue == b.queue && a.event == b.event && Sent(a.handed, i, a.event) == Sent(b.handed, i, b.event)
  }

  ghost predicate SameOutputs<V>(s: State<V>, t: State<V>) {
    |t.subs| == |s.subs| && forall i: nat | i < |s.subs| :: SameOutput(s.subs[i], t.subs[i], i)
  }

  lemma StreamsFrame<V>(s: State<V>, t: State<V>)
    requires Shape(s) && Shape(t) && Streams(s)
    requires t.queues == s.queues && t.clientCapacity == s.clientCapacity
    requires SameOutputs(s, t)
    ensures Streams(t)
  {
    forall q | 0 <= q < |t.queues| ensures QueueOk(t, q) {
      assert QueueOk(s, q);
    }
    forall i: nat | i < |t.subs| ensures SubShape(t, t.subs[i]) && SubStreamed(t, i) {
      assert SubStreamed(s, i);
    }
  }

  /** Publications only ever extend the history a ledger speaks about. */
  lemma LedgerFrame<V>(s: State<V>, t: State<V>, sub: Subscription<V>)
    requires SubLedger(s, sub)
    requires History(s, sub.event) <= History(t, sub.event) && t.publishCapacity == s.publishCapacity
    ensures SubLedger(t, sub)
  {}

  /** The facts about one subscription that do not involve client records. */
  ghost predicate SubOk<V>(s: State<V>, sub: Subscription<V>) {
    && SubShape(s, sub) && SubAttached(s, sub) && SubTracks(s, sub) && SubLedger(s, sub) && SubHolds(sub)
    && SubStopsForReason(s, sub)
  }

  /** A subscription that a step leaves alone or ends, when the step leaves senders,
      channels and history alone. */
  lemma SubFrame<V>(s: State<V>, t: State<V>, sub: Subscription<V>, after: Subscription<V>)
    requires SubOk(s, sub)
    requires after == sub.(phase := after.phase, cancelled := after.cancelled)
    requires sub.cancelled ==> after.cancelled
    requires || after.phase == sub.phase
             || (after.phase == Leaving && sub.phase == Abandoning)
             || (after.phase == Ended && ((sub.phase == Serving && sub.cancelled) || sub.phase == Leaving))
    requires t.senders == s.senders && t.channels == s.channels && t.history == s.history
    requires t.publishCapacity == s.publishCapacity
    requires s.clients.Keys <= t.clients.Keys
    requires |t.queues| == |s.queues| && forall q | 0 <= q < |s.queues| :: t.queues[q].open ==> s.queues[q].open
    ensures SubOk(t, after)
  {}

  lemma SubsOk<V>(s: State<V>)
    requires Inv(s)
    ensures forall i | 0 <= i < |s.subs| :: SubOk(s, s.subs[i])
  {}

  lemma Assemble<V>(s: State<V>)
    requires Shape(s) && OneEventPerSender(s) && Streams(s) && Records(s)
    requires forall i | 0 <= i < |s.subs| :: SubOk(s, s.subs[i])
    ensures Inv(s)
  {}

  lemma SameSubs<V>(s: State<V>, t: State<V>)
    requires t.subs == s.subs
    ensures SameRoles(s, t) && SameOutputs(s, t)
  {}

  /** A task that ends without anything else changing. */
  lemma EndFrame<V>(s: State<V>, t: State<V>, i: nat)
    requires i < |s.subs| && t == s.(subs := s.subs[i := s.subs[i].(phase := Ended)])
    requires s.subs[i].cancelled || IsOver(s.subs[i].phase)
    ensures SameRoles(s, t) && SameOutputs(s, t)
  {}

  lemma EndSubs<V>(s: State<V>, t: State<V>, i: nat)
    requires i < |s.subs| && t == s.(subs := s.subs[i := s.subs[i].(phase := Ended)])
    requires (s.subs[i].phase == Serving && s.subs[i].cancelled) || s.subs[i].phase == Leaving
    requires forall j | 0 <= j < |s.subs| :: SubOk(s, s.subs[j])
    ensures forall j | 0 <= j < |t.subs| :: SubOk(t, t.subs[j])
  {
    forall j | 0 <= j < |t.subs| ensures SubOk(t, t.subs[j]) {
      SubFrame(s, t, s.subs[j], t.subs[j]);
    }
  }

  /** A step that leaves clients and streams alone and changes each subscription in ways that
      matter to neither. */
  lemma FrameKeeps<V>(s: State<V>, t: State<V>)
    requires Inv(s) && Shape(t) && OneEventPerSender(t)
    requires t.clients == s.clients && t.requested == s.requested && t.overlapped == s.overlapped
    requires t.queues == s.queues && t.clientCapacity == s.clientCapacity
    requires SameRoles(s, t) && SameOutputs(s, t)
    requires forall i | 0 <= i < |t.subs| :: SubOk(t, t.subs[i])
    ensures Inv(t)
  {
    RecordsFrame(s, t);
    StreamsFrame(s, t);
    Assemble(t);
  }

  // ----- publishing -----

  lemma PublishSub<V>(s: State<V>, e: EventId, v: V, sub: Subscription<V>)
    requires Shape(s) && OneEventPerSender(s) && sub in s.subs && SubOk(s, sub)
    ensures SubOk(Publish(s, e, v), sub)
  {}

  lemma PublishShape<V>(s: State<V>, e: EventId, v: V)
    requires Shape(s)
    ensures Shape(Publish(s, e, v))
  {}

  lemma PublishSubs<V>(s: State<V>, e: EventId, v: V)
    requires Shape(s) && OneEventPerSender(s) && forall i | 0 <= i < |s.subs| :: SubOk(s, s.subs[i])
    ensures var t := Publish(s, e, v); t.subs == s.subs && forall i | 0 <= i < |t.subs| :: SubOk(t, t.subs[i])
  {
    forall i | 0 <= i < |s.subs| ensures SubOk(Publish(s, e, v), s.subs[i]) {
      PublishSub(s, e, v, s.subs[i]);
    }
  }

  lemma PublishKeeps<V>(s: State<V>, e: EventId, v: V)
    requires Inv(s)
    ensures Inv(Publish(s, e, v))
  {
    var t := Publish(s, e, v);
    SubsOk(s);
    PublishShape(s, e, v);
    PublishSubs(s, e, v);
    SameSubs(s, t);
    FrameKeeps(s, t);
  }

  // ----- opening a client -----

  lemma OpenKeeps<V>(s: State<V>, c: ClientId)
    requires Inv(s)
    ensures Inv(Open(s, c))
  {
    var t := Open(s, c);
    SubsOk(s);
    forall i | 0 <= i < |t.subs| ensures SubOk(t, t.subs[i]) {
      assert SubOk(s, s.subs[i]);
      LedgerFrame(s, t, s.subs[i]);
    }
    OpenStreams(s, c);
    OpenRecords(s, c);
    Assemble(t);
  }

  lemma OpenStreams<V>(s: State<V>, c: ClientId)
    requires Inv(s)
    ensures Shape(Open(s, c)) && Streams(Open(s, c))
  {
    var t := Open(s, c);
    forall q | 0 <= q < |t.queues| ensures QueueOk(t, q) {
      if q < |s.queues| { assert QueueOk(s, q); }
    }
    forall i: nat | i < |t.subs| ensures SubShape(t, t.subs[i]) && SubStreamed(t, i) {
      assert SubStreamed(s, i);
    }
  }

  lemma OpenClient<V>(s: State<V>, c: ClientId, d: ClientId)
    requires Shape(s) && Shape(Open(s, c)) && d !in Open(s, c).overlapped
    requires d != c ==> d in s.clients && ClientOk(s, d)
    ensures ClientOk(Open(s, c), d)
  {}

  lemma OpenRecords<V>(s: State<V>, c: ClientId)
    requires Shape(s) && Records(s) && Shape(Open(s, c))
    ensures Records(Open(s, c))
  {
    var t := Open(s, c);
    forall d | d in t.clients && d !in t.overlapped ensures ClientOk(t, d) {
      OpenClient(s, c, d);
    }
    forall d, e | d in t.clients && e in t.clients[d].subscriptions ensures RecordPoints(t, d, e) {
      assert RecordPoints(s, d, e);
    }
  }

  // ----- registering -----

  lemma WithSenderSub<V>(s: State<V>, e: EventId, sub: Subscription<V>)
    requires SubOk(s, sub)
    ensures SubOk(WithSender(s, e), sub)
  {}

  lemma WithSenderKeeps<V>(s: State<V>, e: EventId)
    requires Inv(s)
    ensures Inv(WithSender(s, e))
  {
    var t := WithSender(s, e);
    SubsOk(s);
    forall i | 0 <= i < |t.subs| ensures SubOk(t, t.subs[i]) {
      WithSenderSub(s, e, s.subs[i]);
    }
    WithSenderShape(s, e);
    SameSubs(s, t);
    FrameKeeps(s, t);
  }

  lemma WithSenderShape<V>(s: State<V>, e: EventId)
    requires Shape(s) && OneEventPerSender(s)
    ensures Shape(WithSender(s, e)) && OneEventPerSender(WithSender(s, e))
  {}

  lemma SubscribeShape<V>(s: State<V>, c: ClientId, e: EventId)
    requires Shape(s) && c in s.clients && e in s.senders
    ensures Shape(Subscribe(s, c, e)) && Shape(Ask(Subscribe(s, c, e), c, e))
  {}

  lemma SubscribeStreams<V>(s: State<V>, c: ClientId, e: EventId)
    requires Shape(s) && Streams(s) && c in s.clients && e in s.senders
    requires Shape(Subscribe(s, c, e))
    ensures Streams(Subscribe(s, c, e))
  {
    var t := Subscribe(s, c, e);
    forall q | 0 <= q < |t.queues| ensures QueueOk(t, q) {
      assert QueueOk(s, q);
    }
    forall i: nat | i < |t.subs| ensures SubShape(t, t.subs[i]) && SubStreamed(t, i) {
      if i < |s.subs| {
        assert SubStreamed(s, i);
      } else {
        assert QueueOk(s, s.clients[c].queue);
        ProjectionOfStranger(s.queues[s.clients[c].queue].accepted, i);
      }
    }
  }

  lemma {:induction false} ProjectionOfStranger<V>(stream: seq<ClientEvent<V>>, i: nat)
    requires forall x | x in stream :: x.subscription != i
    ensures Projection(stream, i) == []
  {
    if stream != [] {
      ProjectionOfStranger(stream[..|stream| - 1], i);
    }
  }

  /** The new record is complete for the client that registered. */
  lemma SubscribeRecords<V>(s: State<V>, c: ClientId, e: EventId)
    requires Shape(s) && Records(s) && c in s.clients && e in s.senders && e !in s.clients[c].subscriptions
    requires Shape(Ask(Subscribe(s, c, e), c, e))
    ensures Records(Ask(Subscribe(s, c, e), c, e))
  {
    var t := Ask(Subscribe(s, c, e), c, e);
    forall d | d in t.clients && d !in t.overlapped ensures ClientOk(t, d) {
      SubscribeClient(s, c, e, d);
    }
    forall d, f | d in t.clients && f in t.clients[d].subscriptions ensures RecordPoints(t, d, f) {
      if d != c || f != e { assert RecordPoints(s, d, f); }
    }
  }

  lemma SubscribeClient<V>(s: State<V>, c: ClientId, e: EventId, d: ClientId)
    requires Shape(s) && c in s.clients && e in s.senders && e !in s.clients[c].subscriptions
    requires Shape(Ask(Subscribe(s, c, e), c, e))
    requires d in s.clients && ClientOk(s, d)
    ensures ClientOk(Ask(Subscribe(s, c, e), c, e), d)
  {
    var t := Ask(Subscribe(s, c, e), c, e);
    assert StreamOpen(t, d) == StreamOpen(s, d);
    forall i: nat | i < |t.subs| && t.subs[i].client == d
      ensures !IsOver(t.subs[i].phase) ==> t.subs[i].queue == t.clients[d].queue
      ensures StreamOpen(t, d) ==> SubOnRecord(t, i)
    {
      if StreamOpen(t, d) && i < |s.subs| { assert SubOnRecord(s, i); }
    }
  }

  lemma AskShape<V>(s: State<V>, c: ClientId, e: EventId)
    requires Shape(s)
    ensures Shape(Ask(s, c, e))
  {}

  lemma AskRecords<V>(s: State<V>, c: ClientId, e: EventId)
    requires Shape(s) && Records(s) && c in s.clients && e in s.clients[c].subscriptions && Shape(Ask(s, c, e))
    ensures Records(Ask(s, c, e))
  {}

  lemma AskKeeps<V>(s: State<V>, c: ClientId, e: EventId)
    requires Shape(s) && OneEventPerSender(s) && Streams(s) && Shape(Ask(s, c, e)) && Records(Ask(s, c, e))
    requires forall i | 0 <= i < |s.subs| :: SubOk(s, s.subs[i])
    ensures Inv(Ask(s, c, e))
  {
    var t := Ask(s, c, e);
    forall i | 0 <= i < |t.subs| ensures SubOk(t, t.subs[i]) {
      assert SubOk(s, s.subs[i]);
      LedgerFrame(s, t, s.subs[i]);
    }
    StreamsFrame(s, t);
    Assemble(t);
  }

  lemma SubscribeSub<V>(s: State<V>, c: ClientId, e: EventId, sub: Subscription<V>)
    requires SubOk(s, sub) && c in s.clients && e in s.senders && s.senders[e] < |s.channels|
    ensures SubOk(Subscribe(s, c, e), sub)
  {}

  lemma FreshSubOk<V>(s: State<V>, c: ClientId, e: EventId)
    requires Shape(s) && c in s.clients && e in s.senders
    ensures SubOk(Subscribe(s, c, e), NewSubscription(s, c, e))
  {}

  lemma RegisterAfresh<V>(s: State<V>, c: ClientId, e: EventId)
    requires Inv(s) && c in s.clients && e in s.senders && e !in s.clients[c].subscriptions
    ensures Inv(Ask(Subscribe(s, c, e), c, e))
  {
    SubsOk(s);
    SubscribeShape(s, c, e);
    SubscribeStreams(s, c, e);
    SubscribeRecords(s, c, e);
    var t := Subscribe(s, c, e);
    forall i | 0 <= i < |t.subs| ensures SubOk(t, t.subs[i]) {
      if i < |s.subs| {
        SubscribeSub(s, c, e, s.subs[i]);
      } else {
        FreshSubOk(s, c, e);
      }
    }
    AskKeeps(t, c, e);
  }

  lemma RegisterKeeps<V>(s: State<V>, c: ClientId, e: EventId)
    requires Inv(s) && c in s.clients
    ensures Inv(Register(s, c, e))
  {
    if e in s.clients[c].subscriptions {
      SubsOk(s);
      AskShape(s, c, e);
      AskRecords(s, c, e);
      AskKeeps(s, c, e);
    } else {
      WithSenderKeeps(s, e);
      RegisterAfresh(WithSender(s, e), c, e);
    }
  }

  // ----- deregistering -----

  lemma RevokeShape<V>(s: State<V>, c: ClientId, e: EventId)
    requires Shape(s) && c in s.clients
    ensures Shape(Revoke(s, c, e))
  {}

  lemma RevokeClient<V>(s: State<V>, c: ClientId, e: EventId, d: ClientId)
    requires Shape(s) && c in s.clients && Shape(Revoke(s, c, e))
    requires e in s.clients[c].subscriptions ==> RecordPoints(s, c, e)
    requires d in s.clients && ClientOk(s, d)
    ensures ClientOk(Revoke(s, c, e), d)
  {}

  lemma RevokeRecords<V>(s: State<V>, c: ClientId, e: EventId)
    requires Shape(s) && Records(s) && c in s.clients && Shape(Revoke(s, c, e))
    ensures Records(Revoke(s, c, e))
  {
    var t := Revoke(s, c, e);
    forall d | d in t.clients && d !in t.overlapped ensures ClientOk(t, d) {
      RevokeClient(s, c, e, d);
    }
    forall d, f | d in t.clients && f in t.clients[d].subscriptions ensures RecordPoints(t, d, f) {
      assert RecordPoints(s, d, f);
      assert e in s.clients[c].subscriptions ==> RecordPoints(s, c, e);
    }
  }

  lemma RevokeSubs<V>(s: State<V>, c: ClientId, e: EventId)
    requires Shape(s) && c in s.clients
    requires forall i | 0 <= i < |s.subs| :: SubOk(s, s.subs[i])
    ensures var t := Revoke(s, c, e); forall i | 0 <= i < |t.subs| :: SubOk(t, t.subs[i])
  {
    var t := Revoke(s, c, e);
    forall i | 0 <= i < |t.subs| ensures SubOk(t, t.subs[i]) {
      SubFrame(s, t, s.subs[i], t.subs[i]);
    }
  }

  lemma RevokeStreams<V>(s: State<V>, c: ClientId, e: EventId)
    requires Shape(s) && Streams(s) && c in s.clients && Shape(Revoke(s, c, e))
    ensures Streams(Revoke(s, c, e))
  {
    StreamsFrame(s, Revoke(s, c, e));
  }

  lemma RevokeKeeps<V>(s: State<V>, c: ClientId, e: EventId)
    requires Inv(s) && c in s.clients
    ensures Inv(Revoke(s, c, e))
  {
    var t := Revoke(s, c, e);
    SubsOk(s);
    RevokeShape(s, c, e);
    RevokeSubs(s, c, e);
    RevokeRecords(s, c, e);
    RevokeStreams(s, c, e);
    Assemble(t);
  }

  lemma SweepSub<V>(s: State<V>, e: EventId, sub: Subscription<V>)
    requires SubOk(s, sub) && sub in s.subs
    ensures SubOk(Sweep(s, e), sub)
  {}

  lemma SweepKeeps<V>(s: State<V>, e: EventId)
    requires Inv(s)
    ensures Inv(Sweep(s, e))
  {
    var t := Sweep(s, e);
    SubsOk(s);
    forall i | 0 <= i < |t.subs| ensures SubOk(t, t.subs[i]) {
      SweepSub(s, e, s.subs[i]);
    }
    SameSubs(s, t);
    FrameKeeps(s, t);
  }

  // ----- tasks ending -----

  lemma CancelKeeps<V>(s: State<V>, i: nat)
    requires Inv(s) && CanCancel(s, i)
    ensures Inv(Cancel(s, i))
  {
    var t := Cancel(s, i);
    SubsOk(s);
    EndSubs(s, t, i);
    EndFrame(s, t, i);
    FrameKeeps(s, t);
  }

  lemma CleanUpShape<V>(s: State<V>, i: nat)
    requires Shape(s) && CanCleanUp(s, i)
    ensures Shape(CleanUp(s, i))
  {}

  lemma CleanUpClient<V>(s: State<V>, i: nat, c: ClientId)
    requires Shape(s) && CanCleanUp(s, i) && Shape(CleanUp(s, i)) && SubStopsForReason(s, s.subs[i])
    requires c in s.clients && ClientOk(s, c)
    ensures ClientOk(CleanUp(s, i), c)
  {}

  lemma CleanUpRecords<V>(s: State<V>, i: nat)
    requires Shape(s) && Records(s) && CanCleanUp(s, i) && Shape(CleanUp(s, i))
    requires SubStopsForReason(s, s.subs[i])
    ensures Records(CleanUp(s, i))
  {
    var t := CleanUp(s, i);
    forall c | c in t.clients && c !in t.overlapped ensures ClientOk(t, c) {
      CleanUpClient(s, i, c);
    }
    forall c, e | c in t.clients && e in t.clients[c].subscriptions ensures RecordPoints(t, c, e) {
      assert RecordPoints(s, c, e);
    }
  }

  lemma CleanUpKeeps<V>(s: State<V>, i: nat)
    requires Inv(s) && CanCleanUp(s, i)
    ensures Inv(CleanUp(s, i))
  {
    var t := CleanUp(s, i);
    SubsOk(s);
    CleanUpShape(s, i);
    CleanUpRecords(s, i);
    forall j | 0 <= j < |t.subs| ensures SubOk(t, t.subs[j]) {
      SubFrame(s, t, s.subs[j], t.subs[j]);
    }
    StreamsFrame(s, t);
    Assemble(t);
  }

  lemma LeaveKeeps<V>(s: State<V>, i: nat)
    requires Inv(s) && CanLeave(s, i)
    ensures Inv(Leave(s, i))
  {
    var t := Leave(s, i);
    SubsOk(s);
    EndSubs(s, t, i);
    EndFrame(s, t, i);
    FrameKeeps(s, t);
  }

  // ----- the client side -----

  /** A step that touches one client channel but not what it accepted. */
  lemma QueueFrame<V>(s: State<V>, t: State<V>, q: nat)
    requires Inv(s) && q < |s.queues| && q < |t.queues|
    requires t == s.(queues := s.queues[q := t.queues[q]])
    requires t.queues[q].accepted == s.queues[q].accepted && (t.queues[q].open ==> s.queues[q].open)
    requires QueueOk(t, q)
    ensures Inv(t)
  {
    SubsOk(s);
    forall i | 0 <= i < |t.subs| ensures SubOk(t, t.subs[i]) {
      SubFrame(s, t, s.subs[i], t.subs[i]);
    }
    RecordsFrame(s, t);
    forall p | 0 <= p < |t.queues| ensures QueueOk(t, p) {
      assert QueueOk(s, p);
    }
    forall i: nat | i < |t.subs| ensures SubShape(t, t.subs[i]) && SubStreamed(t, i) {
      assert SubStreamed(s, i);
    }
    Assemble(t);
  }

  lemma ReadKeeps<V>(s: State<V>, q: nat)
    requires Inv(s) && CanRead(s, q)
    ensures Inv(Read(s, q))
  {
    assert QueueOk(s, q);
    QueueFrame(s, Read(s, q), q);
  }

  lemma CloseKeeps<V>(s: State<V>, q: nat)
    requires Inv(s) && q < |s.queues|
    ensures Inv(Close(s, q))
  {
    assert QueueOk(s, q);
    QueueFrame(s, Close(s, q), q);
  }

  // ----- serving -----

  lemma WrappedSum(n: nat, k: nat)
    ensures (n % U64 + k) % U64 == (n + k) % U64
  {}

  lemma LagAccounts<V>(published: seq<V>, base: nat, n: nat, m: nat, handed: seq<Handed<V>>, lagged: set<nat>)
    requires Accounts(published, base, n, handed, lagged) && n <= m && base + m <= |published|
    ensures Accounts(published, base, m, handed, lagged + Between(n, m))
  {}

  lemma LagLedger<V>(s: State<V>, i: nat)
    requires Shape(s) && CanLag(s, i) && SubOk(s, s.subs[i])
    ensures SubOk(Lag(s, i), Lag(s, i).subs[i])
  {
    var sub := s.subs[i];
    var n := Consumed(sub);
    assert |History(s, sub.event)[sub.base..]| == |s.channels[sub.channel][sub.start..]|;
    WrappedSum(n, LagAmount(s, i));
    LagAccounts(History(s, sub.event), sub.base, n, n + LagAmount(s, i), sub.handed, sub.lagged);
  }

  lemma LagKeeps<V>(s: State<V>, i: nat)
    requires Inv(s) && CanLag(s, i)
    ensures Inv(Lag(s, i))
  {
    var t := Lag(s, i);
    SubsOk(s);
    forall j | 0 <= j < |t.subs| ensures SubOk(t, t.subs[j]) {
      if j == i { LagLedger(s, i); } else { SubFrame(s, t, s.subs[j], t.subs[j]); }
    }
    FrameKeeps(s, t);
  }

  lemma HandAccounts<V>(published: seq<V>, base: nat, n: nat, handed: seq<Handed<V>>, lagged: set<nat>, h: Handed<V>)
    requires Accounts(published, base, n, handed, lagged)
    requires h.ordinal == n + 1 && Genuine(published, base, h)
    ensures Accounts(published, base, n + 1, handed + [h], lagged)
  {
    assert Ordinals(handed + [h]) == Ordinals(handed) + {n + 1};
    forall k | 0 <= k < |handed| ensures handed[k].ordinal <= n {
      assert handed[k].ordinal in Ordinals(handed) && handed[k].ordinal in Between(0, n);
    }
    assert forall o | o in lagged :: o in Between(0, n);
    assert Between(0, n) + {n + 1} == Between(0, n + 1);
  }

  lemma TakeLedger<V>(s: State<V>, i: nat)
    requires Shape(s) && CanTake(s, i) && SubOk(s, s.subs[i])
    ensures SubOk(Take(s, i), Take(s, i).subs[i])
  {
    var sub := s.subs[i];
    var n := Consumed(sub);
    var h := Take(s, i).subs[i].handed[|sub.handed|];
    WrappedSum(n, 1);
    assert s.channels[sub.channel][sub.start..][n] == History(s, sub.event)[sub.base..][n];
    HandAccounts(History(s, sub.event), sub.base, n, sub.handed, sub.lagged, h);
  }

  lemma TakeSubs<V>(s: State<V>, i: nat)
    requires Shape(s) && CanTake(s, i)
    requires forall j | 0 <= j < |s.subs| :: SubOk(s, s.subs[j])
    ensures Shape(Take(s, i))
    ensures var t := Take(s, i); forall j | 0 <= j < |t.subs| :: SubOk(t, t.subs[j])
  {
    var t := Take(s, i);
    forall j | 0 <= j < |t.subs| ensures SubOk(t, t.subs[j]) {
      if j == i { TakeLedger(s, i); } else { SubFrame(s, t, s.subs[j], t.subs[j]); }
    }
  }

  lemma TakeFrames<V>(s: State<V>, i: nat)
    requires CanTake(s, i)
    ensures SameRoles(s, Take(s, i)) && SameOutputs(s, Take(s, i))
  {}

  lemma TakeKeeps<V>(s: State<V>, i: nat)
    requires Inv(s) && CanTake(s, i)
    ensures Inv(Take(s, i))
  {
    var t := Take(s, i);
    SubsOk(s);
    TakeSubs(s, i);
    TakeFrames(s, i);
    FrameKeeps(s, t);
  }

  lemma SettledHas<V>(handed: seq<Handed<V>>, fate: Fate, h: Handed<V>)
    requires h in handed
    ensures h in Settled(handed, fate) || h.(fate := fate) in Settled(handed, fate)
  {
    var j :| 0 <= j < |handed| && handed[j] == h;
    assert Settled(handed, fate)[j] in Settled(handed, fate);
  }

  /** The fate of the event in hand changes nothing about what is accounted for. */
  lemma SettledAccounts<V>(published: seq<V>, base: nat, n: nat, handed: seq<Handed<V>>, lagged: set<nat>, fate: Fate)
    requires Accounts(published, base, n, handed, lagged) && handed != []
    ensures Accounts(published, base, n, Settled(handed, fate), lagged)
  {
    var settled := Settled(handed, fate);
    forall j | 0 <= j < |handed|
      ensures settled[j].ordinal == handed[j].ordinal && Genuine(published, base, settled[j])
    {
      assert handed[j] in handed;
    }
    forall o: nat ensures o in Ordinals(settled) <==> o in Ordinals(handed) {
      if h :| h in handed && h.ordinal == o { SettledHas(handed, fate, h); }
    }
  }

  lemma OfferLedger<V>(s: State<V>, i: nat)
    requires Shape(s) && CanOffer(s, i) && SubOk(s, s.subs[i])
    ensures SubOk(Offer(s, i), Offer(s, i).subs[i])
  {
    var sub := s.subs[i];
    SettledAccounts(History(s, sub.event), sub.base, Consumed(sub), sub.handed, sub.lagged,
                    TrySend(s, s.queues[sub.queue]));
  }

  lemma OfferSubs<V>(s: State<V>, i: nat)
    requires Shape(s) && CanOffer(s, i)
    requires forall j | 0 <= j < |s.subs| :: SubOk(s, s.subs[j])
    ensures Shape(Offer(s, i))
    ensures var t := Offer(s, i); forall j | 0 <= j < |t.subs| :: SubOk(t, t.subs[j])
  {
    var t := Offer(s, i);
    forall j | 0 <= j < |t.subs| ensures SubOk(t, t.subs[j]) {
      if j == i { OfferLedger(s, i); } else { SubFrame(s, t, s.subs[j], t.subs[j]); }
    }
  }

  lemma SentSettled<V>(handed: seq<Handed<V>>, fate: Fate, i: nat, source: EventId)
    requires handed != [] && handed[|handed| - 1].fate == InHand && fate != InHand
    ensures var held := handed[|handed| - 1];
            Sent(Settled(handed, fate), i, source) ==
            if fate == Accepted then Sent(handed, i, source) + [ClientEvent(i, source, held.event, held.number)]
            else Sent(handed, i, source)
  {
    assert Settled(handed, fate)[..|handed| - 1] == handed[..|handed| - 1];
  }

  lemma ProjectionSnoc<V>(stream: seq<ClientEvent<V>>, x: ClientEvent<V>, j: nat)
    ensures Projection(stream + [x], j) == if x.subscription == j then Projection(stream, j) + [x] else Projection(stream, j)
  {
    assert (stream + [x])[..|stream|] == stream;
  }

  lemma OfferStream<V>(s: State<V>, i: nat, j: nat)
    requires CanOffer(s, i) && SubHolds(s.subs[i])
    requires j < |s.subs| && s.subs[j].queue < |s.queues| && SubStreamed(s, j)
    ensures SubStreamed(Offer(s, i), j)
  {
    var sub := s.subs[i];
    var held := sub.handed[|sub.handed| - 1];
    assert held.fate == InHand;
    SentSettled(sub.handed, TrySend(s, s.queues[sub.queue]), i, sub.event);
    ProjectionSnoc(s.queues[sub.queue].accepted, ClientEvent(i, sub.event, held.event, held.number), j);
  }

  lemma OfferQueue<V>(s: State<V>, i: nat, q: nat)
    requires CanOffer(s, i) && q < |s.queues| && QueueOk(s, q)
    ensures QueueOk(Offer(s, i), q)
  {}

  lemma OfferStreams<V>(s: State<V>, i: nat)
    requires Shape(s) && Streams(s) && CanOffer(s, i) && SubHolds(s.subs[i]) && Shape(Offer(s, i))
    ensures Streams(Offer(s, i))
  {
    var t := Offer(s, i);
    forall q | 0 <= q < |t.queues| ensures QueueOk(t, q) {
      OfferQueue(s, i, q);
    }
    forall j: nat | j < |t.subs| ensures SubShape(t, t.subs[j]) && SubStreamed(t, j) {
      OfferStream(s, i, j);
    }
  }

  lemma OfferFrames<V>(s: State<V>, i: nat)
    requires CanOffer(s, i)
    ensures var t := Offer(s, i);
            && SameRoles(s, t) && |t.queues| == |s.queues|
            && forall q | 0 <= q < |s.queues| :: t.queues[q].open ==> s.queues[q].open
  {}

  lemma OfferKeeps<V>(s: State<V>, i: nat)
    requires Inv(s) && CanOffer(s, i)
    ensures Inv(Offer(s, i))
  {
    var t := Offer(s, i);
    SubsOk(s);
    OfferSubs(s, i);
    OfferStreams(s, i);
    OfferFrames(s, i);
    RecordsFrame(s, t);
    Assemble(t);
  }
}
