/** The event sub-system behind the broker's subscription requests. */
module StreamingEss {
  import opened Types
  import opened Ess
  import opened EventSubSystem
  import Dispatch

  /** Serves a subscription request: the answer is the one dispatch gives when the readers are
      the clients on record, and the channel is then subscribed to all the sources as well,
      with one new task per source it was not subscribed to. */
  method ServeSubscriptions<V>(ess: EventSubSystem<V>, channel: ClientId, sources: seq<EventId>, ghost world: Dispatch.World,
                               ghost n: nat) returns (outcome: Dispatch.Outcome)
    requires InArena(ess.View()) && world.readers == ess.clientById.Keys
    modifies ess
    ensures InArena(ess.View())
    ensures outcome == Dispatch.Execute(Dispatch.RuntimeBinding.SystemSubscribe, Dispatch.SubscribeIntent(channel, sources), world, n).outcome
    ensures outcome.Failed? ==> ess.View() == old(ess.View())
    ensures !outcome.Failed? ==>
              && (forall e :: e in Ess.GetSubscriptions(ess.View(), channel) <==>
                    e in old(Ess.GetSubscriptions(ess.View(), channel)) || e in sources)
              && |ess.subs| == |old(ess.subs)| + |FirstMentions(old(Ess.GetSubscriptions(ess.View(), channel)), sources)|
              && (forall j | 0 <= j < |old(ess.subs)| :: ess.subs[j] == old(ess.subs)[j])
  {
    ghost var s := ess.View();
    var subscriptions := ess.RegisterSubscriptions(channel, sources);
    if subscriptions.None? {
      return Dispatch.Failed(Dispatch.FailedPrecondition);
    }
    RegisterAllEffect(s, channel, sources);
    outcome := Dispatch.Fulfilled(Dispatch.Subscribed);
  }
}
