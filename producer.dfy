/** The event producer: every emit call hands one (topic, key, payload) triple to the
    transport. The transport itself is not modelled; the triples are kept in a ghost log. */
module Producer {
  import opened Config
  import opened Types

  class EventProducer {
    ghost var log: seq<Emission>

    constructor()
      ensures log == []
    {
      log := [];
    }

    method Emit(e: Event)
      modifies this
      ensures log == old(log) + [EmissionOf(e)]
    {
      log := log + [EmissionOf(e)];
    }
  }

  /** Order events are keyed by the order id and rider events by the rider id, each on
      the topic of its own kind. */
  lemma EmissionRouting(e: Event)
    ensures EmissionOf(e).topic == EventTopic(e)
    ensures (e.OrderCreated? || e.OrderReady? || e.OrderAssigned? || e.OrderDelivered?) ==>
      EmissionOf(e).key == e.orderId
    ensures (e.RiderOnline? || e.RiderLocation? || e.RiderOffline?) ==> EmissionOf(e).key == e.riderId
    ensures e.OrderAssigned? ==> TopicName(EmissionOf(e).topic) == "order.assigned"
    ensures e.RiderOffline? ==> TopicName(EmissionOf(e).topic) == "rider.offline"
  {
  }
}
