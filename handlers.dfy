/** The event handlers as an object wired to the shared registry, store and producer and
    to the three services, and the topic table that routes messages to them. */
module Handlers {
  import opened Config
  import opened Types
  import opened RegistryState
  import opened StoreState
  import opened Registry
  import opened Store
  import opened Producer
  import opened Worlds
  import opened MatchingSpec
  import opened Matching
  import opened Orders
  import opened Riders
  import opened HandlersSpec

  /** `createHandlersMap`: one `set` per topic; the seven topic strings differ, so the
      map has seven entries and every topic reaches its own handler. */
  method CreateHandlersMap() returns (handlers: map<string, HandlerName>)
    ensures |handlers| == 7
    ensures forall t: Topic :: TopicName(t) in handlers && handlers[TopicName(t)] == HandlerFor(t)
  {
    SevenDistinctTopics();
    handlers := map[];
    handlers := handlers[TopicName(OrderCreatedTopic) := OrderCreatedHandler];
    handlers := handlers[TopicName(OrderReadyTopic) := OrderReadyHandler];
    handlers := handlers[TopicName(OrderAssignedTopic) := OrderAssignedHandler];
    handlers := handlers[TopicName(OrderDeliveredTopic) := OrderDeliveredHandler];
    assert |handlers| == 4;
    handlers := handlers[TopicName(RiderOnlineTopic) := RiderOnlineHandler];
    handlers := handlers[TopicName(RiderLocationTopic) := RiderLocationHandler];
    handlers := handlers[TopicName(RiderOfflineTopic) := RiderOfflineHandler];
    forall t: Topic
      ensures TopicName(t) in handlers && handlers[TopicName(t)] == HandlerFor(t)
    {
      match t
      case OrderCreatedTopic => case OrderReadyTopic => case OrderAssignedTopic =>
      case OrderDeliveredTopic => case RiderOnlineTopic => case RiderLocationTopic =>
      case RiderOfflineTopic =>
    }
  }

  /** A store statement refused inside a handler ends that handler; the consumer only
      logs the error, so every step already taken stays. */
  class EventHandlers {
    const reg: RedisClient
    const db: Database
    const producer: EventProducer
    const matching: MatchingService
    const orders: OrderService
    const riders: RiderService

    /** The services share this object's registry, store and producer. */
    ghost predicate Wired()
    {
      matching.reg == reg && matching.db == db && matching.producer == producer &&
      orders.reg == reg && orders.db == db && orders.producer == producer &&
      riders.reg == reg && riders.db == db && riders.producer == producer
    }

    constructor(reg: RedisClient, db: Database, producer: EventProducer, dist: DistanceFn)
      ensures Wired() && this.reg == reg && this.db == db && this.producer == producer
      ensures matching.dist == dist
    {
      this.reg := reg;
      this.db := db;
      this.producer := producer;
      this.matching := new MatchingService(reg, db, producer, dist);
      this.orders := new OrderService(reg, db, producer);
      this.riders := new RiderService(reg, db, producer);
    }

    ghost function W(): World
      reads reg, db, producer
    {
      WorldOf(reg, db, producer)
    }

    /** `handleOrderCreated` */
    method HandleOrderCreated(msg: Option<Event>, now: Time)
      requires Wired() && Carries(msg, OrderCreatedTopic)
      modifies reg
      ensures W() == OnOrderCreated(old(W()), msg, now)
    {
      if msg.None? {
        return;
      }
      var event := msg.value;
      reg.SetOrderStatus(event.orderId, Created, NoExtras, now);
    }

    /** `handleOrderReady` */
    method HandleOrderReady(msg: Option<Event>, now: Time)
      requires Wired() && Carries(msg, OrderReadyTopic)
      modifies reg, producer
      ensures W() == OnOrderReady(old(W()), msg, now)
    {
      if msg.None? {
        return;
      }
      var event := msg.value;
      reg.AddUnassignedOrder(event.orderId, event.restaurantId, event.restaurantLocation, now);
      var _ := matching.TryMatchOrder(event.orderId, now);
    }

    /** `handleOrderAssigned` */
    method HandleOrderAssigned(msg: Option<Event>, now: Time)
      requires Wired() && Carries(msg, OrderAssignedTopic)
      modifies reg, db
      ensures W() == OnOrderAssigned(old(W()), msg, now)
    {
      if msg.None? {
        return;
      }
      var event := msg.value;
      reg.SetOrderStatus(event.orderId, Assigned,
                         NoExtras.(riderId := Some(event.riderId), estimatedPickupTime := Some(event.estimatedPickupTime)), now);
      var _ := orders.UpdateOrderStatus(event.orderId, Assigned, Some(event.riderId), now);
    }

    /** `handleOrderDelivered` */
    method HandleOrderDelivered(msg: Option<Event>, now: Time)
      requires Wired() && Carries(msg, OrderDeliveredTopic)
      modifies reg, db, producer
      ensures W() == OnOrderDelivered(old(W()), msg, now, matching.dist)
    {
      if msg.None? {
        return;
      }
      var event := msg.value;
      reg.SetOrderStatus(event.orderId, Delivered, NoExtras.(deliveredAt := Some(event.deliveredAt)), now);
      reg.ClearRiderCurrentOrder(event.riderId);
      var error := orders.UpdateOrderStatus(event.orderId, Delivered, None, now);
      if error.Some? {
        return;
      }
      var _ := matching.TryMatchRider(event.riderId, now);
    }

    /** `handleRiderOnline` */
    method HandleRiderOnline(msg: Option<Event>, now: Time)
      requires Wired() && Carries(msg, RiderOnlineTopic)
      modifies reg, db, producer
      ensures W() == OnRiderOnline(old(W()), msg, now, matching.dist)
    {
      if msg.None? {
        return;
      }
      var event := msg.value;
      reg.AddOnlineRider(event.riderId, event.location, now);
      riders.UpdateRiderStatus(event.riderId, Online, now);
      var _ := matching.TryMatchRider(event.riderId, now);
    }

    /** `handleRiderLocation` */
    method HandleRiderLocation(msg: Option<Event>, now: Time)
      requires Wired() && Carries(msg, RiderLocationTopic)
      modifies reg, db
      ensures W() == OnRiderLocation(old(W()), msg, now)
    {
      if msg.None? {
        return;
      }
      var event := msg.value;
      reg.SetRiderLocation(event.riderId, event.location, now);
      if Truthy(event.currentOrderId) {
        var currentStatus := reg.GetOrderStatus(event.currentOrderId.value);
        if currentStatus.Some? {
          reg.SetOrderStatus(event.currentOrderId.value, currentStatus.value.status,
                             NoExtras.(riderId := Some(event.riderId), riderLocation := Some(event.location)), now);
        }
      }
      var _ := riders.SaveLocationHistory(event.riderId, event.location);
    }

    /** `handleRiderOffline` */
    method HandleRiderOffline(msg: Option<Event>, now: Time)
      requires Wired() && Carries(msg, RiderOfflineTopic)
      modifies reg, db, producer
      ensures W() == OnRiderOffline(old(W()), msg, now)
    {
      if msg.None? {
        return;
      }
      var event := msg.value;
      var currentOrderId := reg.GetRiderCurrentOrder(event.riderId);
      if Truthy(currentOrderId) {
        var _ := matching.ReassignOrder(currentOrderId.value, event.riderId, now);
      }
      reg.RemoveOnlineRider(event.riderId);
      riders.UpdateRiderStatus(event.riderId, Offline, now);
    }
  }
}
