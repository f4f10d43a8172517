/** The event choreography as functions on the whole state: each handler is the fixed
    sequence of registry, store and matching steps its topic triggers. A message whose
    value is empty is `None` and is dropped before any step. */
module HandlersSpec {
  import opened Config
  import opened Types
  import opened RegistryState
  import opened StoreState
  import opened Worlds
  import opened MatchingSpec
  import OrdersSpec

  /** The message is empty or carries a payload of the topic's own kind. */
  predicate Carries(msg: Option<Event>, t: Topic)
  {
    msg.None? || EventTopic(msg.value) == t
  }

  /** `handleOrderCreated` */
  function OnOrderCreated(w: World, msg: Option<Event>, now: Time): World
    requires Carries(msg, OrderCreatedTopic)
  {
    match msg
    case None => w
    case Some(e) => w.(reg := SetOrderStatus(w.reg, e.orderId, Created, NoExtras, now))
  }

  /** The registry after `handleOrderReady`'s enqueue, before matching. */
  function ReadyQueued(w: World, e: Event, now: Time): World
    requires e.OrderReady?
  {
    w.(reg := AddUnassignedOrder(w.reg, e.orderId, e.restaurantId, e.restaurantLocation, now))
  }

  /** `handleOrderReady` */
  function OnOrderReady(w: World, msg: Option<Event>, now: Time): World
    requires Carries(msg, OrderReadyTopic)
  {
    match msg
    case None => w
    case Some(e) => MatchOrder(ReadyQueued(w, e, now), e.orderId, now).world
  }

  function AssignedExtras(e: Event): Extras
    requires e.OrderAssigned?
  {
    NoExtras.(riderId := Some(e.riderId), estimatedPickupTime := Some(e.estimatedPickupTime))
  }

  /** `handleOrderAssigned` */
  function OnOrderAssigned(w: World, msg: Option<Event>, now: Time): World
    requires Carries(msg, OrderAssignedTopic)
  {
    match msg
    case None => w
    case Some(e) =>
      var reg1 := SetOrderStatus(w.reg, e.orderId, Assigned, AssignedExtras(e), now);
      World(reg1, Committed(w.db, OrdersSpec.UpdateOrderStatus(w.db, e.orderId, Assigned, Some(e.riderId), now)), w.log)
  }

  /** The store write of `handleOrderDelivered`. */
  function DeliveredWrite(w: World, e: Event, now: Time): Result<DbState>
    requires e.OrderDelivered?
  {
    OrdersSpec.UpdateOrderStatus(w.db, e.orderId, Delivered, None, now)
  }

  /** The state `handleOrderDelivered` hands to matching: status `delivered`, the
      rider's slot cleared, the store written. */
  function DeliveredCleared(w: World, e: Event, now: Time): World
    requires e.OrderDelivered?
  {
    var reg1 := SetOrderStatus(w.reg, e.orderId, Delivered, NoExtras.(deliveredAt := Some(e.deliveredAt)), now);
    var reg2 := ClearRiderCurrentOrder(reg1, e.riderId);
    World(reg2, Committed(w.db, DeliveredWrite(w, e, now)), w.log)
  }

  /** `handleOrderDelivered`: a refused store write ends the handler before matching. */
  function OnOrderDelivered(w: World, msg: Option<Event>, now: Time, dist: DistanceFn): World
    requires Carries(msg, OrderDeliveredTopic)
  {
    match msg
    case None => w
    case Some(e) =>
      if DeliveredWrite(w, e, now).Err? then DeliveredCleared(w, e, now)
      else MatchRider(DeliveredCleared(w, e, now), e.riderId, now, dist).world
  }

  /** The state `handleRiderOnline` hands to matching. */
  function OnlineAdded(w: World, e: Event, now: Time): World
    requires e.RiderOnline?
  {
    World(AddOnlineRider(w.reg, e.riderId, e.location, now), UpdateRiderRow(w.db, e.riderId, Online, now), w.log)
  }

  /** `handleRiderOnline` */
  function OnRiderOnline(w: World, msg: Option<Event>, now: Time, dist: DistanceFn): World
    requires Carries(msg, RiderOnlineTopic)
  {
    match msg
    case None => w
    case Some(e) => MatchRider(OnlineAdded(w, e, now), e.riderId, now, dist).world
  }

  /** The live status rewrite of `handleRiderLocation`: the same status value, now with
      the rider and its location as the only extras. */
  function TrackOrder(reg: RegState, e: Event, now: Time): RegState
    requires e.RiderLocation?
  {
    if Truthy(e.currentOrderId) then
      match GetOrderStatus(reg, e.currentOrderId.value)
      case None => reg
      case Some(st) =>
        SetOrderStatus(reg, e.currentOrderId.value, st.status,
                       NoExtras.(riderId := Some(e.riderId), riderLocation := Some(e.location)), now)
    else reg
  }

  /** `handleRiderLocation` */
  function OnRiderLocation(w: World, msg: Option<Event>, now: Time): World
    requires Carries(msg, RiderLocationTopic)
  {
    match msg
    case None => w
    case Some(e) =>
      var reg1 := SetRiderLocation(w.reg, e.riderId, e.location, now);
      var reg2 := TrackOrder(reg1, e, now);
      World(reg2, Committed(w.db, InsertLocationSample(w.db, e.riderId, e.location.latitude, e.location.longitude)), w.log)
  }

  /** The reassignment step of `handleRiderOffline`, taken only for a rider that holds
      a (non-empty) order. */
  function OfflineReassigned(w: World, riderId: RiderId, now: Time): World
  {
    var currentOrderId := GetRiderCurrentOrder(w.reg, riderId);
    if Truthy(currentOrderId) then Reassign(w, currentOrderId.value, riderId, now).world else w
  }

  /** `handleRiderOffline`: reassignment first, then the removal from the online set
      and the store write. */
  function OnRiderOffline(w: World, msg: Option<Event>, now: Time): World
    requires Carries(msg, RiderOfflineTopic)
  {
    match msg
    case None => w
    case Some(e) =>
      var w1 := OfflineReassigned(w, e.riderId, now);
      World(RemoveOnlineRider(w1.reg, e.riderId), UpdateRiderRow(w1.db, e.riderId, Offline, now), w1.log)
  }

  // ----- The topic table -----

  datatype HandlerName =
    | OrderCreatedHandler | OrderReadyHandler | OrderAssignedHandler | OrderDeliveredHandler
    | RiderOnlineHandler | RiderLocationHandler | RiderOfflineHandler

  /** The handler each topic is meant to reach. */
  function HandlerFor(t: Topic): HandlerName
  {
    match t
    case OrderCreatedTopic => OrderCreatedHandler
    case OrderReadyTopic => OrderReadyHandler
    case OrderAssignedTopic => OrderAssignedHandler
    case OrderDeliveredTopic => OrderDeliveredHandler
    case RiderOnlineTopic => RiderOnlineHandler
    case RiderLocationTopic => RiderLocationHandler
    case RiderOfflineTopic => RiderOfflineHandler
  }

  /** The topic each handler reads. */
  function TopicOf(h: HandlerName): Topic
  {
    match h
    case OrderCreatedHandler => OrderCreatedTopic
    case OrderReadyHandler => OrderReadyTopic
    case OrderAssignedHandler => OrderAssignedTopic
    case OrderDeliveredHandler => OrderDeliveredTopic
    case RiderOnlineHandler => RiderOnlineTopic
    case RiderLocationHandler => RiderLocationTopic
    case RiderOfflineHandler => RiderOfflineTopic
  }

  /** Running the named handler on a message of its topic. */
  function Run(h: HandlerName, w: World, msg: Option<Event>, now: Time, dist: DistanceFn): World
    requires Carries(msg, TopicOf(h))
  {
    match h
    case OrderCreatedHandler => OnOrderCreated(w, msg, now)
    case OrderReadyHandler => OnOrderReady(w, msg, now)
    case OrderAssignedHandler => OnOrderAssigned(w, msg, now)
    case OrderDeliveredHandler => OnOrderDelivered(w, msg, now, dist)
    case RiderOnlineHandler => OnRiderOnline(w, msg, now, dist)
    case RiderLocationHandler => OnRiderLocation(w, msg, now)
    case RiderOfflineHandler => OnRiderOffline(w, msg, now)
  }

  // ----- Properties -----

  /** Topics and handlers are in one-to-one correspondence, and every emitted event
      reaches the handler of its own kind. */
  lemma HandlerTableIsBijection(t: Topic, h: HandlerName, e: Event)
    ensures TopicOf(HandlerFor(t)) == t && HandlerFor(TopicOf(h)) == h
    ensures Carries(Some(e), TopicOf(HandlerFor(EventTopic(e))))
    ensures HandlerFor(EmissionOf(e).topic) == HandlerFor(EventTopic(e))
  {
  }

  /** An empty message changes nothing, whichever handler receives it. */
  lemma EmptyMessageIsDropped(h: HandlerName, w: World, now: Time, dist: DistanceFn)
    ensures Run(h, w, None, now, dist) == w
  {
  }

  /** After the enqueue the order has a record in the unassigned set and status
      `ready`; then first-available matching runs on it. With no idle online rider the
      record and status stay. */
  lemma OrderReadyQueuesThenMatches(w: World, e: Event, now: Time)
    requires e.OrderReady?
    ensures var w1 := ReadyQueued(w, e, now);
      UnassignedOrder(e.orderId, e.restaurantId, e.restaurantLocation, now) in w1.reg.unassigned &&
      GetOrderStatus(w1.reg, e.orderId) == Some(StatusRecord(e.orderId, Ready, now, NoExtras)) &&
      OnOrderReady(w, Some(e), now) == MatchOrder(w1, e.orderId, now).world
    ensures FirstAvailable(w.reg, w.reg.online).None? ==>
      OnOrderReady(w, Some(e), now) == ReadyQueued(w, e, now)
  {
    var w1 := ReadyQueued(w, e, now);
    AddUnassignedOrderAdds(w.reg, e.orderId, e.restaurantId, e.restaurantLocation, now);
    assert w1.reg.online == w.reg.online && w1.reg.currentOrder == w.reg.currentOrder;
    if FirstAvailable(w.reg, w.reg.online).None? {
      FirstAvailableDependsOnSlots(w.reg, w1.reg, w.reg.online);
    }
  }

  /** First-available matching reads only the current-order slots. */
  lemma {:induction false} FirstAvailableDependsOnSlots(s: RegState, s': RegState, riders: seq<OnlineRider>)
    requires s.currentOrder == s'.currentOrder
    ensures FirstAvailable(s, riders) == FirstAvailable(s', riders)
    decreases |riders|
  {
    if riders != [] {
      FirstAvailableDependsOnSlots(s, s', riders[1..]);
    }
  }

  /** The assigned handler leaves status `assigned` carrying the rider and pickup
      estimate, and the durable order `assigned` to that rider; when the order or the
      rider is unknown to the store, the store is left as it was. */
  lemma OrderAssignedEffects(w: World, e: Event, now: Time)
    requires e.OrderAssigned?
    ensures var w' := OnOrderAssigned(w, Some(e), now);
      GetOrderStatus(w'.reg, e.orderId) ==
        Some(StatusRecord(e.orderId, Assigned, now,
                          NoExtras.(riderId := Some(e.riderId), estimatedPickupTime := Some(e.estimatedPickupTime)))) &&
      w'.log == w.log && w'.reg.currentOrder == w.reg.currentOrder &&
      (e.orderId in w.db.orders && (e.riderId == "" || e.riderId in w.db.riders) ==>
        w'.db.orders[e.orderId].status == Assigned && w'.db.orders[e.orderId].assignedAt == Some(now) &&
        (e.riderId != "" ==> w'.db.orders[e.orderId].riderId == Some(e.riderId))) &&
      (e.orderId !in w.db.orders || (e.riderId != "" && e.riderId !in w.db.riders) ==> w'.db == w.db)
  {
  }

  /** The delivered handler marks the order `delivered` and frees the rider's slot
      before it looks for the rider's next order, which it does only when the order is
      known to the store; with nothing queued the rider ends free. */
  lemma OrderDeliveredFreesRider(w: World, e: Event, now: Time, dist: DistanceFn)
    requires e.OrderDelivered?
    ensures var w1 := DeliveredCleared(w, e, now);
      IsRiderAvailable(w1.reg, e.riderId) &&
      GetOrderStatus(w1.reg, e.orderId).value.status == Delivered &&
      GetOrderStatus(w1.reg, e.orderId).value.extras.deliveredAt == Some(e.deliveredAt) &&
      OnOrderDelivered(w, Some(e), now, dist) ==
        if e.orderId in w.db.orders then MatchRider(w1, e.riderId, now, dist).world else w1
    ensures w.reg.unassigned == [] ==>
      var w' := OnOrderDelivered(w, Some(e), now, dist);
      IsRiderAvailable(w'.reg, e.riderId) && GetOrderStatus(w'.reg, e.orderId).value.status == Delivered
  {
  }

  /** The online handler puts the rider in the online set with its location stamped
      now, marks the rider online in the store, then runs nearest-order matching. */
  lemma RiderOnlineEffects(w: World, e: Event, now: Time, dist: DistanceFn)
    requires e.RiderOnline?
    ensures var w1 := OnlineAdded(w, e, now);
      IsRiderOnline(w1.reg, e.riderId) &&
      GetRiderLocation(w1.reg, e.riderId) == Some(e.location.(updatedAt := Some(now))) &&
      (e.riderId in w.db.riders ==> w1.db.riders[e.riderId].status == Online) &&
      OnRiderOnline(w, Some(e), now, dist) == MatchRider(w1, e.riderId, now, dist).world
  {
    AddOnlineRiderStoresLocation(w.reg, e.riderId, e.location, now);
  }

  /** The location handler always stores the location, and one history sample exactly
      when the store holds the rider; it
      rewrites the live status of the carried order exactly when that order has one,
      keeping its status value and replacing its extras by the rider and location. */
  lemma RiderLocationEffects(w: World, e: Event, now: Time)
    requires e.RiderLocation?
    ensures var w' := OnRiderLocation(w, Some(e), now);
      GetRiderLocation(w'.reg, e.riderId) == Some(e.location.(updatedAt := Some(now))) &&
      w'.db.locationHistory ==
        w.db.locationHistory + (if e.riderId in w.db.riders
                                then [LocationSample(e.riderId, e.location.latitude, e.location.longitude)] else []) &&
      w'.log == w.log && w'.reg.currentOrder == w.reg.currentOrder && w'.reg.unassigned == w.reg.unassigned &&
      (forall o :: o in w.reg.statuses && (!Truthy(e.currentOrderId) || o != e.currentOrderId.value) ==>
        GetOrderStatus(w'.reg, o) == GetOrderStatus(w.reg, o))
    ensures var w' := OnRiderLocation(w, Some(e), now);
      Truthy(e.currentOrderId) && e.currentOrderId.value in w.reg.statuses ==>
        GetOrderStatus(w'.reg, e.currentOrderId.value) ==
          Some(StatusRecord(e.currentOrderId.value, w.reg.statuses[e.currentOrderId.value].status, now,
                            NoExtras.(riderId := Some(e.riderId), riderLocation := Some(e.location))))
    ensures var w' := OnRiderLocation(w, Some(e), now);
      (!Truthy(e.currentOrderId) || e.currentOrderId.value !in w.reg.statuses) ==>
        w'.reg.statuses == w.reg.statuses
  {
  }

  /** The offline handler reassigns only a rider that holds an order, and does so while
      the rider is still listed; afterwards the rider's first online record is gone,
      no location is stored for it and the store says offline. */
  lemma RiderOfflineEffects(w: World, e: Event, now: Time)
    requires e.RiderOffline?
    ensures var w1 := OfflineReassigned(w, e.riderId, now);
      var w' := OnRiderOffline(w, Some(e), now);
      w'.reg == RemoveOnlineRider(w1.reg, e.riderId) &&
      GetRiderLocation(w'.reg, e.riderId) == None &&
      (e.riderId in w.db.riders ==> w'.db.riders[e.riderId].status == Offline)
    ensures !Truthy(GetRiderCurrentOrder(w.reg, e.riderId)) ==>
      OnRiderOffline(w, Some(e), now).reg == RemoveOnlineRider(w.reg, e.riderId) &&
      OnRiderOffline(w, Some(e), now).log == w.log
    ensures Truthy(GetRiderCurrentOrder(w.reg, e.riderId)) ==>
      OfflineReassigned(w, e.riderId, now) == Reassign(w, w.reg.currentOrder[e.riderId], e.riderId, now).world
  {
    var w1 := OfflineReassigned(w, e.riderId, now);
    if Truthy(GetRiderCurrentOrder(w.reg, e.riderId)) {
      ReassignKeepsRider(w, w.reg.currentOrder[e.riderId], e.riderId, now);
    }
  }

  /** Reassignment never changes the rider table. */
  lemma ReassignKeepsRider(w: World, orderId: OrderId, previousRiderId: RiderId, now: Time)
    ensures Reassign(w, orderId, previousRiderId, now).world.db == w.db
  {
  }

  /** Every handler keeps the registry well formed. */
  lemma HandlersKeepRegistryValid(h: HandlerName, w: World, msg: Option<Event>, now: Time, dist: DistanceFn)
    requires Carries(msg, TopicOf(h))
    requires RegValid(w.reg)
    ensures RegValid(Run(h, w, msg, now, dist).reg)
  {
    if msg.Some? && h == RiderLocationHandler {
      var e := msg.value;
      var reg1 := SetRiderLocation(w.reg, e.riderId, e.location, now);
      assert RegValid(reg1);
      assert RegValid(TrackOrder(reg1, e, now));
    }
  }
}
