/** The matching service as an object over the shared registry, store and producer; each
    method follows the service's steps and is proved to compute its specification. */
module Matching {
  import opened Config
  import opened Types
  import opened RegistryState
  import opened StoreState
  import opened Registry
  import opened Store
  import opened Producer
  import opened Worlds
  import opened MatchingSpec

  class MatchingService {
    const reg: RedisClient
    const db: Database
    const producer: EventProducer
    const dist: DistanceFn

    constructor(reg: RedisClient, db: Database, producer: EventProducer, dist: DistanceFn)
      ensures this.reg == reg && this.db == db && this.producer == producer && this.dist == dist
    {
      this.reg := reg;
      this.db := db;
      this.producer := producer;
      this.dist := dist;
    }

    ghost function W(): World
      reads reg, db, producer
    {
      WorldOf(reg, db, producer)
    }

    /** `tryMatchOrder`: the first online rider with an empty slot gets the order. */
    method TryMatchOrder(orderId: OrderId, now: Time) returns (matched: bool)
      modifies reg, producer
      ensures Outcome(W(), matched) == MatchOrder(old(W()), orderId, now)
    {
      var onlineRiders := reg.GetOnlineRiders();
      if |onlineRiders| == 0 {
        return false;
      }
      var i := 0;
      while i < |onlineRiders|
        invariant 0 <= i <= |onlineRiders|
        invariant W() == old(W())
        invariant forall j :: 0 <= j < i ==> !IsRiderAvailable(reg.State(), onlineRiders[j].riderId)
      {
        var rider := onlineRiders[i];
        var isAvailable := reg.IsRiderAvailable(rider.riderId);
        if isAvailable {
          assert FirstAvailable(reg.State(), onlineRiders) == Some(i);
          AssignOrderToRider(orderId, rider.riderId, now);
          return true;
        }
        i := i + 1;
      }
      return false;
    }

    /** `tryMatchRider`: an idle rider with a known location gets the nearest order. */
    method TryMatchRider(riderId: RiderId, now: Time) returns (matched: bool)
      modifies reg, producer
      ensures Outcome(W(), matched) == MatchRider(old(W()), riderId, now, dist)
    {
      var isAvailable := reg.IsRiderAvailable(riderId);
      if !isAvailable {
        return false;
      }
      var unassignedOrders := reg.GetUnassignedOrders();
      if |unassignedOrders| == 0 {
        return false;
      }
      var riderLocation := reg.GetRiderLocation(riderId);
      if riderLocation.None? {
        return false;
      }
      var loc := riderLocation.value;
      ghost var ds := RestaurantDistances(loc, unassignedOrders, dist);
      var closestOrder: Option<UnassignedOrder> := None;
      ghost var closestIndex: Option<nat> := None;
      var minDistance: Option<real> := None;
      for i := 0 to |unassignedOrders|
        invariant closestIndex == ArgMin(ds[..i])
        invariant closestIndex.Some? ==> closestIndex.value < i
        invariant minDistance == BestSoFar(ds, closestIndex)
        invariant closestOrder == if closestIndex.None? then None else Some(unassignedOrders[closestIndex.value])
      {
        var order := unassignedOrders[i];
        var distance := dist(loc.latitude, loc.longitude,
                             order.restaurantLocation.latitude, order.restaurantLocation.longitude);
        assert ds[..i + 1][..i] == ds[..i];
        assert distance == ds[i];
        if Closer(distance, minDistance) {
          minDistance := Some(distance.km);
          closestOrder := Some(order);
          closestIndex := Some(i);
        }
      }
      assert ds[..|unassignedOrders|] == ds;
      if closestOrder.Some? {
        AssignOrderToRider(closestOrder.value.orderId, riderId, now);
        return true;
      }
      return false;
    }

    /** `assignOrderToRider` */
    method AssignOrderToRider(orderId: OrderId, riderId: RiderId, now: Time)
      modifies reg, producer
      ensures W() == Assign(old(W()), orderId, riderId, now)
    {
      reg.RemoveUnassignedOrder(orderId);
      reg.SetOrderRider(orderId, riderId);
      reg.SetRiderCurrentOrder(riderId, orderId);
      reg.SetOrderStatus(orderId, Assigned, NoExtras.(riderId := Some(riderId)), now);
      var orderResult := db.SelectOrder(orderId);
      var restaurantId := if orderResult.Some? then orderResult.value.restaurantId else UNKNOWN_RESTAURANT;
      var estimatedPickupTime := now + 15 * 60 * 1000;
      producer.Emit(OrderAssigned(orderId, riderId, restaurantId, estimatedPickupTime, now));
    }

    /** `reassignOrder` */
    method ReassignOrder(orderId: OrderId, previousRiderId: RiderId, now: Time) returns (matched: bool)
      modifies reg, producer
      ensures Outcome(W(), matched) == Reassign(old(W()), orderId, previousRiderId, now)
    {
      reg.ClearRiderCurrentOrder(previousRiderId);
      var orderResult := db.SelectOrder(orderId);
      if orderResult.None? {
        return false;
      }
      var restaurantId := orderResult.value.restaurantId;
      var restaurantResult := db.SelectRestaurant(restaurantId);
      if restaurantResult.None? {
        return false;
      }
      var restaurantLocation := Location(restaurantResult.value.latitude, restaurantResult.value.longitude, now, None);
      reg.AddUnassignedOrder(orderId, restaurantId, restaurantLocation, now);
      reg.SetOrderStatus(orderId, Ready, NoExtras.(reassigned := Some(true), previousRiderId := Some(previousRiderId)), now);
      matched := TryMatchOrder(orderId, now);
    }

    /** `getMatchingStats`: the two set sizes and a count of the idle online riders. */
    method GetMatchingStats() returns (stats: Stats)
      ensures stats == MatchingStats(reg.State())
    {
      var unassignedOrders := reg.GetUnassignedOrders();
      var onlineRiders := reg.GetOnlineRiders();
      var availableRiders := 0;
      for i := 0 to |onlineRiders|
        invariant availableRiders == CountAvailable(reg.State(), onlineRiders[..i])
      {
        assert onlineRiders[..i + 1][..i] == onlineRiders[..i];
        var isAvailable := reg.IsRiderAvailable(onlineRiders[i].riderId);
        if isAvailable {
          availableRiders := availableRiders + 1;
        }
      }
      assert onlineRiders[..|onlineRiders|] == onlineRiders;
      stats := Stats(|unassignedOrders|, |onlineRiders|, availableRiders);
    }
  }
}
