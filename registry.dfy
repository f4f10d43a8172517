/** The registry client as a mutable object: one field per key family, each method the
    same series of SADD/SREM/SET/EXPIRE/DEL commands as the client it models. */
module Registry {
  import opened Config
  import opened Types
  import opened RegistryState

  class RedisClient {
    var unassigned: seq<UnassignedOrder>
    var online: seq<OnlineRider>
    var statuses: map<OrderId, StatusRecord>
    var orderRider: map<OrderId, RiderId>
    var currentOrder: map<RiderId, OrderId>
    var locations: map<RiderId, Location>
    var ttl: map<RedisKey, nat>

    ghost function State(): RegState
      reads this
    {
      RegState(unassigned, online, statuses, orderRider, currentOrder, locations, ttl)
    }

    ghost predicate Valid()
      reads this
    {
      RegValid(State())
    }

    constructor()
      ensures State() == EmptyRegistry && Valid()
    {
      unassigned, online := [], [];
      statuses, orderRider, currentOrder, locations, ttl := map[], map[], map[], map[], map[];
    }

    method AddUnassignedOrder(orderId: OrderId, restaurantId: RestaurantId, restaurantLocation: Location, now: Time)
      modifies this
      ensures State() == RegistryState.AddUnassignedOrder(old(State()), orderId, restaurantId, restaurantLocation, now)
    {
      var orderData := UnassignedOrder(orderId, restaurantId, restaurantLocation, now);
      if orderData !in unassigned {
        unassigned := unassigned + [orderData];
      }
      SetOrderStatus(orderId, Ready, NoExtras, now);
    }

    /** Scans a snapshot of the members and removes the first match, then stops. */
    method RemoveUnassignedOrder(orderId: OrderId)
      modifies this
      ensures State() == RegistryState.RemoveUnassignedOrder(old(State()), orderId)
    {
      var members := unassigned;
      var i := 0;
      while i < |members|
        invariant 0 <= i <= |members|
        invariant State() == old(State())
        invariant forall j :: 0 <= j < i ==> members[j].orderId != orderId
      {
        if members[i].orderId == orderId {
          unassigned := SRem(unassigned, members[i]);
          break;
        }
        i := i + 1;
      }
    }

    function GetUnassignedOrders(): (r: seq<UnassignedOrder>)
      reads this
      ensures r == State().unassigned
    {
      unassigned
    }

    method SetOrderStatus(orderId: OrderId, status: OrderStatus, extras: Extras, now: Time)
      modifies this
      ensures State() == RegistryState.SetOrderStatus(old(State()), orderId, status, extras, now)
    {
      statuses := statuses[orderId := StatusRecord(orderId, status, now, extras)];
      ttl := ttl - {StatusKey(orderId)};
      ttl := ttl[StatusKey(orderId) := STATUS_TTL_SECONDS];
    }

    function GetOrderStatus(orderId: OrderId): (r: Option<StatusRecord>)
      reads this
      ensures r == RegistryState.GetOrderStatus(State(), orderId)
    {
      if orderId in statuses then Some(statuses[orderId]) else None
    }

    method SetOrderRider(orderId: OrderId, riderId: RiderId)
      modifies this
      ensures State() == RegistryState.SetOrderRider(old(State()), orderId, riderId)
    {
      orderRider := orderRider[orderId := riderId];
      ttl := ttl - {AssignedRiderKey(orderId)};
      ttl := ttl[AssignedRiderKey(orderId) := ORDER_RIDER_TTL_SECONDS];
    }

    function GetOrderRider(orderId: OrderId): (r: Option<RiderId>)
      reads this
      ensures r == RegistryState.GetOrderRider(State(), orderId)
    {
      if orderId in orderRider then Some(orderRider[orderId]) else None
    }

    method AddOnlineRider(riderId: RiderId, location: Location, now: Time)
      modifies this
      ensures State() == RegistryState.AddOnlineRider(old(State()), riderId, location, now)
    {
      var riderData := OnlineRider(riderId, location, now);
      if riderData !in online {
        online := online + [riderData];
      }
      SetRiderLocation(riderId, location, now);
    }

    /** Scans a snapshot of the members, removes the first match and stops; the
        location is deleted after the scan in every case. */
    method RemoveOnlineRider(riderId: RiderId)
      modifies this
      ensures State() == RegistryState.RemoveOnlineRider(old(State()), riderId)
    {
      var members := online;
      var i := 0;
      while i < |members|
        invariant 0 <= i <= |members|
        invariant State() == old(State())
        invariant forall j :: 0 <= j < i ==> members[j].riderId != riderId
      {
        if members[i].riderId == riderId {
          online := SRem(online, members[i]);
          break;
        }
        i := i + 1;
      }
      locations := locations - {riderId};
      ttl := ttl - {LocationKey(riderId)};
    }

    function GetOnlineRiders(): (r: seq<OnlineRider>)
      reads this
      ensures r == State().online
    {
      online
    }

    function IsRiderOnline(riderId: RiderId): (b: bool)
      reads this
      ensures b == RegistryState.IsRiderOnline(State(), riderId)
    {
      IsRiderOnlineIsScan(State(), riderId);
      FirstIndex(online, RiderIdOf, riderId).Some?
    }

    method SetRiderLocation(riderId: RiderId, location: Location, now: Time)
      modifies this
      ensures State() == RegistryState.SetRiderLocation(old(State()), riderId, location, now)
    {
      locations := locations[riderId := location.(updatedAt := Some(now))];
      ttl := ttl - {LocationKey(riderId)};
      ttl := ttl[LocationKey(riderId) := LOCATION_TTL_SECONDS];
    }

    function GetRiderLocation(riderId: RiderId): (r: Option<Location>)
      reads this
      ensures r == RegistryState.GetRiderLocation(State(), riderId)
    {
      if riderId in locations then Some(locations[riderId]) else None
    }

    method SetRiderCurrentOrder(riderId: RiderId, orderId: OrderId)
      modifies this
      ensures State() == RegistryState.SetRiderCurrentOrder(old(State()), riderId, orderId)
    {
      currentOrder := currentOrder[riderId := orderId];
      ttl := ttl - {CurrentOrderKey(riderId)};
    }

    function GetRiderCurrentOrder(riderId: RiderId): (r: Option<OrderId>)
      reads this
      ensures r == RegistryState.GetRiderCurrentOrder(State(), riderId)
    {
      if riderId in currentOrder then Some(currentOrder[riderId]) else None
    }

    method ClearRiderCurrentOrder(riderId: RiderId)
      modifies this
      ensures State() == RegistryState.ClearRiderCurrentOrder(old(State()), riderId)
    {
      currentOrder := currentOrder - {riderId};
    }

    function IsRiderAvailable(riderId: RiderId): (b: bool)
      reads this
      ensures b == RegistryState.IsRiderAvailable(State(), riderId)
    {
      GetRiderCurrentOrder(riderId) == None
    }

    /** Server-side expiry of one key. */
    method Expire(k: RedisKey)
      modifies this
      ensures State() == RegistryState.Expire(old(State()), k)
    {
      if k in ttl {
        ttl := ttl - {k};
        match k
        case StatusKey(o) => statuses := statuses - {o};
        case AssignedRiderKey(o) => orderRider := orderRider - {o};
        case LocationKey(r) => locations := locations - {r};
        case _ =>
      }
    }
  }
}
