/** The order service as an object over the shared registry, store and producer, and the
    step-by-step builder of its one UPDATE statement. */
module Orders {
  import opened Config
  import opened Types
  import opened RegistryState
  import opened StoreState
  import opened Registry
  import opened Store
  import opened Producer
  import opened Worlds
  import opened Validators
  import opened OrdersSpec

  /** `updateOrderStatus`'s query building: `status = $1`, then `rider_id` when a
      rider is given, then the timestamp column of the status, then `WHERE id = $n`. */
  method BuildStatusUpdate(orderId: OrderId, status: OrderStatus, riderId: Option<RiderId>, now: Time)
    returns (q: UpdateQuery, values: seq<SqlValue>)
    ensures forall i :: 0 <= i < |q.sets| ==> q.sets[i].param == i + 1
    ensures q.whereParam == |q.sets| + 1 == |values|
    ensures values[|values| - 1] == TextValue(orderId)
    ensures |q.sets| >= 1 && q.sets[0].column == StatusColumn && values[0] == StatusValue(status)
    ensures Assigns(q.sets, RiderIdColumn) <==> Truthy(riderId)
    ensures Assigns(q.sets, AssignedAtColumn) <==> status == Assigned
    ensures Assigns(q.sets, PickedUpAtColumn) <==> status == PickedUp
    ensures Assigns(q.sets, DeliveredAtColumn) <==> status == Delivered
    ensures forall riders :: SetsUnknownRider(riders, q.sets, values) <==> Truthy(riderId) && riderId.value !in riders
    ensures forall row :: ApplySets(row, q.sets, values) == StatusColumns(row, status, riderId, now)
  {
    var sets := [SetClause(StatusColumn, 1)];
    values := [StatusValue(status)];
    var paramCount := 1;

    if Truthy(riderId) {
      paramCount := paramCount + 1;
      sets := sets + [SetClause(RiderIdColumn, paramCount)];
      values := values + [TextValue(riderId.value)];
    }

    if status == Assigned {
      paramCount := paramCount + 1;
      sets := sets + [SetClause(AssignedAtColumn, paramCount)];
      values := values + [TimeValue(now)];
    } else if status == PickedUp {
      paramCount := paramCount + 1;
      sets := sets + [SetClause(PickedUpAtColumn, paramCount)];
      values := values + [TimeValue(now)];
    } else if status == Delivered {
      paramCount := paramCount + 1;
      sets := sets + [SetClause(DeliveredAtColumn, paramCount)];
      values := values + [TimeValue(now)];
    }

    paramCount := paramCount + 1;
    q := UpdateQuery(sets, paramCount);
    values := values + [TextValue(orderId)];
    SetsMeanStatusColumns(q, values, orderId, status, riderId, now);
    assert Truthy(riderId) ==> q.sets[1].column == RiderIdColumn;
    forall riders
      ensures SetsUnknownRider(riders, q.sets, values) <==> Truthy(riderId) && riderId.value !in riders
    {
      if Truthy(riderId) && riderId.value !in riders {
        assert Param(values, q.sets[1].param) == Some(TextValue(riderId.value));
      }
    }
  }

  /** The three shapes the builder can produce each assign what StatusColumns names. */
  lemma SetsMeanStatusColumns(q: UpdateQuery, values: seq<SqlValue>, orderId: OrderId, status: OrderStatus,
                              riderId: Option<RiderId>, now: Time)
    requires |values| == |q.sets| + 1
    requires |q.sets| >= 1 && q.sets[0] == SetClause(StatusColumn, 1) && values[0] == StatusValue(status)
    requires forall i :: 0 <= i < |q.sets| ==> q.sets[i].param == i + 1
    requires Truthy(riderId) ==> |q.sets| >= 2 && q.sets[1].column == RiderIdColumn && values[1] == TextValue(riderId.value)
    requires var t := if Truthy(riderId) then 2 else 1;
      if status == Assigned || status == PickedUp || status == Delivered then
        |q.sets| == t + 1 && values[t] == TimeValue(now) &&
        q.sets[t].column == (if status == Assigned then AssignedAtColumn
                             else if status == PickedUp then PickedUpAtColumn else DeliveredAtColumn)
      else |q.sets| == t
    ensures forall row :: ApplySets(row, q.sets, values) == StatusColumns(row, status, riderId, now)
  {
    forall row
      ensures ApplySets(row, q.sets, values) == StatusColumns(row, status, riderId, now)
    {
      var r1 := ApplySet(row, q.sets[0], values);
      assert r1 == row.(status := status);
      var rest := q.sets[1..];
      assert ApplySets(row, q.sets, values) == ApplySets(r1, rest, values);
      if Truthy(riderId) {
        var r2 := ApplySet(r1, rest[0], values);
        assert r2 == r1.(riderId := riderId);
        assert ApplySets(r1, rest, values) == ApplySets(r2, rest[1..], values);
        if |rest[1..]| == 1 {
          assert ApplySets(r2, rest[1..], values) == ApplySet(r2, rest[1..][0], values);
        }
      } else if |rest| == 1 {
        assert ApplySets(r1, rest, values) == ApplySet(r1, rest[0], values);
      }
    }
  }

  class OrderService {
    const reg: RedisClient
    const db: Database
    const producer: EventProducer

    constructor(reg: RedisClient, db: Database, producer: EventProducer)
      ensures this.reg == reg && this.db == db && this.producer == producer
    {
      this.reg := reg;
      this.db := db;
      this.producer := producer;
    }

    ghost function W(): World
      reads reg, db, producer
    {
      WorldOf(reg, db, producer)
    }

    /** `createOrder`; the id stands for the fresh UUID. */
    method CreateOrder(orderId: OrderId, customerId: CustomerId, restaurantId: RestaurantId,
                       items: seq<Item>, deliveryAddress: Address, now: Time) returns (result: Result<OrderRow>)
      requires orderId !in db.orders
      modifies reg, db, producer
      ensures (W(), result) == OrdersSpec.CreateOrder(old(W()), orderId, customerId, restaurantId, items, deliveryAddress, now)
    {
      var totalAmount := CalculateTotal(items);
      var row := OrderRow(orderId, customerId, restaurantId, items, totalAmount, Created, deliveryAddress,
                          None, None, None, None, now, now);
      result := db.InsertOrder(row);
      if result.Err? {
        return;
      }
      var order := result.value;
      reg.SetOrderStatus(orderId, Created, NoExtras, now);
      producer.Emit(OrderCreated(order.id, order.customerId, order.restaurantId, order.items,
                                 order.totalAmount, order.deliveryAddress, now));
      var error := RecordStatusChange(orderId, Created);
      assert error.None?;  // the order was inserted just before
    }

    function GetOrderById(orderId: OrderId): (r: Option<OrderRow>)
      reads db
      ensures r == FindOrder(db.State(), orderId)
    {
      db.SelectOrder(orderId)
    }

    /** `getOrderStatus` */
    method GetOrderStatus(orderId: OrderId) returns (result: Option<StatusRecord>)
      ensures result == LiveStatus(reg.State(), db.State(), orderId)
    {
      var status := reg.GetOrderStatus(orderId);
      if status.None? {
        var order := GetOrderById(orderId);
        if order.None? {
          return None;
        }
        status := Some(StatusRecord(order.value.id, order.value.status, order.value.updatedAt, NoExtras));
      }
      var st := status.value;
      if Truthy(st.extras.riderId) {
        var riderLocation := reg.GetRiderLocation(st.extras.riderId.value);
        if riderLocation.Some? {
          st := st.(extras := st.extras.(riderLocation := riderLocation));
        }
      }
      return Some(st);
    }

    /** `markOrderReady` */
    method MarkOrderReady(orderId: OrderId, now: Time) returns (result: Result<Option<OrderRow>>)
      modifies db, producer
      ensures (W(), result) == OrdersSpec.MarkOrderReady(old(W()), orderId, now)
    {
      var order := GetOrderById(orderId);
      if order.None? {
        return Ok(None);
      }
      var restaurantResult := db.SelectRestaurant(order.value.restaurantId);
      if restaurantResult.None? {
        return Err(RESTAURANT_NOT_FOUND);
      }
      var restaurantLocation := Location(restaurantResult.value.latitude, restaurantResult.value.longitude, now, None);
      var error := UpdateOrderStatus(orderId, Ready, None, now);
      assert error.None?;  // the order was read just before and no rider is written
      producer.Emit(OrderReady(orderId, order.value.restaurantId, restaurantLocation, now));
      result := Ok(GetOrderById(orderId));
    }

    /** `updateOrderStatus` */
    method UpdateOrderStatus(orderId: OrderId, status: OrderStatus, riderId: Option<RiderId>, now: Time)
      returns (error: Option<string>)
      modifies db
      ensures Settles(old(db.State()), db.State(), OrdersSpec.UpdateOrderStatus(old(db.State()), orderId, status, riderId, now), error)
    {
      var q, values := BuildStatusUpdate(orderId, status, riderId, now);
      error := db.UpdateOrders(q, values, now);
      if error.Some? {
        return;
      }
      error := RecordStatusChange(orderId, status);
    }

    /** `recordStatusChange` */
    method RecordStatusChange(orderId: OrderId, status: OrderStatus) returns (error: Option<string>)
      modifies db
      ensures Settles(old(db.State()), db.State(), OrdersSpec.RecordStatusChange(old(db.State()), orderId, status), error)
    {
      error := db.InsertStatusHistory(orderId, status, EMPTY_METADATA);
    }

    /** `markOrderPickedUp` */
    method MarkOrderPickedUp(orderId: OrderId, now: Time) returns (result: Result<Option<OrderRow>>)
      modifies reg, db
      ensures (W(), result) == MarkOrderMoved(old(W()), orderId, PickedUp, now)
    {
      var error := UpdateOrderStatus(orderId, PickedUp, None, now);
      if error.Some? {
        return Err(error.value);
      }
      reg.SetOrderStatus(orderId, PickedUp, NoExtras, now);
      result := Ok(GetOrderById(orderId));
    }

    /** `markOrderInTransit` */
    method MarkOrderInTransit(orderId: OrderId, now: Time) returns (result: Result<Option<OrderRow>>)
      modifies reg, db
      ensures (W(), result) == MarkOrderMoved(old(W()), orderId, InTransit, now)
    {
      var error := UpdateOrderStatus(orderId, InTransit, None, now);
      if error.Some? {
        return Err(error.value);
      }
      reg.SetOrderStatus(orderId, InTransit, NoExtras, now);
      result := Ok(GetOrderById(orderId));
    }

    /** `markOrderDelivered` */
    method MarkOrderDelivered(orderId: OrderId, now: Time) returns (result: Result<Option<OrderRow>>)
      modifies db, producer
      ensures (W(), result) == OrdersSpec.MarkOrderDelivered(old(W()), orderId, now)
    {
      var riderId := reg.GetOrderRider(orderId);
      var error := UpdateOrderStatus(orderId, Delivered, None, now);
      if error.Some? {
        return Err(error.value);
      }
      producer.Emit(OrderDelivered(orderId, if Truthy(riderId) then riderId.value else UNKNOWN_RIDER, now, now));
      result := Ok(GetOrderById(orderId));
    }
  }
}
