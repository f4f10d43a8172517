/** The durable store as a mutable object standing in for the SQL client: each method
    is one statement the services send. */
module Store {
  import opened Config
  import opened Types
  import opened StoreState

  class Database {
    var customers: set<CustomerId>
    var orders: map<OrderId, OrderRow>
    var restaurants: map<RestaurantId, RestaurantRow>
    var riders: map<RiderId, RiderRow>
    var history: seq<HistoryEntry>
    var locationHistory: seq<LocationSample>

    ghost function State(): DbState
      reads this
    {
      DbState(customers, orders, restaurants, riders, history, locationHistory)
    }

    constructor(customers: set<CustomerId>, restaurants: map<RestaurantId, RestaurantRow>)
      ensures State() == DbState(customers, map[], restaurants, map[], [], [])
    {
      this.customers := customers;
      this.orders := map[];
      this.restaurants := restaurants;
      this.riders := map[];
      this.history := [];
      this.locationHistory := [];
    }

    /** `SELECT * FROM orders WHERE id = $1` */
    function SelectOrder(orderId: OrderId): (r: Option<OrderRow>)
      reads this
      ensures r == FindOrder(State(), orderId)
    {
      if orderId in orders then Some(orders[orderId]) else None
    }

    /** `SELECT latitude, longitude FROM restaurants WHERE id = $1` */
    function SelectRestaurant(restaurantId: RestaurantId): (r: Option<RestaurantRow>)
      reads this
      ensures r == FindRestaurant(State(), restaurantId)
    {
      if restaurantId in restaurants then Some(restaurants[restaurantId]) else None
    }

    /** `SELECT * FROM riders WHERE id = $1` */
    function SelectRider(riderId: RiderId): (r: Option<RiderRow>)
      reads this
      ensures r == FindRider(State(), riderId)
    {
      if riderId in riders then Some(riders[riderId]) else None
    }

    method UpdateOrders(q: UpdateQuery, values: seq<SqlValue>, now: Time) returns (error: Option<string>)
      modifies this
      ensures Settles(old(State()), State(), ExecuteOrderUpdate(old(State()), q, values, now), error)
    {
      error := None;
      var where := Param(values, q.whereParam);
      if where.Some? && where.value.TextValue? && where.value.text in orders {
        if SetsUnknownRider(riders, q.sets, values) {
          return Some(FOREIGN_KEY_VIOLATION);
        }
        var id := where.value.text;
        orders := orders[id := ApplySets(orders[id], q.sets, values).(updatedAt := now)];
      }
    }

    method InsertStatusHistory(orderId: OrderId, status: OrderStatus, metadata: string) returns (error: Option<string>)
      modifies this
      ensures Settles(old(State()), State(), StoreState.InsertStatusHistory(old(State()), orderId, status, metadata), error)
    {
      if orderId !in orders {
        return Some(FOREIGN_KEY_VIOLATION);
      }
      history := history + [HistoryEntry(orderId, status, metadata)];
      error := None;
    }

    method UpdateRiderStatus(riderId: RiderId, status: RiderStatus, now: Time)
      modifies this
      ensures State() == UpdateRiderRow(old(State()), riderId, status, now)
    {
      if riderId in riders {
        riders := riders[riderId := riders[riderId].(status := status, updatedAt := now)];
      }
    }

    method InsertLocationSample(riderId: RiderId, latitude: real, longitude: real) returns (error: Option<string>)
      modifies this
      ensures Settles(old(State()), State(), StoreState.InsertLocationSample(old(State()), riderId, latitude, longitude), error)
    {
      if riderId !in riders {
        return Some(FOREIGN_KEY_VIOLATION);
      }
      locationHistory := locationHistory + [LocationSample(riderId, latitude, longitude)];
      error := None;
    }

    /** `INSERT ... RETURNING *` on a fresh primary key. */
    method InsertOrder(row: OrderRow) returns (inserted: Result<OrderRow>)
      requires row.id !in orders
      modifies this
      ensures var r := StoreState.InsertOrder(old(State()), row);
        Settles(old(State()), State(), r, if r.Ok? then None else Some(r.message)) &&
        inserted == if r.Ok? then Ok(row) else Err(r.message)
    {
      if row.customerId !in customers || row.restaurantId !in restaurants {
        return Err(FOREIGN_KEY_VIOLATION);
      }
      orders := orders[row.id := row];
      inserted := Ok(row);
    }

    method InsertRider(row: RiderRow) returns (inserted: Result<RiderRow>)
      requires row.id !in riders
      modifies this
      ensures var r := StoreState.InsertRider(old(State()), row);
        Settles(old(State()), State(), r, if r.Ok? then None else Some(r.message)) &&
        inserted == if r.Ok? then Ok(row) else Err(r.message)
    {
      if EmailTaken(riders, row.email) {
        return Err(UNIQUE_VIOLATION);
      }
      riders := riders[row.id := row];
      inserted := Ok(row);
    }
  }
}
