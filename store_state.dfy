/** The durable store as a value: the customer, order, restaurant and rider tables and
    the two append-only history tables, with the one parameterised UPDATE on orders that
    the order service issues, kept as structure rather than SQL text. A statement that
    breaks a foreign key or the riders' unique email is refused as a whole: it yields an
    error and changes nothing. */
module StoreState {
  import opened Config
  import opened Types

  datatype OrderRow = OrderRow(
    id: OrderId,
    customerId: CustomerId,
    restaurantId: RestaurantId,
    items: seq<Item>,
    totalAmount: int,
    status: OrderStatus,
    deliveryAddress: Address,
    riderId: Option<RiderId>,
    assignedAt: Option<Time>,
    pickedUpAt: Option<Time>,
    deliveredAt: Option<Time>,
    createdAt: Time,
    updatedAt: Time)

  datatype RestaurantRow = RestaurantRow(latitude: real, longitude: real)

  datatype RiderRow = RiderRow(
    id: RiderId, name: string, phone: string, email: string, vehicleType: string,
    status: RiderStatus, createdAt: Time, updatedAt: Time)

  /** One row of the order status history; the service never passes metadata, so the
      column always holds the empty JSON object. */
  datatype HistoryEntry = HistoryEntry(orderId: OrderId, status: OrderStatus, metadata: string)

  const EMPTY_METADATA: string := "{}"

  datatype LocationSample = LocationSample(riderId: RiderId, latitude: real, longitude: real)

  const FOREIGN_KEY_VIOLATION: string := "violates foreign key constraint"
  const UNIQUE_VIOLATION: string := "violates unique constraint"

  /** Only the ids of the customers table matter here: orders refer to them. */
  datatype DbState = DbState(
    customers: set<CustomerId>,
    orders: map<OrderId, OrderRow>,
    restaurants: map<RestaurantId, RestaurantRow>,
    riders: map<RiderId, RiderRow>,
    history: seq<HistoryEntry>,
    locationHistory: seq<LocationSample>)

  function FindOrder(db: DbState, orderId: OrderId): Option<OrderRow>
  {
    if orderId in db.orders then Some(db.orders[orderId]) else None
  }

  function FindRestaurant(db: DbState, restaurantId: RestaurantId): Option<RestaurantRow>
  {
    if restaurantId in db.restaurants then Some(db.restaurants[restaurantId]) else None
  }

  function FindRider(db: DbState, riderId: RiderId): Option<RiderRow>
  {
    if riderId in db.riders then Some(db.riders[riderId]) else None
  }

  // ----- UPDATE orders SET ... WHERE id = $n -----

  datatype Column = StatusColumn | RiderIdColumn | AssignedAtColumn | PickedUpAtColumn | DeliveredAtColumn

  datatype SqlValue = StatusValue(status: OrderStatus) | TextValue(text: string) | TimeValue(time: Time)

  /** `column = $param` */
  datatype SetClause = SetClause(column: Column, param: nat)

  /** `UPDATE orders SET <sets> WHERE id = $<whereParam>` */
  datatype UpdateQuery = UpdateQuery(sets: seq<SetClause>, whereParam: nat)

  /** The value bound to placeholder `$n`. */
  function Param(values: seq<SqlValue>, n: nat): Option<SqlValue>
  {
    if 1 <= n <= |values| then Some(values[n - 1]) else None
  }

  function ApplySet(row: OrderRow, c: SetClause, values: seq<SqlValue>): OrderRow
  {
    match (c.column, Param(values, c.param))
    case (StatusColumn, Some(StatusValue(s))) => row.(status := s)
    case (RiderIdColumn, Some(TextValue(t))) => row.(riderId := Some(t))
    case (AssignedAtColumn, Some(TimeValue(t))) => row.(assignedAt := Some(t))
    case (PickedUpAtColumn, Some(TimeValue(t))) => row.(pickedUpAt := Some(t))
    case (DeliveredAtColumn, Some(TimeValue(t))) => row.(deliveredAt := Some(t))
    case _ => row
  }

  /** The assignments of a SET list, left to right. */
  function ApplySets(row: OrderRow, sets: seq<SetClause>, values: seq<SqlValue>): OrderRow
    decreases |sets|
  {
    if sets == [] then row else ApplySets(ApplySet(row, sets[0], values), sets[1..], values)
  }

  /** The SET list assigns column `c`. */
  predicate Assigns(sets: seq<SetClause>, c: Column)
  {
    exists i :: 0 <= i < |sets| && sets[i].column == c
  }

  /** Some `rider_id` assignment of the SET list names a rider the store does not hold. */
  predicate SetsUnknownRider(riders: map<RiderId, RiderRow>, sets: seq<SetClause>, values: seq<SqlValue>)
  {
    exists i :: 0 <= i < |sets| && sets[i].column == RiderIdColumn &&
      match Param(values, sets[i].param)
      case Some(TextValue(t)) => t !in riders
      case _ => false
  }

  /** Runs the update: the row whose id is bound to the WHERE placeholder gets the SET
      list and, by the table's trigger, `updated_at = now`; with no such row nothing
      changes. Writing an unknown rider into the row breaks `rider_id`'s foreign key. */
  function ExecuteOrderUpdate(db: DbState, q: UpdateQuery, values: seq<SqlValue>, now: Time): Result<DbState>
  {
    match Param(values, q.whereParam)
    case Some(TextValue(id)) =>
      if id !in db.orders then Ok(db)
      else if SetsUnknownRider(db.riders, q.sets, values) then Err(FOREIGN_KEY_VIOLATION)
      else Ok(db.(orders := db.orders[id := ApplySets(db.orders[id], q.sets, values).(updatedAt := now)]))
    case _ => Ok(db)
  }

  /** `INSERT INTO order_status_history`: the order must exist. */
  function InsertStatusHistory(db: DbState, orderId: OrderId, status: OrderStatus, metadata: string): Result<DbState>
  {
    if orderId in db.orders then Ok(db.(history := db.history + [HistoryEntry(orderId, status, metadata)]))
    else Err(FOREIGN_KEY_VIOLATION)
  }

  /** `UPDATE riders SET status = $1 WHERE id = $2`, with the `updated_at` trigger. */
  function UpdateRiderRow(db: DbState, riderId: RiderId, status: RiderStatus, now: Time): DbState
  {
    if riderId in db.riders then db.(riders := db.riders[riderId := db.riders[riderId].(status := status, updatedAt := now)])
    else db
  }

  /** `INSERT INTO rider_location_history`: the rider must exist. */
  function InsertLocationSample(db: DbState, riderId: RiderId, latitude: real, longitude: real): Result<DbState>
  {
    if riderId in db.riders then Ok(db.(locationHistory := db.locationHistory + [LocationSample(riderId, latitude, longitude)]))
    else Err(FOREIGN_KEY_VIOLATION)
  }

  /** `INSERT INTO orders`: the customer and the restaurant must exist. */
  function InsertOrder(db: DbState, row: OrderRow): Result<DbState>
  {
    if row.customerId in db.customers && row.restaurantId in db.restaurants then Ok(db.(orders := db.orders[row.id := row]))
    else Err(FOREIGN_KEY_VIOLATION)
  }

  /** Some stored rider already has this email. */
  predicate EmailTaken(riders: map<RiderId, RiderRow>, email: string)
  {
    exists r :: r in riders && riders[r].email == email
  }

  /** `INSERT INTO riders`: the email must be new. */
  function InsertRider(db: DbState, row: RiderRow): Result<DbState>
  {
    if EmailTaken(db.riders, row.email) then Err(UNIQUE_VIOLATION) else Ok(db.(riders := db.riders[row.id := row]))
  }

  /** The store once a statement with outcome `r` has run. */
  function Committed(db: DbState, r: Result<DbState>): DbState
  {
    if r.Ok? then r.value else db
  }

  /** A statement method's store and error after a statement with outcome `r`. */
  predicate Settles(before: DbState, after: DbState, r: Result<DbState>, error: Option<string>)
  {
    match r
    case Ok(db1) => after == db1 && error == None
    case Err(m) => after == before && error == Some(m)
  }

  /** An update touches at most the row its WHERE placeholder names, and is refused
      exactly when that row exists and a `rider_id` assignment names an unknown rider. */
  lemma ExecuteOrderUpdateFrame(db: DbState, q: UpdateQuery, values: seq<SqlValue>, now: Time, other: OrderId)
    ensures var r := ExecuteOrderUpdate(db, q, values, now);
      r.Err? <==> (Param(values, q.whereParam).Some? && Param(values, q.whereParam).value.TextValue? &&
                   Param(values, q.whereParam).value.text in db.orders && SetsUnknownRider(db.riders, q.sets, values))
    ensures var r := Committed(db, ExecuteOrderUpdate(db, q, values, now));
      r.customers == db.customers && r.restaurants == db.restaurants && r.riders == db.riders &&
      r.history == db.history && r.locationHistory == db.locationHistory && r.orders.Keys == db.orders.Keys
    ensures Param(values, q.whereParam) != Some(TextValue(other)) && other in db.orders ==>
      Committed(db, ExecuteOrderUpdate(db, q, values, now)).orders[other] == db.orders[other]
  {
  }
}
