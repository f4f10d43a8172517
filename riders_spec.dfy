/** The rider service as functions on the whole state: rider creation, the two presence
    requests that only emit events, the location event builder and the stricter
    availability check. */
module RidersSpec {
  import opened Config
  import opened Types
  import opened RegistryState
  import opened StoreState
  import opened Worlds

  /** The row `createRider` inserts: every new rider starts offline. */
  function NewRiderRow(riderId: RiderId, name: string, phone: string, email: string,
                       vehicleType: string, now: Time): RiderRow
  {
    RiderRow(riderId, name, phone, email, vehicleType, Offline, now, now)
  }

  /** `createRider` on a fresh id; a taken email ends it with the insert's error. */
  function CreateRider(db: DbState, riderId: RiderId, name: string, phone: string, email: string,
                       vehicleType: string, now: Time): (DbState, Result<RiderRow>)
  {
    var row := NewRiderRow(riderId, name, phone, email, vehicleType, now);
    match InsertRider(db, row)
    case Err(m) => (db, Err(m))
    case Ok(db1) => (db1, Ok(row))
  }

  /** `goOnline`: an unknown rider gives null; a known one gets its online event. The
      registry and the store are left to the event's handler. */
  function GoOnline(w: World, riderId: RiderId, location: Location, now: Time): (World, Option<RiderRow>)
  {
    match FindRider(w.db, riderId)
    case None => (w, None)
    case Some(rider) => (w.(log := w.log + [EmissionOf(RiderOnline(riderId, location, now))]), Some(rider))
  }

  /** `goOffline` */
  function GoOffline(w: World, riderId: RiderId, now: Time): (World, Option<RiderRow>)
  {
    match FindRider(w.db, riderId)
    case None => (w, None)
    case Some(rider) => (w.(log := w.log + [EmissionOf(RiderOffline(riderId, now))]), Some(rider))
  }

  /** `currentOrderId || undefined` */
  function CarriedOrder(currentOrderId: Option<OrderId>): Option<OrderId>
  {
    if Truthy(currentOrderId) then currentOrderId else None
  }

  /** The event `updateLocation` emits: the coordinates stamped `now` and the rider's
      current order when it holds one. The rider need not exist. */
  function LocationEvent(reg: RegState, riderId: RiderId, latitude: real, longitude: real, now: Time): Event
  {
    RiderLocation(riderId, Location(latitude, longitude, now, None),
                  CarriedOrder(GetRiderCurrentOrder(reg, riderId)), now)
  }

  function UpdateLocation(w: World, riderId: RiderId, latitude: real, longitude: real, now: Time): World
  {
    w.(log := w.log + [EmissionOf(LocationEvent(w.reg, riderId, latitude, longitude, now))])
  }

  /** The service's availability: online, and no current order. */
  predicate RiderAvailable(reg: RegState, riderId: RiderId)
  {
    IsRiderOnline(reg, riderId) && IsRiderAvailable(reg, riderId)
  }

  // ----- Properties -----

  /** Creation is refused, with nothing changed, exactly when a stored rider already
      has the email. Otherwise the rider is stored offline under its id with the given
      fields and nothing else in the store changes. */
  lemma CreateRiderStartsOffline(db: DbState, riderId: RiderId, name: string, phone: string,
                                 email: string, vehicleType: string, now: Time)
    requires riderId !in db.riders
    ensures var (db', res) := CreateRider(db, riderId, name, phone, email, vehicleType, now);
      (res.Err? <==> (exists r :: r in db.riders && db.riders[r].email == email)) &&
      (res.Err? ==> db' == db && res.message == UNIQUE_VIOLATION)
    ensures var (db', res) := CreateRider(db, riderId, name, phone, email, vehicleType, now);
      res.Ok? ==>
        var row := res.value;
        row.status == Offline && RiderStatusName(row.status) == "offline" &&
        row.id == riderId && row.name == name && row.email == email && row.vehicleType == vehicleType &&
        FindRider(db', riderId) == Some(row) &&
        db'.riders.Keys == db.riders.Keys + {riderId} &&
        db'.orders == db.orders && db'.history == db.history
  {
  }

  /** Unknown riders get null and no event; known riders get back their row and exactly
      one online event carrying the given location, keyed by the rider; registry and
      store are untouched either way. */
  lemma GoOnlineEmitsOnce(w: World, riderId: RiderId, location: Location, now: Time)
    ensures var (w', res) := GoOnline(w, riderId, location, now);
      w'.reg == w.reg && w'.db == w.db &&
      (res.None? <==> riderId !in w.db.riders) &&
      (res.None? ==> w' == w) &&
      (res.Some? ==> (res.value == w.db.riders[riderId] &&
        w'.log == w.log + [Emission(RiderOnlineTopic, riderId, RiderOnline(riderId, location, now))]))
  {
  }

  lemma GoOfflineEmitsOnce(w: World, riderId: RiderId, now: Time)
    ensures var (w', res) := GoOffline(w, riderId, now);
      w'.reg == w.reg && w'.db == w.db &&
      (res.None? <==> riderId !in w.db.riders) &&
      (res.None? ==> w' == w) &&
      (res.Some? ==> (res.value == w.db.riders[riderId] &&
        w'.log == w.log + [Emission(RiderOfflineTopic, riderId, RiderOffline(riderId, now))]))
  {
  }

  /** The location event carries an order id exactly when the rider holds a non-empty
      one, and then carries that id. */
  lemma LocationEventCarriesOrder(reg: RegState, riderId: RiderId, latitude: real, longitude: real, now: Time)
    ensures var e := LocationEvent(reg, riderId, latitude, longitude, now);
      (e.currentOrderId.Some? <==> (riderId in reg.currentOrder && reg.currentOrder[riderId] != "")) &&
      (e.currentOrderId.Some? ==> e.currentOrderId.value == reg.currentOrder[riderId]) &&
      e.location.latitude == latitude && e.location.longitude == longitude && e.location.timestamp == now
  {
  }

  /** The service's check is the registry's slot check plus online membership: it holds
      iff some online record names the rider and the rider has no current order. */
  lemma RiderAvailableIff(reg: RegState, riderId: RiderId)
    ensures RiderAvailable(reg, riderId) <==>
      ((exists i :: 0 <= i < |reg.online| && reg.online[i].riderId == riderId) && riderId !in reg.currentOrder)
    ensures RiderAvailable(reg, riderId) ==> IsRiderAvailable(reg, riderId)
  {
  }

  /** An offline rider with an empty slot passes the registry's check but not the
      service's. */
  lemma OfflineRiderDiffers(riderId: RiderId)
    ensures IsRiderAvailable(EmptyRegistry, riderId) && !RiderAvailable(EmptyRegistry, riderId)
  {
  }

  /** The rider status write touches only that rider's status and time stamp. */
  lemma UpdateRiderRowEffects(db: DbState, riderId: RiderId, status: RiderStatus, now: Time)
    ensures var db' := UpdateRiderRow(db, riderId, status, now);
      db'.riders.Keys == db.riders.Keys && db'.orders == db.orders &&
      (forall r :: r in db.riders && r != riderId ==> db'.riders[r] == db.riders[r]) &&
      (riderId in db.riders ==>
        db'.riders[riderId] == db.riders[riderId].(status := status, updatedAt := now))
  {
  }
}
