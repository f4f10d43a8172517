/** The rider service as an object over the shared registry, store and producer. */
module Riders {
  import opened Config
  import opened Types
  import opened RegistryState
  import opened StoreState
  import opened Registry
  import opened Store
  import opened Producer
  import opened Worlds
  import opened RidersSpec

  class RiderService {
    const reg: RedisClient
    const db: Database
    const producer: EventProducer

    constructor(reg: RedisClient, db: Database, producer: EventProducer)
      ensures this.reg == reg && this.db == db && this.producer == producer
    {
      this.reg := reg;
      this.db := db;
      this.producer := producer;
    }

    ghost function W(): World
      reads reg, db, producer
    {
      WorldOf(reg, db, producer)
    }

    /** `createRider`; the id stands for the fresh UUID. */
    method CreateRider(riderId: RiderId, name: string, phone: string, email: string,
                       vehicleType: string, now: Time) returns (rider: Result<RiderRow>)
      requires riderId !in db.riders
      modifies db
      ensures (db.State(), rider) == RidersSpec.CreateRider(old(db.State()), riderId, name, phone, email, vehicleType, now)
    {
      rider := db.InsertRider(RiderRow(riderId, name, phone, email, vehicleType, Offline, now, now));
    }

    function GetRiderById(riderId: RiderId): (r: Option<RiderRow>)
      reads db
      ensures r == FindRider(db.State(), riderId)
    {
      db.SelectRider(riderId)
    }

    /** `goOnline` */
    method GoOnline(riderId: RiderId, location: Location, now: Time) returns (result: Option<RiderRow>)
      modifies producer
      ensures (W(), result) == RidersSpec.GoOnline(old(W()), riderId, location, now)
    {
      var rider := GetRiderById(riderId);
      if rider.None? {
        return None;
      }
      producer.Emit(RiderOnline(riderId, location, now));
      return rider;
    }

    /** `goOffline` */
    method GoOffline(riderId: RiderId, now: Time) returns (result: Option<RiderRow>)
      modifies producer
      ensures (W(), result) == RidersSpec.GoOffline(old(W()), riderId, now)
    {
      var rider := GetRiderById(riderId);
      if rider.None? {
        return None;
      }
      producer.Emit(RiderOffline(riderId, now));
      return rider;
    }

    /** `updateLocation` */
    method UpdateLocation(riderId: RiderId, latitude: real, longitude: real, now: Time)
      modifies producer
      ensures W() == RidersSpec.UpdateLocation(old(W()), riderId, latitude, longitude, now)
    {
      var currentOrderId := reg.GetRiderCurrentOrder(riderId);
      var locationWithTimestamp := Location(latitude, longitude, now, None);
      producer.Emit(RiderLocation(riderId, locationWithTimestamp,
                                  if Truthy(currentOrderId) then currentOrderId else None, now));
    }

    /** `updateRiderStatus` */
    method UpdateRiderStatus(riderId: RiderId, status: RiderStatus, now: Time)
      modifies db
      ensures db.State() == UpdateRiderRow(old(db.State()), riderId, status, now)
    {
      db.UpdateRiderStatus(riderId, status, now);
    }

    /** `saveLocationHistory` */
    method SaveLocationHistory(riderId: RiderId, location: Location) returns (error: Option<string>)
      modifies db
      ensures Settles(old(db.State()), db.State(), InsertLocationSample(old(db.State()), riderId, location.latitude, location.longitude), error)
    {
      error := db.InsertLocationSample(riderId, location.latitude, location.longitude);
    }

    /** `isRiderAvailable`: the online check first, then the slot check. */
    method IsRiderAvailable(riderId: RiderId) returns (available: bool)
      ensures available <==> RiderAvailable(reg.State(), riderId)
    {
      var isOnline := reg.IsRiderOnline(riderId);
      if !isOnline {
        return false;
      }
      available := reg.IsRiderAvailable(riderId);
    }
  }
}
