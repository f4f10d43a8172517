/** The matching engine as functions on the whole state: first-available rider for an
    order, nearest order for a rider, the four-write assignment with its event, the
    re-queue of a dropped order, and the counters. Distance is a parameter. */
module MatchingSpec {
  import opened Config
  import opened Types
  import opened RegistryState
  import opened StoreState
  import opened Worlds

  /** The pickup estimate is fifteen minutes after the assignment. */
  const PICKUP_DELAY_MS: int := 15 * 60 * 1000

  const UNKNOWN_RESTAURANT: string := "unknown"

  /** A distance in kilometres, or the NaN an IEEE computation can produce. */
  datatype Distance = Km(km: real) | NotANumber

  /** The great-circle distance from a rider's coordinates to a restaurant's. */
  type DistanceFn = (real, real, real, real) -> Distance

  /** `distance < minDistance`, where None stands for the initial Infinity; a NaN
      compares false against everything. */
  predicate Closer(d: Distance, min: Option<real>)
  {
    d.Km? && (min.None? || d.km < min.value)
  }

  datatype Outcome = Outcome(world: World, matched: bool)

  /** The position of the first rider, in listing order, whose slot is empty. */
  function FirstAvailable(s: RegState, riders: seq<OnlineRider>): (r: Option<nat>)
    ensures r.Some? ==> (r.value < |riders| && IsRiderAvailable(s, riders[r.value].riderId) &&
                         forall j :: 0 <= j < r.value ==> !IsRiderAvailable(s, riders[j].riderId))
    ensures r.None? ==> forall j :: 0 <= j < |riders| ==> !IsRiderAvailable(s, riders[j].riderId)
    decreases |riders|
  {
    if riders == [] then None
    else if IsRiderAvailable(s, riders[0].riderId) then Some(0)
    else match FirstAvailable(s, riders[1..])
      case None => None
      case Some(k) => Some(k + 1)
  }

  /** `orderResult.length > 0 ? orderResult[0].restaurant_id : 'unknown'` */
  function RestaurantIdFor(db: DbState, orderId: OrderId): RestaurantId
  {
    match FindOrder(db, orderId)
    case None => UNKNOWN_RESTAURANT
    case Some(row) => row.restaurantId
  }

  function AssignedEvent(db: DbState, orderId: OrderId, riderId: RiderId, now: Time): Event
  {
    OrderAssigned(orderId, riderId, RestaurantIdFor(db, orderId), now + PICKUP_DELAY_MS, now)
  }

  /** `assignOrderToRider`: dequeue, both direction entries, status `assigned`, event. */
  function Assign(w: World, orderId: OrderId, riderId: RiderId, now: Time): (r: World)
    ensures RegValid(w.reg) ==> RegValid(r.reg)
  {
    var s1 := RemoveUnassignedOrder(w.reg, orderId);
    var s2 := SetOrderRider(s1, orderId, riderId);
    var s3 := SetRiderCurrentOrder(s2, riderId, orderId);
    var s4 := SetOrderStatus(s3, orderId, Assigned, NoExtras.(riderId := Some(riderId)), now);
    World(s4, w.db, w.log + [EmissionOf(AssignedEvent(w.db, orderId, riderId, now))])
  }

  /** `tryMatchOrder` */
  function MatchOrder(w: World, orderId: OrderId, now: Time): (out: Outcome)
    ensures RegValid(w.reg) ==> RegValid(out.world.reg)
  {
    var riders := w.reg.online;
    if |riders| == 0 then Outcome(w, false)
    else match FirstAvailable(w.reg, riders)
      case None => Outcome(w, false)
      case Some(i) => Outcome(Assign(w, orderId, riders[i].riderId, now), true)
  }

  /** The distance from a location to each order's restaurant, in listing order. */
  function RestaurantDistances(loc: Location, orders: seq<UnassignedOrder>, dist: DistanceFn): (ds: seq<Distance>)
    ensures |ds| == |orders|
    ensures forall i :: 0 <= i < |orders| ==>
      ds[i] == dist(loc.latitude, loc.longitude, orders[i].restaurantLocation.latitude, orders[i].restaurantLocation.longitude)
    decreases |orders|
  {
    if orders == [] then []
    else
      var o := orders[0].restaurantLocation;
      [dist(loc.latitude, loc.longitude, o.latitude, o.longitude)] + RestaurantDistances(loc, orders[1..], dist)
  }

  /** The distance held by the current best candidate, None for none yet. */
  function BestSoFar(ds: seq<Distance>, k: Option<nat>): Option<real>
    requires k.Some? ==> k.value < |ds| && ds[k.value].Km?
  {
    if k.None? then None else Some(ds[k.value].km)
  }

  /** The scan with a strict `<`: the first position of the least finite distance. */
  function ArgMin(ds: seq<Distance>): (r: Option<nat>)
    ensures r.Some? ==> r.value < |ds| && ds[r.value].Km?
    ensures r.Some? ==> forall j :: 0 <= j < |ds| && ds[j].Km? ==> ds[r.value].km <= ds[j].km
    ensures r.Some? ==> forall j :: 0 <= j < r.value && ds[j].Km? ==> ds[r.value].km < ds[j].km
    ensures r.None? <==> forall j :: 0 <= j < |ds| ==> ds[j].NotANumber?
    decreases |ds|
  {
    if ds == [] then None
    else
      var prefix := ds[..|ds| - 1];
      var k := ArgMin(prefix);
      assert forall j :: 0 <= j < |prefix| ==> prefix[j] == ds[j];
      if Closer(ds[|ds| - 1], BestSoFar(ds, k)) then Some(|ds| - 1) else k
  }

  /** `tryMatchRider` */
  function MatchRider(w: World, riderId: RiderId, now: Time, dist: DistanceFn): (out: Outcome)
    ensures RegValid(w.reg) ==> RegValid(out.world.reg)
  {
    if !IsRiderAvailable(w.reg, riderId) then Outcome(w, false)
    else
      var orders := w.reg.unassigned;
      if |orders| == 0 then Outcome(w, false)
      else match GetRiderLocation(w.reg, riderId)
        case None => Outcome(w, false)
        case Some(loc) =>
          match ArgMin(RestaurantDistances(loc, orders, dist))
          case None => Outcome(w, false)
          case Some(k) => Outcome(Assign(w, orders[k].orderId, riderId, now), true)
  }

  function ReassignedExtras(previousRiderId: RiderId): Extras
  {
    NoExtras.(reassigned := Some(true), previousRiderId := Some(previousRiderId))
  }

  /** `reassignOrder` */
  function Reassign(w: World, orderId: OrderId, previousRiderId: RiderId, now: Time): (out: Outcome)
    ensures RegValid(w.reg) ==> RegValid(out.world.reg)
  {
    var w1 := w.(reg := ClearRiderCurrentOrder(w.reg, previousRiderId));
    match FindOrder(w.db, orderId)
    case None => Outcome(w1, false)
    case Some(row) =>
      match FindRestaurant(w.db, row.restaurantId)
      case None => Outcome(w1, false)
      case Some(rest) =>
        var loc := Location(rest.latitude, rest.longitude, now, None);
        var s2 := AddUnassignedOrder(w1.reg, orderId, row.restaurantId, loc, now);
        var s3 := SetOrderStatus(s2, orderId, Ready, ReassignedExtras(previousRiderId), now);
        MatchOrder(w1.(reg := s3), orderId, now)
  }

  /** The number of riders in the list whose slot is empty, counted left to right. */
  function CountAvailable(s: RegState, riders: seq<OnlineRider>): (n: nat)
    ensures n <= |riders|
    ensures n == 0 <==> forall j :: 0 <= j < |riders| ==> !IsRiderAvailable(s, riders[j].riderId)
    decreases |riders|
  {
    if riders == [] then 0
    else
      var prefix := riders[..|riders| - 1];
      assert forall j :: 0 <= j < |prefix| ==> prefix[j] == riders[j];
      CountAvailable(s, prefix) + (if IsRiderAvailable(s, riders[|riders| - 1].riderId) then 1 else 0)
  }

  datatype Stats = Stats(unassignedOrders: nat, onlineRiders: nat, availableRiders: nat)

  /** `getMatchingStats` */
  function MatchingStats(s: RegState): (st: Stats)
    ensures st.unassignedOrders == |s.unassigned| && st.onlineRiders == |s.online|
  {
    Stats(|s.unassigned|, |s.online|, CountAvailable(s, s.online))
  }

  // ----- Properties -----

  /** Every rider that held an order still holds the same one. */
  predicate SlotsKept(s: RegState, s': RegState)
  {
    forall r :: r in s.currentOrder ==> r in s'.currentOrder && s'.currentOrder[r] == s.currentOrder[r]
  }

  /** The dequeue of an assignment: the first record of the order goes and only it. */
  lemma AssignDequeues(w: World, orderId: OrderId, riderId: RiderId, now: Time)
    requires NoDuplicates(w.reg.unassigned)
    ensures var r := Assign(w, orderId, riderId, now).reg;
      (forall i :: 0 <= i < |w.reg.unassigned| && w.reg.unassigned[i].orderId != orderId ==>
         w.reg.unassigned[i] in r.unassigned) &&
      |r.unassigned| == |w.reg.unassigned| - (if FirstIndex(w.reg.unassigned, OrderIdOf, orderId).Some? then 1 else 0)
  {
    RemoveUnassignedOrderRemovesFirst(w.reg, orderId);
    var xs := w.reg.unassigned;
    assert Assign(w, orderId, riderId, now).reg.unassigned == RemoveUnassignedOrder(w.reg, orderId).unassigned;
    match FirstIndex(xs, OrderIdOf, orderId)
    case None =>
    case Some(k) =>
      forall i | 0 <= i < |xs| && xs[i].orderId != orderId
        ensures xs[i] in xs[..k] + xs[k + 1..]
      {
        if i < k { assert xs[i] == (xs[..k] + xs[k + 1..])[i]; }
        else { assert i > k; assert xs[i] == (xs[..k] + xs[k + 1..])[i - 1]; }
      }
  }

  /** The entries an assignment writes: both directions name each other, the status is
      `assigned` carrying the rider, and exactly one event, with pickup fifteen minutes
      on, is appended; the online set and the store are untouched. */
  lemma AssignWrites(w: World, orderId: OrderId, riderId: RiderId, now: Time)
    ensures var r := Assign(w, orderId, riderId, now);
      GetOrderRider(r.reg, orderId) == Some(riderId) &&
      GetRiderCurrentOrder(r.reg, riderId) == Some(orderId) &&
      GetOrderStatus(r.reg, orderId) == Some(StatusRecord(orderId, Assigned, now, NoExtras.(riderId := Some(riderId)))) &&
      r.reg.online == w.reg.online && r.db == w.db &&
      r.log == w.log + [Emission(OrderAssignedTopic, orderId,
                                 OrderAssigned(orderId, riderId, RestaurantIdFor(w.db, orderId), now + 900000, now))]
  {
  }

  /** An assignment to a rider with an empty slot leaves every held order in place. */
  lemma AssignKeepsSlots(w: World, orderId: OrderId, riderId: RiderId, now: Time)
    requires riderId !in w.reg.currentOrder
    ensures SlotsKept(w.reg, Assign(w, orderId, riderId, now).reg)
  {
    var r := Assign(w, orderId, riderId, now).reg;
    assert r.currentOrder == w.reg.currentOrder[riderId := orderId];
  }

  /** With no rider online nothing changes; otherwise the first rider in listing order
      whose slot is empty gets the order, every earlier one being busy; with all busy
      nothing changes. */
  lemma MatchOrderPicksFirstAvailable(w: World, orderId: OrderId, now: Time)
    ensures |w.reg.online| == 0 ==> MatchOrder(w, orderId, now) == Outcome(w, false)
    ensures var out := MatchOrder(w, orderId, now);
      out.matched <==> exists i :: 0 <= i < |w.reg.online| && IsRiderAvailable(w.reg, w.reg.online[i].riderId)
    ensures var out := MatchOrder(w, orderId, now);
      !out.matched ==> out.world == w
    ensures var out := MatchOrder(w, orderId, now);
      out.matched ==> exists i :: (0 <= i < |w.reg.online| &&
                                   IsRiderAvailable(w.reg, w.reg.online[i].riderId) &&
                                   (forall j :: 0 <= j < i ==> !IsRiderAvailable(w.reg, w.reg.online[j].riderId)) &&
                                   out.world == Assign(w, orderId, w.reg.online[i].riderId, now))
  {
    var out := MatchOrder(w, orderId, now);
    if out.matched {
      var i := FirstAvailable(w.reg, w.reg.online).value;
      assert IsRiderAvailable(w.reg, w.reg.online[i].riderId);
    }
  }

  /** The three early exits of `tryMatchRider`: each returns false and changes nothing. */
  lemma MatchRiderEarlyExits(w: World, riderId: RiderId, now: Time, dist: DistanceFn)
    requires !IsRiderAvailable(w.reg, riderId) || |w.reg.unassigned| == 0 || GetRiderLocation(w.reg, riderId) == None
    ensures MatchRider(w, riderId, now, dist) == Outcome(w, false)
  {
  }

  /** A rider that gets an order gets one whose restaurant is at least distance, and
      the first such in listing order; when it gets none the state is unchanged. */
  lemma MatchRiderPicksNearest(w: World, riderId: RiderId, now: Time, dist: DistanceFn)
    ensures var out := MatchRider(w, riderId, now, dist);
      !out.matched ==> out.world == w
    ensures var out := MatchRider(w, riderId, now, dist);
      out.matched ==>
        IsRiderAvailable(w.reg, riderId) && GetRiderLocation(w.reg, riderId).Some? &&
        var loc := GetRiderLocation(w.reg, riderId).value;
        var ds := RestaurantDistances(loc, w.reg.unassigned, dist);
        exists k :: 0 <= k < |ds| && ds[k].Km? &&
          (forall j :: 0 <= j < |ds| && ds[j].Km? ==> ds[k].km <= ds[j].km) &&
          (forall j :: 0 <= j < k && ds[j].Km? ==> ds[k].km < ds[j].km) &&
          out.world == Assign(w, w.reg.unassigned[k].orderId, riderId, now)
  {
    var out := MatchRider(w, riderId, now, dist);
    if out.matched {
      var loc := GetRiderLocation(w.reg, riderId).value;
      var ds := RestaurantDistances(loc, w.reg.unassigned, dist);
      var k := ArgMin(ds).value;
      assert out.world == Assign(w, w.reg.unassigned[k].orderId, riderId, now);
    }
  }

  /** When every restaurant distance is NaN the scan finds no order and nothing changes. */
  lemma MatchRiderAllNaN(w: World, riderId: RiderId, now: Time, dist: DistanceFn)
    requires forall a, b, c, d :: dist(a, b, c, d) == NotANumber
    ensures MatchRider(w, riderId, now, dist) == Outcome(w, false)
  {
    match GetRiderLocation(w.reg, riderId)
    case None =>
    case Some(loc) =>
      var ds := RestaurantDistances(loc, w.reg.unassigned, dist);
      assert forall j :: 0 <= j < |ds| ==> ds[j].NotANumber?;
  }

  /** Matching an order hands it only to a rider whose slot is empty, so an order
      held by a rider is never replaced. */
  lemma MatchOrderKeepsSlots(w: World, orderId: OrderId, now: Time)
    ensures SlotsKept(w.reg, MatchOrder(w, orderId, now).world.reg)
  {
    if |w.reg.online| > 0 {
      match FirstAvailable(w.reg, w.reg.online)
      case None =>
      case Some(i) => AssignKeepsSlots(w, orderId, w.reg.online[i].riderId, now);
    }
  }

  /** Matching a rider only proceeds when its own slot is empty. */
  lemma MatchRiderKeepsSlots(w: World, riderId: RiderId, now: Time, dist: DistanceFn)
    ensures SlotsKept(w.reg, MatchRider(w, riderId, now, dist).world.reg)
    ensures MatchRider(w, riderId, now, dist).matched ==> riderId !in w.reg.currentOrder
  {
    var out := MatchRider(w, riderId, now, dist);
    if out.matched {
      var loc := GetRiderLocation(w.reg, riderId).value;
      var k := ArgMin(RestaurantDistances(loc, w.reg.unassigned, dist)).value;
      AssignKeepsSlots(w, w.reg.unassigned[k].orderId, riderId, now);
    }
  }

  /** The previous rider's slot is cleared first in every case; a missing order or
      restaurant stops there with false, and otherwise the order is queued again as
      `ready` with the reassignment marks and matched as a fresh one. */
  lemma ReassignSteps(w: World, orderId: OrderId, previousRiderId: RiderId, now: Time)
    ensures var out := Reassign(w, orderId, previousRiderId, now);
      var w1 := w.(reg := ClearRiderCurrentOrder(w.reg, previousRiderId));
      ((FindOrder(w.db, orderId).None? || FindRestaurant(w.db, FindOrder(w.db, orderId).value.restaurantId).None?) ==>
         out == Outcome(w1, false))
    ensures var out := Reassign(w, orderId, previousRiderId, now);
      var w1 := w.(reg := ClearRiderCurrentOrder(w.reg, previousRiderId));
      FindOrder(w.db, orderId).Some? && FindRestaurant(w.db, FindOrder(w.db, orderId).value.restaurantId).Some? ==>
        var row := FindOrder(w.db, orderId).value;
        var rest := FindRestaurant(w.db, row.restaurantId).value;
        var queued := SetOrderStatus(
          AddUnassignedOrder(w1.reg, orderId, row.restaurantId, Location(rest.latitude, rest.longitude, now, None), now),
          orderId, Ready, ReassignedExtras(previousRiderId), now);
        UnassignedOrder(orderId, row.restaurantId, Location(rest.latitude, rest.longitude, now, None), now) in queued.unassigned &&
        GetOrderStatus(queued, orderId) == Some(StatusRecord(orderId, Ready, now, ReassignedExtras(previousRiderId))) &&
        GetRiderCurrentOrder(queued, previousRiderId) == None &&
        out == MatchOrder(w1.(reg := queued), orderId, now)
  {
  }

  /** The counters report the two set sizes, and no more riders are available than
      are online; none is available exactly when every online rider holds an order. */
  lemma StatsBounds(s: RegState)
    ensures var st := MatchingStats(s);
      st.unassignedOrders == |s.unassigned| && st.onlineRiders == |s.online| &&
      st.availableRiders <= st.onlineRiders &&
      (st.availableRiders == 0 <==> FirstAvailable(s, s.online).None?)
  {
    var riders := s.online;
    if FirstAvailable(s, riders).Some? {
      var i := FirstAvailable(s, riders).value;
      assert IsRiderAvailable(s, riders[i].riderId);
    }
  }
}
