/** Three places where the dispatch code does not do what it evidently means to, each as
    the behaviour as written with an input that shows it, and a corrected definition
    with the intended property proved. */
module Findings {
  import opened Config
  import opened Types
  import opened RegistryState
  import opened StoreState
  import opened Worlds
  import opened MatchingSpec
  import opened HandlersSpec

  // ----- Removal of every record of one id -----

  /** The members whose id is not `key`, in listing order. */
  function DropAll<T(!new)>(xs: seq<T>, id: T -> string, key: string): (ys: seq<T>)
    ensures forall x :: x in ys <==> (x in xs && id(x) != key)
    ensures NoDuplicates(xs) ==> NoDuplicates(ys)
    ensures forall y :: y in ys ==> id(y) != key
    decreases |xs|
  {
    if xs == [] then []
    else
      var rest := DropAll(xs[1..], id, key);
      assert NoDuplicates(xs) ==> NoDuplicates(xs[1..]) && xs[0] !in xs[1..] by {
        if NoDuplicates(xs) {
          forall i, j | 0 <= i < j < |xs[1..]| ensures xs[1..][i] != xs[1..][j] {
            assert xs[1..][i] == xs[i + 1] && xs[1..][j] == xs[j + 1];
          }
          forall k | 0 <= k < |xs[1..]| ensures xs[1..][k] != xs[0] {
            assert xs[1..][k] == xs[k + 1];
          }
        }
      }
      if id(xs[0]) == key then rest else [xs[0]] + rest
  }

  // ----- Finding: a rider online twice stays online -----

  /** As written, a rider whose online record was added twice (two `rider.online`
      events, two timestamps) is still listed after its removal, although its location
      is gone. */
  lemma RiderOnlineTwiceStaysOnline(s: RegState, riderId: RiderId, i: nat, j: nat)
    requires NoDuplicates(s.online)
    requires i < j < |s.online| && s.online[i].riderId == riderId && s.online[j].riderId == riderId
    ensures IsRiderOnline(RemoveOnlineRider(s, riderId), riderId)
    ensures GetRiderLocation(RemoveOnlineRider(s, riderId), riderId) == None
  {
    RemoveOnlineRiderRemovesFirst(s, riderId);
    var k := FirstIndex(s.online, RiderIdOf, riderId).value;
    var xs := s.online;
    SRemAt(xs, k);
    var r := RemoveOnlineRider(s, riderId);
    assert r.online == xs[..k] + xs[k + 1..];
    assert k <= i;
    assert r.online[j - 1] == xs[j];
  }

  /** The evident intent: removing a rider takes every record of it off the list. */
  function RemoveOnlineRiderAll(s: RegState, riderId: RiderId): (r: RegState)
    ensures RegValid(s) ==> RegValid(r)
    ensures !IsRiderOnline(r, riderId) && GetRiderLocation(r, riderId) == None
    ensures forall x :: x in s.online && x.riderId != riderId ==> x in r.online
    ensures r.currentOrder == s.currentOrder && r.unassigned == s.unassigned && r.statuses == s.statuses
  {
    var r := s.(online := DropAll(s.online, RiderIdOf, riderId), locations := s.locations - {riderId},
                ttl := s.ttl - {LocationKey(riderId)});
    assert forall i :: 0 <= i < |r.online| ==> r.online[i] in r.online;
    r
  }

  // ----- Finding: the departing rider gets its own order back -----

  /** As written, a rider listed first that goes offline while holding an order has the
      order reassigned to itself, because reassignment runs before removal: afterwards
      it still holds the order, the order's status names it, and it has no location. */
  lemma OfflineRiderGetsOrderBack(w: World, e: Event, now: Time)
    requires e.RiderOffline? && |w.reg.online| > 0 && w.reg.online[0].riderId == e.riderId
    requires e.riderId in w.reg.currentOrder && w.reg.currentOrder[e.riderId] != ""
    requires var o := w.reg.currentOrder[e.riderId];
      o in w.db.orders && w.db.orders[o].restaurantId in w.db.restaurants
    ensures var o := w.reg.currentOrder[e.riderId];
      var w' := OnRiderOffline(w, Some(e), now);
      GetRiderCurrentOrder(w'.reg, e.riderId) == Some(o) &&
      GetOrderRider(w'.reg, o) == Some(e.riderId) &&
      GetOrderStatus(w'.reg, o).value.status == Assigned &&
      GetRiderLocation(w'.reg, e.riderId) == None
  {
    var r := e.riderId;
    var o := w.reg.currentOrder[r];
    var row := w.db.orders[o];
    var rest := w.db.restaurants[row.restaurantId];
    var w1 := w.(reg := ClearRiderCurrentOrder(w.reg, r));
    var loc := Location(rest.latitude, rest.longitude, now, None);
    var queued := SetOrderStatus(AddUnassignedOrder(w1.reg, o, row.restaurantId, loc, now), o, Ready, ReassignedExtras(r), now);
    assert queued.online == w.reg.online;
    assert IsRiderAvailable(queued, r);
    assert FirstAvailable(queued, queued.online) == Some(0);
    assert Reassign(w, o, r, now).world == Assign(w1.(reg := queued), o, r, now);
    AssignWrites(w1.(reg := queued), o, r, now);
  }

  /** The evident intent: take the rider off the list first, then reassign its order. */
  function OnRiderOfflineCorrected(w: World, msg: Option<Event>, now: Time): (r: World)
    requires Carries(msg, RiderOfflineTopic)
    ensures RegValid(w.reg) ==> RegValid(r.reg)
  {
    match msg
    case None => w
    case Some(e) =>
      var w1 := w.(reg := RemoveOnlineRiderAll(w.reg, e.riderId));
      var w2 := OfflineReassigned(w1, e.riderId, now);
      w2.(db := UpdateRiderRow(w2.db, e.riderId, Offline, now))
  }

  /** Matching an order never touches the slot of a rider that is not listed. */
  lemma MatchOrderSparesUnlisted(w: World, orderId: OrderId, now: Time, riderId: RiderId)
    requires !IsRiderOnline(w.reg, riderId)
    ensures GetRiderCurrentOrder(MatchOrder(w, orderId, now).world.reg, riderId) == GetRiderCurrentOrder(w.reg, riderId)
    ensures MatchOrder(w, orderId, now).world.reg.online == w.reg.online
  {
    if |w.reg.online| > 0 {
      match FirstAvailable(w.reg, w.reg.online)
      case None =>
      case Some(i) =>
        assert w.reg.online[i].riderId != riderId;
        AssignWrites(w, orderId, w.reg.online[i].riderId, now);
    }
  }

  /** With the corrected order of steps, the departing rider ends neither listed nor
      holding any order, and its order, when it had one, is re-queued or given to a
      rider that is still online. */
  lemma CorrectedOfflineReleasesRider(w: World, e: Event, now: Time)
    requires e.RiderOffline?
    ensures var w' := OnRiderOfflineCorrected(w, Some(e), now);
      !IsRiderOnline(w'.reg, e.riderId) &&
      GetRiderCurrentOrder(w'.reg, e.riderId) == (if Truthy(GetRiderCurrentOrder(w.reg, e.riderId)) then None
                                                  else GetRiderCurrentOrder(w.reg, e.riderId)) &&
      GetRiderLocation(w'.reg, e.riderId) == None &&
      (e.riderId in w.db.riders ==> w'.db.riders[e.riderId].status == Offline)
  {
    var r := e.riderId;
    var w1 := w.(reg := RemoveOnlineRiderAll(w.reg, r));
    var cur := GetRiderCurrentOrder(w1.reg, r);
    if Truthy(cur) {
      var o := cur.value;
      var wc := w1.(reg := ClearRiderCurrentOrder(w1.reg, r));
      match FindOrder(w1.db, o)
      case None =>
      case Some(row) =>
        match FindRestaurant(w1.db, row.restaurantId)
        case None =>
        case Some(rest) =>
          var loc := Location(rest.latitude, rest.longitude, now, None);
          var queued := SetOrderStatus(AddUnassignedOrder(wc.reg, o, row.restaurantId, loc, now), o, Ready, ReassignedExtras(r), now);
          assert queued.online == w1.reg.online;
          assert queued.locations == w1.reg.locations;
          MatchOrderSparesUnlisted(wc.(reg := queued), o, now, r);
          AssignLocationsKept(wc.(reg := queued), o, now);
    }
  }

  /** Matching never changes stored locations. */
  lemma AssignLocationsKept(w: World, orderId: OrderId, now: Time)
    ensures MatchOrder(w, orderId, now).world.reg.locations == w.reg.locations
  {
  }

  // ----- Finding: an order queued twice goes to two riders -----

  /** As written, an order whose ready record was queued twice (two `order.ready`
      events at different times) keeps one record after its first assignment, and a
      second idle rider near the restaurant is handed the same order. */
  lemma OrderQueuedTwiceGoesToTwoRiders(w: World, a: RiderId, b: RiderId, rec1: UnassignedOrder,
                                        rec2: UnassignedOrder, now: Time, dist: DistanceFn)
    requires w.reg.unassigned == [rec1, rec2] && rec1.orderId == rec2.orderId && rec1 != rec2
    requires a != b && a !in w.reg.currentOrder && b !in w.reg.currentOrder && b in w.reg.locations
    requires var loc := w.reg.locations[b];
      dist(loc.latitude, loc.longitude, rec2.restaurantLocation.latitude, rec2.restaurantLocation.longitude).Km?
    ensures var w1 := Assign(w, rec1.orderId, a, now);
      var out := MatchRider(w1, b, now, dist);
      out.matched &&
      GetRiderCurrentOrder(out.world.reg, a) == Some(rec1.orderId) &&
      GetRiderCurrentOrder(out.world.reg, b) == Some(rec1.orderId)
  {
    var o := rec1.orderId;
    var w1 := Assign(w, o, a, now);
    assert FirstIndex(w.reg.unassigned, OrderIdOf, o) == Some(0);
    assert w1.reg.unassigned == SRem([rec1, rec2], rec1);
    SRemAt([rec1, rec2], 0);
    assert [rec1, rec2][1..] == [rec2];
    assert w1.reg.unassigned == [rec2];
    var loc := w1.reg.locations[b];
    var ds := RestaurantDistances(loc, w1.reg.unassigned, dist);
    assert ArgMin(ds) == Some(0);
    AssignWrites(w1, o, b, now);
  }

  /** The evident intent: an assignment dequeues every record of the order. */
  function AssignCorrected(w: World, orderId: OrderId, riderId: RiderId, now: Time): (r: World)
    ensures RegValid(w.reg) ==> RegValid(r.reg)
    ensures forall x :: x in r.reg.unassigned ==> x.orderId != orderId
    ensures forall x :: x in w.reg.unassigned && x.orderId != orderId ==> x in r.reg.unassigned
  {
    var s1 := w.reg.(unassigned := DropAll(w.reg.unassigned, OrderIdOf, orderId));
    var s2 := SetOrderRider(s1, orderId, riderId);
    var s3 := SetRiderCurrentOrder(s2, riderId, orderId);
    var s4 := SetOrderStatus(s3, orderId, Assigned, NoExtras.(riderId := Some(riderId)), now);
    World(s4, w.db, w.log + [EmissionOf(AssignedEvent(w.db, orderId, riderId, now))])
  }

  /** After the corrected assignment, nearest-order matching for any rider hands out
      some other order, never the one just assigned. */
  lemma CorrectedAssignIsFinal(w: World, orderId: OrderId, a: RiderId, b: RiderId, now: Time, dist: DistanceFn)
    ensures var w1 := AssignCorrected(w, orderId, a, now);
      var out := MatchRider(w1, b, now, dist);
      out.matched ==> exists k :: 0 <= k < |w1.reg.unassigned| && w1.reg.unassigned[k].orderId != orderId &&
                                  out.world == Assign(w1, w1.reg.unassigned[k].orderId, b, now)
  {
    var w1 := AssignCorrected(w, orderId, a, now);
    MatchRiderPicksNearest(w1, b, now, dist);
    var out := MatchRider(w1, b, now, dist);
    if out.matched {
      var loc := GetRiderLocation(w1.reg, b).value;
      var k := ArgMin(RestaurantDistances(loc, w1.reg.unassigned, dist)).value;
      assert w1.reg.unassigned[k] in w1.reg.unassigned;
    }
  }
}
