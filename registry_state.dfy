/** The availability registry as a value: two sets of JSON records and four keyed
    entries, with the time-to-live of every key that has one. Each write operation of
    the registry client is a function from the old state to the new one. */
module RegistryState {
  import opened Config
  import opened Types

  const STATUS_TTL_SECONDS: nat := 86400
  const ORDER_RIDER_TTL_SECONDS: nat := 86400
  const LOCATION_TTL_SECONDS: nat := 3600

  /** Sets are kept as sequences in listing order; a member is a whole record, so two
      records of one id that differ in their timestamp are two members. */
  datatype RegState = RegState(
    unassigned: seq<UnassignedOrder>,
    online: seq<OnlineRider>,
    statuses: map<OrderId, StatusRecord>,
    orderRider: map<OrderId, RiderId>,
    currentOrder: map<RiderId, OrderId>,
    locations: map<RiderId, Location>,
    ttl: map<RedisKey, nat>)

  const EmptyRegistry: RegState := RegState([], [], map[], map[], map[], map[], map[])

  // ----- Set members -----

  predicate NoDuplicates<T(==)>(xs: seq<T>)
  {
    forall i, j :: 0 <= i < j < |xs| ==> xs[i] != xs[j]
  }

  /** SADD: adding a member already present changes nothing. */
  function SAdd<T(==,!new)>(xs: seq<T>, x: T): (r: seq<T>)
    ensures forall y :: y in r <==> y in xs || y == x
    ensures r == xs || r == xs + [x]
    ensures NoDuplicates(xs) ==> NoDuplicates(r)
  {
    if x in xs then xs else xs + [x]
  }

  /** SREM: the member is removed by value. */
  function SRem<T(==,!new)>(xs: seq<T>, x: T): (r: seq<T>)
    ensures forall y :: y in r <==> y in xs && y != x
    ensures NoDuplicates(xs) ==> NoDuplicates(r)
    decreases |xs|
  {
    if xs == [] then []
    else if xs[0] == x then SRem(xs[1..], x)
    else
      var rest := SRem(xs[1..], x);
      assert NoDuplicates(xs) ==> NoDuplicates(xs[1..]) && xs[0] !in rest by {
        if NoDuplicates(xs) {
          forall a, b | 0 <= a < b < |xs[1..]| ensures xs[1..][a] != xs[1..][b] {
            assert xs[1..][a] == xs[a + 1] && xs[1..][b] == xs[b + 1];
          }
          forall j | 0 <= j < |xs[1..]| ensures xs[1..][j] != xs[0] {
            assert xs[1..][j] == xs[j + 1];
          }
        }
      }
      [xs[0]] + rest
  }

  lemma {:induction false} SRemAbsent<T(!new)>(xs: seq<T>, x: T)
    requires x !in xs
    ensures SRem(xs, x) == xs
    decreases |xs|
  {
    if xs != [] {
      SRemAbsent(xs[1..], x);
      assert xs == [xs[0]] + xs[1..];
    }
  }

  /** In a set, removing the member at position i removes exactly that position. */
  lemma {:induction false} SRemAt<T(!new)>(xs: seq<T>, i: nat)
    requires NoDuplicates(xs) && i < |xs|
    ensures SRem(xs, xs[i]) == xs[..i] + xs[i + 1..]
    decreases |xs|
  {
    if i == 0 {
      assert xs[0] !in xs[1..] by {
        forall j | 0 <= j < |xs[1..]| ensures xs[1..][j] != xs[0] {
          assert xs[1..][j] == xs[j + 1];
        }
      }
      SRemAbsent(xs[1..], xs[0]);
    } else {
      var t := xs[1..];
      assert NoDuplicates(t) by {
        forall a, b | 0 <= a < b < |t| ensures t[a] != t[b] {
          assert t[a] == xs[a + 1] && t[b] == xs[b + 1];
        }
      }
      assert t[i - 1] == xs[i];
      assert xs[0] != xs[i];
      SRemAt(t, i - 1);
      assert xs[..i] == [xs[0]] + t[..i - 1];
      assert xs[i + 1..] == t[i..];
    }
  }

  function OrderIdOf(x: UnassignedOrder): OrderId { x.orderId }

  function RiderIdOf(x: OnlineRider): RiderId { x.riderId }

  /** The position of the first member whose id is `key`, scanning in listing order. */
  function FirstIndex<T>(xs: seq<T>, id: T -> string, key: string): (r: Option<nat>)
    ensures r.Some? ==> (r.value < |xs| && id(xs[r.value]) == key &&
                         forall j :: 0 <= j < r.value ==> id(xs[j]) != key)
    ensures r.None? ==> forall j :: 0 <= j < |xs| ==> id(xs[j]) != key
    decreases |xs|
  {
    if xs == [] then None
    else if id(xs[0]) == key then Some(0)
    else match FirstIndex(xs[1..], id, key)
      case None => None
      case Some(k) => Some(k + 1)
  }

  // ----- Well-formedness -----

  /** A key with a time-to-live names an entry that is stored. */
  predicate Stored(s: RegState, k: RedisKey)
  {
    match k
    case StatusKey(o) => o in s.statuses
    case AssignedRiderKey(o) => o in s.orderRider
    case LocationKey(r) => r in s.locations
    case _ => false
  }

  /** The sets hold no repeated member; exactly the status, order-rider and location
      entries carry a time-to-live, the current-order entries never do. */
  predicate RegValid(s: RegState)
  {
    NoDuplicates(s.unassigned) && NoDuplicates(s.online) &&
    (forall k :: k in s.ttl ==> Stored(s, k)) &&
    (forall o :: o in s.statuses ==> StatusKey(o) in s.ttl) &&
    (forall o :: o in s.orderRider ==> AssignedRiderKey(o) in s.ttl) &&
    (forall r :: r in s.locations ==> LocationKey(r) in s.ttl)
  }

  lemma EmptyRegistryValid()
    ensures RegValid(EmptyRegistry)
  {
  }

  // ----- Order entries -----

  /** SET of the status key followed by EXPIRE: the new record replaces the old one
      whole, and none of the old record's fields survive. */
  function SetOrderStatus(s: RegState, orderId: OrderId, status: OrderStatus, extras: Extras, now: Time): (r: RegState)
    ensures RegValid(s) ==> RegValid(r)
  {
    s.(statuses := s.statuses[orderId := StatusRecord(orderId, status, now, extras)],
       ttl := s.ttl[StatusKey(orderId) := STATUS_TTL_SECONDS])
  }

  function GetOrderStatus(s: RegState, orderId: OrderId): Option<StatusRecord>
  {
    if orderId in s.statuses then Some(s.statuses[orderId]) else None
  }

  /** SADD of a ready-order record stamped `now`, then status `ready`. */
  function AddUnassignedOrder(s: RegState, orderId: OrderId, restaurantId: RestaurantId,
                              restaurantLocation: Location, now: Time): (r: RegState)
    ensures RegValid(s) ==> RegValid(r)
  {
    var rec := UnassignedOrder(orderId, restaurantId, restaurantLocation, now);
    SetOrderStatus(s.(unassigned := SAdd(s.unassigned, rec)), orderId, Ready, NoExtras, now)
  }

  /** SREM of the first record whose order id matches, if any. */
  function RemoveUnassignedOrder(s: RegState, orderId: OrderId): (r: RegState)
    ensures RegValid(s) ==> RegValid(r)
  {
    match FirstIndex(s.unassigned, OrderIdOf, orderId)
    case None => s
    case Some(k) => s.(unassigned := SRem(s.unassigned, s.unassigned[k]))
  }

  function SetOrderRider(s: RegState, orderId: OrderId, riderId: RiderId): (r: RegState)
    ensures RegValid(s) ==> RegValid(r)
  {
    s.(orderRider := s.orderRider[orderId := riderId],
       ttl := s.ttl[AssignedRiderKey(orderId) := ORDER_RIDER_TTL_SECONDS])
  }

  function GetOrderRider(s: RegState, orderId: OrderId): Option<RiderId>
  {
    if orderId in s.orderRider then Some(s.orderRider[orderId]) else None
  }

  // ----- Rider entries -----

  /** SET of the location key stamped `now`, then EXPIRE. */
  function SetRiderLocation(s: RegState, riderId: RiderId, location: Location, now: Time): (r: RegState)
    ensures RegValid(s) ==> RegValid(r)
  {
    s.(locations := s.locations[riderId := location.(updatedAt := Some(now))],
       ttl := s.ttl[LocationKey(riderId) := LOCATION_TTL_SECONDS])
  }

  function GetRiderLocation(s: RegState, riderId: RiderId): Option<Location>
  {
    if riderId in s.locations then Some(s.locations[riderId]) else None
  }

  /** SADD of an online record stamped `now`, then the location write. */
  function AddOnlineRider(s: RegState, riderId: RiderId, location: Location, now: Time): (r: RegState)
    ensures RegValid(s) ==> RegValid(r)
  {
    var rec := OnlineRider(riderId, location, now);
    SetRiderLocation(s.(online := SAdd(s.online, rec)), riderId, location, now)
  }

  /** SREM of the first record whose rider id matches, if any; then DEL of the location,
      whether or not a record matched. */
  function RemoveOnlineRider(s: RegState, riderId: RiderId): (r: RegState)
    ensures RegValid(s) ==> RegValid(r)
  {
    var online := match FirstIndex(s.online, RiderIdOf, riderId)
      case None => s.online
      case Some(k) => SRem(s.online, s.online[k]);
    s.(online := online, locations := s.locations - {riderId}, ttl := s.ttl - {LocationKey(riderId)})
  }

  /** `riders.some(r => r.riderId === riderId)` */
  predicate IsRiderOnline(s: RegState, riderId: RiderId)
  {
    exists i :: 0 <= i < |s.online| && s.online[i].riderId == riderId
  }

  /** A plain SET, which also discards any time-to-live of the key; none is attached. */
  function SetRiderCurrentOrder(s: RegState, riderId: RiderId, orderId: OrderId): (r: RegState)
    ensures RegValid(s) ==> RegValid(r)
  {
    s.(currentOrder := s.currentOrder[riderId := orderId], ttl := s.ttl - {CurrentOrderKey(riderId)})
  }

  function GetRiderCurrentOrder(s: RegState, riderId: RiderId): Option<OrderId>
  {
    if riderId in s.currentOrder then Some(s.currentOrder[riderId]) else None
  }

  function ClearRiderCurrentOrder(s: RegState, riderId: RiderId): (r: RegState)
    ensures RegValid(s) ==> RegValid(r)
  {
    s.(currentOrder := s.currentOrder - {riderId})
  }

  /** The slot is checked with a strict `=== null`: an empty stored id still counts as
      an order held. Online membership is not consulted. */
  predicate IsRiderAvailable(s: RegState, riderId: RiderId)
  {
    GetRiderCurrentOrder(s, riderId) == None
  }

  /** The server drops a key whose time-to-live has run out; keys without one stay. */
  function Expire(s: RegState, k: RedisKey): (r: RegState)
    ensures RegValid(s) ==> RegValid(r)
  {
    if k !in s.ttl then s
    else
      var s' := s.(ttl := s.ttl - {k});
      match k
      case StatusKey(o) => s'.(statuses := s.statuses - {o})
      case AssignedRiderKey(o) => s'.(orderRider := s.orderRider - {o})
      case LocationKey(rid) => s'.(locations := s.locations - {rid})
      case _ => s'
  }

  // ----- Properties -----

  /** No record of an order is left out when adding; the new record is the only change
      to the set, and the live status becomes a bare `ready`. */
  lemma AddUnassignedOrderAdds(s: RegState, orderId: OrderId, restaurantId: RestaurantId,
                               loc: Location, now: Time)
    ensures var r := AddUnassignedOrder(s, orderId, restaurantId, loc, now);
      var rec := UnassignedOrder(orderId, restaurantId, loc, now);
      rec in r.unassigned && (r.unassigned == s.unassigned || r.unassigned == s.unassigned + [rec]) &&
      GetOrderStatus(r, orderId) == Some(StatusRecord(orderId, Ready, now, NoExtras)) &&
      r.ttl[StatusKey(orderId)] == STATUS_TTL_SECONDS &&
      r.online == s.online && r.currentOrder == s.currentOrder && r.orderRider == s.orderRider &&
      r.locations == s.locations
  {
  }

  /** At most one member goes: the first whose order id matches, and every other
      member stays in place; with no match nothing changes. */
  lemma RemoveUnassignedOrderRemovesFirst(s: RegState, orderId: OrderId)
    requires NoDuplicates(s.unassigned)
    ensures var r := RemoveUnassignedOrder(s, orderId);
      match FirstIndex(s.unassigned, OrderIdOf, orderId)
      case None => r == s
      case Some(k) => r == s.(unassigned := s.unassigned[..k] + s.unassigned[k + 1..])
  {
    match FirstIndex(s.unassigned, OrderIdOf, orderId)
    case None =>
    case Some(k) => SRemAt(s.unassigned, k);
  }

  /** A second record of the same order survives the removal. */
  lemma RemoveUnassignedOrderKeepsLaterRecords(s: RegState, orderId: OrderId, i: nat, j: nat)
    requires NoDuplicates(s.unassigned)
    requires i < j < |s.unassigned|
    requires s.unassigned[i].orderId == orderId && s.unassigned[j].orderId == orderId
    ensures s.unassigned[j] in RemoveUnassignedOrder(s, orderId).unassigned
  {
    RemoveUnassignedOrderRemovesFirst(s, orderId);
    var k := FirstIndex(s.unassigned, OrderIdOf, orderId).value;
    assert k <= i < j;
    assert s.unassigned[j] == s.unassigned[k + 1..][j - k - 1];
  }

  /** The rider's record goes in and `getRiderLocation` returns the given coordinates
      stamped with `now`. */
  lemma AddOnlineRiderStoresLocation(s: RegState, riderId: RiderId, loc: Location, now: Time)
    ensures var r := AddOnlineRider(s, riderId, loc, now);
      OnlineRider(riderId, loc, now) in r.online && IsRiderOnline(r, riderId) &&
      GetRiderLocation(r, riderId) == Some(loc.(updatedAt := Some(now))) &&
      r.ttl[LocationKey(riderId)] == LOCATION_TTL_SECONDS &&
      r.unassigned == s.unassigned && r.statuses == s.statuses && r.currentOrder == s.currentOrder
  {
    var r := AddOnlineRider(s, riderId, loc, now);
    var i :| 0 <= i < |r.online| && r.online[i] == OnlineRider(riderId, loc, now);
    assert r.online[i].riderId == riderId;
  }

  /** At most the first matching record goes, and the location is always deleted. */
  lemma RemoveOnlineRiderRemovesFirst(s: RegState, riderId: RiderId)
    requires NoDuplicates(s.online)
    ensures var r := RemoveOnlineRider(s, riderId);
      GetRiderLocation(r, riderId) == None && LocationKey(riderId) !in r.ttl &&
      r.unassigned == s.unassigned && r.statuses == s.statuses && r.currentOrder == s.currentOrder &&
      match FirstIndex(s.online, RiderIdOf, riderId)
      case None => r.online == s.online
      case Some(k) => r.online == s.online[..k] + s.online[k + 1..]
  {
    match FirstIndex(s.online, RiderIdOf, riderId)
    case None =>
    case Some(k) => SRemAt(s.online, k);
  }

  /** `isRiderOnline` agrees with a scan for the first record. */
  lemma IsRiderOnlineIsScan(s: RegState, riderId: RiderId)
    ensures IsRiderOnline(s, riderId) <==> FirstIndex(s.online, RiderIdOf, riderId).Some?
  {
    if IsRiderOnline(s, riderId) {
      var i :| 0 <= i < |s.online| && s.online[i].riderId == riderId;
    }
  }

  /** Availability depends on the current-order entry alone: a rider that is not
      online at all is available, and an online rider holding an order is not. */
  lemma AvailabilityIgnoresMembership(s: RegState, riderId: RiderId, orderId: OrderId)
    ensures IsRiderAvailable(s, riderId) <==> riderId !in s.currentOrder
    ensures IsRiderAvailable(s.(online := []), riderId) == IsRiderAvailable(s, riderId)
    ensures !IsRiderAvailable(SetRiderCurrentOrder(s, riderId, orderId), riderId)
    ensures !IsRiderAvailable(SetRiderCurrentOrder(s, riderId, ""), riderId)
  {
  }

  /** Every status write keeps only what it is given: the orderId, status and time of
      the call and its extras, never a field of the record it replaces. */
  lemma SetOrderStatusReplaces(s: RegState, orderId: OrderId, status: OrderStatus, extras: Extras, now: Time)
    ensures var r := SetOrderStatus(s, orderId, status, extras, now);
      GetOrderStatus(r, orderId) == Some(StatusRecord(orderId, status, now, extras)) &&
      r.ttl[StatusKey(orderId)] == STATUS_TTL_SECONDS &&
      (forall o :: o != orderId ==> GetOrderStatus(r, o) == GetOrderStatus(s, o)) &&
      r.unassigned == s.unassigned && r.online == s.online && r.currentOrder == s.currentOrder &&
      r.orderRider == s.orderRider && r.locations == s.locations
    ensures GetOrderStatus(SetOrderStatus(SetOrderStatus(s, orderId, Assigned, extras, now), orderId, status, NoExtras, now), orderId)
      == Some(StatusRecord(orderId, status, now, NoExtras))
  {
  }

  /** The current-order entry is a plain map entry: set then get returns the id, clear
      then get returns null, and the other riders' entries are untouched. */
  lemma CurrentOrderIsMapEntry(s: RegState, riderId: RiderId, orderId: OrderId, other: RiderId)
    requires other != riderId
    ensures GetRiderCurrentOrder(SetRiderCurrentOrder(s, riderId, orderId), riderId) == Some(orderId)
    ensures GetRiderCurrentOrder(ClearRiderCurrentOrder(s, riderId), riderId) == None
    ensures GetRiderCurrentOrder(SetRiderCurrentOrder(s, riderId, orderId), other) == GetRiderCurrentOrder(s, other)
    ensures GetRiderCurrentOrder(ClearRiderCurrentOrder(s, riderId), other) == GetRiderCurrentOrder(s, other)
    ensures CurrentOrderKey(riderId) !in SetRiderCurrentOrder(s, riderId, orderId).ttl <== RegValid(s)
  {
  }

  /** The order-rider entry lasts as long as the status entry. */
  lemma OrderRiderTtl(s: RegState, orderId: OrderId, riderId: RiderId)
    ensures var r := SetOrderRider(s, orderId, riderId);
      GetOrderRider(r, orderId) == Some(riderId) && r.ttl[AssignedRiderKey(orderId)] == ORDER_RIDER_TTL_SECONDS
    ensures ORDER_RIDER_TTL_SECONDS == STATUS_TTL_SECONDS == 24 * LOCATION_TTL_SECONDS
  {
  }

  /** Expiry acts only on keys that carry a time-to-live, so it never frees a rider's
      current-order slot and never touches the two sets. */
  lemma ExpiryNeverFreesSlot(s: RegState, k: RedisKey)
    requires RegValid(s)
    ensures var r := Expire(s, k);
      r.currentOrder == s.currentOrder && r.unassigned == s.unassigned && r.online == s.online
    ensures Expire(s, CurrentOrderKey(k.riderId)) == s <== k.CurrentOrderKey?
  {
  }

  /** Once the location entry has expired the rider has no location. */
  lemma LocationExpiry(s: RegState, riderId: RiderId)
    requires RegValid(s) && riderId in s.locations
    ensures GetRiderLocation(Expire(s, LocationKey(riderId)), riderId) == None
    ensures Expire(s, LocationKey(riderId)).currentOrder == s.currentOrder
  {
  }
}
