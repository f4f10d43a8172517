/** Constants of the dispatch backend: the order and rider status enumerations,
    the event topic names and the builders of the registry's key strings. */
module Config {

  datatype OrderStatus =
    | Created | Confirmed | Preparing | Ready | Assigned
    | PickedUp | InTransit | Delivered | Cancelled

  /** The string value of each OrderStatus member. */
  function StatusName(s: OrderStatus): string
  {
    match s
    case Created => "created"
    case Confirmed => "confirmed"
    case Preparing => "preparing"
    case Ready => "ready"
    case Assigned => "assigned"
    case PickedUp => "picked_up"
    case InTransit => "in_transit"
    case Delivered => "delivered"
    case Cancelled => "cancelled"
  }

  /** The members of OrderStatus in declaration (lifecycle) order. */
  const AllOrderStatuses: seq<OrderStatus> :=
    [Created, Confirmed, Preparing, Ready, Assigned, PickedUp, InTransit, Delivered, Cancelled]

  lemma OrderStatusHasNineValues()
    ensures |AllOrderStatuses| == 9
    ensures forall s: OrderStatus :: s in AllOrderStatuses
    ensures forall i, j :: 0 <= i < j < |AllOrderStatuses| ==>
      StatusName(AllOrderStatuses[i]) != StatusName(AllOrderStatuses[j])
  {
    forall s: OrderStatus
      ensures s in AllOrderStatuses
    {
      match s
      case Created => case Confirmed => case Preparing => case Ready => case Assigned =>
      case PickedUp => case InTransit => case Delivered => case Cancelled =>
    }
  }

  lemma StatusNameInjective(a: OrderStatus, b: OrderStatus)
    ensures StatusName(a) == StatusName(b) ==> a == b
  {
  }

  datatype RiderStatus = Offline | Online | Busy

  function RiderStatusName(s: RiderStatus): string
  {
    match s
    case Offline => "offline"
    case Online => "online"
    case Busy => "busy"
  }

  datatype Topic =
    | OrderCreatedTopic | OrderReadyTopic | OrderAssignedTopic | OrderDeliveredTopic
    | RiderOnlineTopic | RiderLocationTopic | RiderOfflineTopic

  /** The topic strings of the event transport. */
  function TopicName(t: Topic): string
  {
    match t
    case OrderCreatedTopic => "order.created"
    case OrderReadyTopic => "order.ready"
    case OrderAssignedTopic => "order.assigned"
    case OrderDeliveredTopic => "order.delivered"
    case RiderOnlineTopic => "rider.online"
    case RiderLocationTopic => "rider.location"
    case RiderOfflineTopic => "rider.offline"
  }

  const AllTopics: seq<Topic> :=
    [OrderCreatedTopic, OrderReadyTopic, OrderAssignedTopic, OrderDeliveredTopic,
     RiderOnlineTopic, RiderLocationTopic, RiderOfflineTopic]

  lemma SevenDistinctTopics()
    ensures |AllTopics| == 7
    ensures forall t: Topic :: t in AllTopics
    ensures forall t, u: Topic :: TopicName(t) == TopicName(u) ==> t == u
  {
    forall t: Topic
      ensures t in AllTopics
    {
      match t
      case OrderCreatedTopic => case OrderReadyTopic => case OrderAssignedTopic =>
      case OrderDeliveredTopic => case RiderOnlineTopic => case RiderLocationTopic =>
      case RiderOfflineTopic =>
    }
  }

  // ----- Registry keys -----

  const ORDERS_UNASSIGNED: string := "orders:unassigned"
  const RIDERS_ONLINE: string := "riders:online"

  function OrderStatusKey(orderId: string): string { "order:" + orderId + ":status" }
  function OrderRiderKey(orderId: string): string { "order:" + orderId + ":rider" }
  function RiderLocationKey(riderId: string): string { "rider:" + riderId + ":location" }
  function RiderCurrentOrderKey(riderId: string): string { "rider:" + riderId + ":current_order" }

  /** The keys of the registry, one constructor per key family. */
  datatype RedisKey =
    | UnassignedOrdersKey
    | OnlineRidersKey
    | StatusKey(orderId: string)
    | AssignedRiderKey(orderId: string)
    | LocationKey(riderId: string)
    | CurrentOrderKey(riderId: string)

  function KeyString(k: RedisKey): string
  {
    match k
    case UnassignedOrdersKey => ORDERS_UNASSIGNED
    case OnlineRidersKey => RIDERS_ONLINE
    case StatusKey(o) => OrderStatusKey(o)
    case AssignedRiderKey(o) => OrderRiderKey(o)
    case LocationKey(r) => RiderLocationKey(r)
    case CurrentOrderKey(r) => RiderCurrentOrderKey(r)
  }

  lemma OrderStatusKeyExample()
    ensures OrderStatusKey("test-order-123") == "order:test-order-123:status"
  {
  }

  lemma OrderRiderKeyExample()
    ensures OrderRiderKey("test-order-456") == "order:test-order-456:rider"
  {
  }

  lemma RiderLocationKeyExample()
    ensures RiderLocationKey("test-rider-789") == "rider:test-rider-789:location"
  {
  }

  lemma RiderCurrentOrderKeyExample()
    ensures RiderCurrentOrderKey("test-rider-abc") == "rider:test-rider-abc:current_order"
  {
  }

  /** A fixed prefix and suffix around an id determine the id. */
  lemma {:induction false} AffixInjective(p: string, a: string, b: string, q: string)
    requires p + a + q == p + b + q
    ensures a == b
  {
    var s, t := p + a + q, p + b + q;
    assert |a| == |b|;
    forall i | 0 <= i < |a|
      ensures a[i] == b[i]
    {
      assert s[|p| + i] == a[i];
      assert t[|p| + i] == b[i];
    }
  }

  lemma KeyBuildersInjective(a: string, b: string)
    ensures OrderStatusKey(a) == OrderStatusKey(b) ==> a == b
    ensures OrderRiderKey(a) == OrderRiderKey(b) ==> a == b
    ensures RiderLocationKey(a) == RiderLocationKey(b) ==> a == b
    ensures RiderCurrentOrderKey(a) == RiderCurrentOrderKey(b) ==> a == b
  {
    if OrderStatusKey(a) == OrderStatusKey(b) { AffixInjective("order:", a, b, ":status"); }
    if OrderRiderKey(a) == OrderRiderKey(b) { AffixInjective("order:", a, b, ":rider"); }
    if RiderLocationKey(a) == RiderLocationKey(b) { AffixInjective("rider:", a, b, ":location"); }
    if RiderCurrentOrderKey(a) == RiderCurrentOrderKey(b) { AffixInjective("rider:", a, b, ":current_order"); }
  }

  /** The last character and the first six characters of every key built for an id. */
  lemma KeyShapes(id: string)
    ensures var k := OrderStatusKey(id); k[..6] == "order:" && k[|k| - 1] == 's'
    ensures var k := OrderRiderKey(id); k[..6] == "order:" && k[|k| - 1] == 'r'
    ensures var k := RiderLocationKey(id); k[..6] == "rider:" && k[|k| - 1] == 'n'
    ensures var k := RiderCurrentOrderKey(id); k[..6] == "rider:" && k[|k| - 1] == 'r'
  {
    var k1, k2, k3, k4 := OrderStatusKey(id), OrderRiderKey(id), RiderLocationKey(id), RiderCurrentOrderKey(id);
    assert k1[..6] == ("order:" + id + ":status")[..6] == "order:";
    assert k2[..6] == ("order:" + id + ":rider")[..6] == "order:";
    assert k3[..6] == ("rider:" + id + ":location")[..6] == "rider:";
    assert k4[..6] == ("rider:" + id + ":current_order")[..6] == "rider:";
  }

  /** Keys of different families never collide, whatever the ids. */
  lemma KeyFamiliesDisjoint(a: string, b: string)
    ensures OrderStatusKey(a) != OrderRiderKey(b)
    ensures OrderStatusKey(a) != RiderLocationKey(b)
    ensures OrderStatusKey(a) != RiderCurrentOrderKey(b)
    ensures OrderRiderKey(a) != RiderLocationKey(b)
    ensures OrderRiderKey(a) != RiderCurrentOrderKey(b)
    ensures RiderLocationKey(a) != RiderCurrentOrderKey(b)
    ensures ORDERS_UNASSIGNED != RIDERS_ONLINE
    ensures ORDERS_UNASSIGNED !in {OrderStatusKey(a), OrderRiderKey(a), RiderLocationKey(a), RiderCurrentOrderKey(a)}
    ensures RIDERS_ONLINE !in {OrderStatusKey(a), OrderRiderKey(a), RiderLocationKey(a), RiderCurrentOrderKey(a)}
  {
    KeyShapes(a);
    KeyShapes(b);
    assert ORDERS_UNASSIGNED[..6] == "orders";
    assert RIDERS_ONLINE[..6] == "riders";
  }

  /** The id a key is built from; the two static keys carry none. */
  function KeyId(k: RedisKey): string
  {
    match k
    case UnassignedOrdersKey => ""
    case OnlineRidersKey => ""
    case StatusKey(o) => o
    case AssignedRiderKey(o) => o
    case LocationKey(r) => r
    case CurrentOrderKey(r) => r
  }

  /** Every registry key names exactly one entry. */
  lemma KeyStringInjective(k1: RedisKey, k2: RedisKey)
    ensures KeyString(k1) == KeyString(k2) ==> k1 == k2
  {
    KeyBuildersInjective(KeyId(k1), KeyId(k2));
    KeyFamiliesDisjoint(KeyId(k1), KeyId(k2));
    KeyFamiliesDisjoint(KeyId(k2), KeyId(k1));
  }
}
