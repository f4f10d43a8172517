/** The records exchanged between the registry, the durable store and the event
    transport: locations, status snapshots, set members and event payloads. */
module Types {
  import opened Config

  type OrderId = string
  type RiderId = string
  type RestaurantId = string
  type CustomerId = string

  /** Milliseconds since the epoch, as `Date.now()` counts them. */
  type Time = int

  datatype Option<T> = None | Some(value: T)

  datatype Result<T> = Ok(value: T) | Err(message: string)

  /** JavaScript truthiness of a `string | null | undefined`: absent and empty are falsy. */
  predicate Truthy(s: Option<string>)
  {
    s.Some? && s.value != ""
  }

  /** A coordinate pair with its timestamp; `updatedAt` is present on locations read back
      from the registry, which stamps every stored location. */
  datatype Location = Location(latitude: real, longitude: real, timestamp: Time, updatedAt: Option<Time>)

  /** A line item; prices are integer cents. */
  datatype Item = Item(id: string, name: string, quantity: int, price: int)

  datatype Address = Address(street: string, city: string, state: string, zipCode: string,
                             latitude: real, longitude: real)

  /** The optional fields that callers merge into a live status snapshot. */
  datatype Extras = Extras(
    riderId: Option<RiderId>,
    estimatedPickupTime: Option<Time>,
    deliveredAt: Option<Time>,
    reassigned: Option<bool>,
    previousRiderId: Option<RiderId>,
    riderLocation: Option<Location>)

  const NoExtras: Extras := Extras(None, None, None, None, None, None)

  /** The live status snapshot of one order. */
  datatype StatusRecord = StatusRecord(orderId: OrderId, status: OrderStatus, updatedAt: Time, extras: Extras)

  /** A member of the set of ready orders that wait for a rider. */
  datatype UnassignedOrder = UnassignedOrder(orderId: OrderId, restaurantId: RestaurantId,
                                             restaurantLocation: Location, addedAt: Time)

  /** A member of the set of online riders. */
  datatype OnlineRider = OnlineRider(riderId: RiderId, location: Location, onlineSince: Time)

  /** The payloads of the seven topics. */
  datatype Event =
    | OrderCreated(orderId: OrderId, customerId: CustomerId, restaurantId: RestaurantId,
                   items: seq<Item>, totalAmount: int, deliveryAddress: Address, timestamp: Time)
    | OrderReady(orderId: OrderId, restaurantId: RestaurantId, restaurantLocation: Location, timestamp: Time)
    | OrderAssigned(orderId: OrderId, riderId: RiderId, restaurantId: RestaurantId,
                    estimatedPickupTime: Time, timestamp: Time)
    | OrderDelivered(orderId: OrderId, riderId: RiderId, deliveredAt: Time, timestamp: Time)
    | RiderOnline(riderId: RiderId, location: Location, timestamp: Time)
    | RiderLocation(riderId: RiderId, location: Location, currentOrderId: Option<OrderId>, timestamp: Time)
    | RiderOffline(riderId: RiderId, timestamp: Time)

  function EventTopic(e: Event): Topic
  {
    match e
    case OrderCreated(_, _, _, _, _, _, _) => OrderCreatedTopic
    case OrderReady(_, _, _, _) => OrderReadyTopic
    case OrderAssigned(_, _, _, _, _) => OrderAssignedTopic
    case OrderDelivered(_, _, _, _) => OrderDeliveredTopic
    case RiderOnline(_, _, _) => RiderOnlineTopic
    case RiderLocation(_, _, _, _) => RiderLocationTopic
    case RiderOffline(_, _) => RiderOfflineTopic
  }

  /** The partition key: the order id for order events, the rider id for rider events. */
  function EventKey(e: Event): string
  {
    if e.OrderCreated? || e.OrderReady? || e.OrderAssigned? || e.OrderDelivered? then e.orderId
    else e.riderId
  }

  /** One message handed to the transport. */
  datatype Emission = Emission(topic: Topic, key: string, event: Event)

  function EmissionOf(e: Event): Emission
  {
    Emission(EventTopic(e), EventKey(e), e)
  }
}
