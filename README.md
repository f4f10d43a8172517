# eatnow dispatch core in Dafny

This project models the dispatch core of the eatnow food-delivery backend. Three stores are shared:

- the **availability registry**: a Redis instance holding the queue of ready orders, the list of online riders, live order statuses, order-to-rider and rider-to-order links, and rider locations with their time-to-live;
- the **durable store**: the `customers` (ids only), `orders`, `restaurants`, `riders`, `order_status_history` and `rider_location_history` tables, with their foreign keys and the riders' unique email;
- the **event log** of the seven Kafka topics.

On top of these stores sit:

- the matching service, which:
  - gives a ready order to the first listed online rider with no current order;
  - gives a rider who has become free the nearest waiting order;
  - requeues the order of a rider who leaves;
  - counts its inputs;
- the order and rider services;
- the seven event handlers and the table that routes each topic to its handler.

Also modelled:

- the topic names, key builders and status enumerations of the configuration;
- the three pure helpers of the unit tests: the line-item total, the UUID shape check and the status-transition table.

The model has two layers.

- **Values.** A pure layer describes each operation as a function on values:
  - `RegState` is the registry;
  - `DbState` is the store;
  - `World` holds a registry, a store and an emission log.
- **Classes.** The services are classes (`RedisClient`, `Database`, `EventProducer`, `MatchingService`, `OrderService`, `RiderService`, `EventHandlers`) whose fields are updated in place.
  - Each method follows the source step by step: the scans of the registry sets are loops, and the UPDATE statement is built column by column.
  - Each method is proved to end in the state the corresponding function computes.
  - The properties the services promise are proved as lemmas about those functions.

Modelling choices:

- **Registry sets** are sequences with no repeated member, listed in insertion order. Redis does not specify the order in which SMEMBERS lists a set; the model fixes it to insertion order, so "first listed" always means first in that fixed order. A member is a whole JSON record, so two records of one id that differ in a timestamp are two members.
- **Identifiers and clocks.** Generated identifiers (UUIDs) and clock readings are parameters. One `now` (milliseconds) stands for every clock reading inside one call.
- **Distance.** The great-circle distance is an arbitrary `DistanceFn`. Its result is either a number of kilometres or NaN.
- **Expiry.** Time-to-live expiry is an explicit `Expire` step on one key.

The main model keeps the code's behaviour as written, including the three dispatch defects listed under "## Findings". The corrected definitions in `findings.dfy` are alternatives proved beside it.

Source paths below are relative to the repository root.

## Model

| member | source | states |
|---|---|---|
| Config.OrderStatusHasNineValues | backend/src/config/index.ts:50-60 | the nine order statuses are all listed and their wire names are pairwise distinct |
| Config.StatusNameInjective | backend/src/config/index.ts:50-60 | two order statuses with the same wire name are the same status |
| Config.SevenDistinctTopics | backend/src/config/index.ts:29-37 | there are seven topics, every topic is listed, and no two topics share a name |
| Config.OrderStatusKeyExample | backend/tests/unit/config.test.ts:44-47 | the status key of `test-order-123` is `order:test-order-123:status` |
| Config.OrderRiderKeyExample | backend/tests/unit/config.test.ts:49-52 | the rider key of `test-order-456` is `order:test-order-456:rider` |
| Config.RiderLocationKeyExample | backend/tests/unit/config.test.ts:54-57 | the location key of `test-rider-789` is `rider:test-rider-789:location` |
| Config.RiderCurrentOrderKeyExample | backend/tests/unit/config.test.ts:59-62 | the current-order key of `test-rider-abc` is `rider:test-rider-abc:current_order` |
| Config.AffixInjective | backend/src/config/index.ts:40-47 | a key made of a fixed prefix, an id and a fixed suffix determines the id |
| Config.KeyBuildersInjective | backend/src/config/index.ts:40-47 | each of the four key builders gives different ids different keys |
| Config.KeyShapes | backend/src/config/index.ts:40-47 | order keys begin with `order:` and rider keys with `rider:`, and each ends in its own suffix |
| Config.KeyFamiliesDisjoint | backend/src/config/index.ts:40-47 | no key of one builder equals a key of another, and the two set keys differ from each other and from every built key |
| Config.KeyStringInjective | backend/src/config/index.ts:40-47 | distinct registry keys are distinct strings, so no two registry entries share a slot |
| Transitions.Stage | backend/tests/unit/utils.test.ts:112-122 | every status has a position in the lifecycle list, and the list holds that status at that position |
| Transitions.TableHasNineRows | backend/tests/unit/utils.test.ts:112-122 | the table has exactly one row per status name, nine rows, and every target it lists has a row of its own |
| Transitions.TableIsLifecycle | backend/tests/unit/utils.test.ts:124-126 | a move between two statuses is valid iff the origin is not terminal and the move is one stage ahead, to cancelled, or from assigned back to ready |
| Transitions.TerminalStatesHaveNoExit | backend/tests/unit/utils.test.ts:112-122 | from delivered and from cancelled no move to any string is valid |
| Transitions.ReassignmentIsLegal | backend/tests/unit/utils.test.ts:141-143 | assigned may go back to ready |
| Transitions.CancelFromEveryLiveStatus | backend/tests/unit/utils.test.ts:145-149 | every non-terminal status may be cancelled |
| Transitions.UnknownFromIsRejected | backend/tests/unit/utils.test.ts:124-126 | a from-string that names no status makes every move invalid |
| Transitions.TableExamples | backend/tests/unit/utils.test.ts:128-149 | the accepted and rejected moves of the unit tests |
| Transitions.IsValidTransitionAsWritten | backend/tests/unit/utils.test.ts:124-126 | on a from-string that is a row of the table, the lookup as written returns the table's answer |
| Transitions.PrototypeKeyThrows | backend/tests/unit/utils.test.ts:124-126 | as written, the from-strings `constructor` and `toString` raise an error instead of returning false |
| Transitions.OwnRowLookupIsTotal | backend/tests/unit/utils.test.ts:124-126 | whenever the lookup as written returns, it agrees with the own-row lookup, which rejects every from-string without a row |
| Validators.FoldIsSum | backend/tests/unit/utils.test.ts:63-65 | the reduce started at `acc` ends at `acc` plus the sum of price times quantity over the lines |
| Validators.TotalRecurrence | backend/tests/unit/utils.test.ts:63-65 | the total of no lines is 0, and otherwise it is the first line's amount plus the total of the rest |
| Validators.SumOfLinesAppend | backend/tests/unit/utils.test.ts:63-65 | the line sum of two concatenated lists is the sum of their line sums |
| Validators.TotalOfConcatenation | backend/tests/unit/utils.test.ts:63-65 | the total of two concatenated item lists is the sum of their totals |
| Validators.TotalExamples | backend/tests/unit/utils.test.ts:67-88 | the totals of the single-item, multi-item and high-quantity test orders, in cents |
| Validators.GroupStep | backend/tests/unit/utils.test.ts:92-95 | matching dash-separated hex groups is matching the first group, one dash, then the remaining groups |
| Validators.UUIDShapeIsPattern | backend/tests/unit/utils.test.ts:92-95 | the pattern accepts exactly the 36-character strings with dashes at 8, 13, 18 and 23 and a hex digit of either case elsewhere |
| Validators.UUIDAcceptsDigits | backend/tests/unit/utils.test.ts:97-101 | the all-digit UUID of the tests is accepted |
| Validators.UUIDAcceptsLetters | backend/tests/unit/utils.test.ts:97-101 | the UUID with hex letters of the tests is accepted |
| Validators.UUIDRejectsNonHex | backend/tests/unit/utils.test.ts:103-108 | a UUID-shaped string holding `r` is rejected |
| Validators.UUIDRejectsWrongLength | backend/tests/unit/utils.test.ts:103-108 | `invalid`, the short first group and the empty string are rejected |
| RegistryState.SAdd | backend/src/database/redis.ts:29-38 | after SADD the members are the old ones plus the new one; it is appended only if absent, and no member is repeated |
| RegistryState.SRem | backend/src/database/redis.ts:40-49 | after SREM the members are the old ones minus the removed one, and no member is repeated |
| RegistryState.SRemAbsent | backend/src/database/redis.ts:40-49 | removing a value that is not a member leaves the set unchanged |
| RegistryState.SRemAt | backend/src/database/redis.ts:40-49 | removing the i-th member of a set cuts exactly that position out and keeps the order of the rest |
| RegistryState.FirstIndex | backend/src/database/redis.ts:40-49 | the scan over the ready orders (and, at redis.ts:95-105, over the online riders) stops at the first member with the id; it finds nothing iff no member has it |
| RegistryState.EmptyRegistryValid | backend/src/database/redis.ts:5-25 | a fresh registry satisfies the registry invariant: no repeated set member, and exactly the status, order-rider and location entries carry a time-to-live |
| RegistryState.SetOrderStatus | backend/src/database/redis.ts:56-66 | writing a status snapshot keeps the registry invariant |
| RegistryState.AddUnassignedOrder | backend/src/database/redis.ts:29-38 | queueing an order keeps the registry invariant |
| RegistryState.RemoveUnassignedOrder | backend/src/database/redis.ts:40-49 | dequeueing an order keeps the registry invariant |
| RegistryState.SetOrderRider | backend/src/database/redis.ts:74-77 | linking an order to a rider keeps the registry invariant |
| RegistryState.SetRiderLocation | backend/src/database/redis.ts:117-125 | storing a location keeps the registry invariant |
| RegistryState.AddOnlineRider | backend/src/database/redis.ts:85-93 | listing a rider keeps the registry invariant |
| RegistryState.RemoveOnlineRider | backend/src/database/redis.ts:95-105 | unlisting a rider keeps the registry invariant |
| RegistryState.SetRiderCurrentOrder | backend/src/database/redis.ts:133-135 | filling a rider's slot keeps the registry invariant |
| RegistryState.ClearRiderCurrentOrder | backend/src/database/redis.ts:141-143 | clearing a rider's slot keeps the registry invariant |
| RegistryState.Expire | backend/src/database/redis.ts:123-124 | the server dropping an expired key keeps the registry invariant |
| RegistryState.AddUnassignedOrderAdds | backend/src/database/redis.ts:29-38 | the new record is queued, and is the only change to the queue; the live status becomes a bare `ready` with a 24-hour TTL; riders, slots, links and locations are untouched |
| RegistryState.RemoveUnassignedOrderRemovesFirst | backend/src/database/redis.ts:40-49 | only the first record of the order leaves the queue, and if none names it nothing changes |
| RegistryState.RemoveUnassignedOrderKeepsLaterRecords | backend/src/database/redis.ts:40-49 | a second record of the same order stays queued |
| RegistryState.AddOnlineRiderStoresLocation | backend/src/database/redis.ts:85-93 | the rider's record is listed, the rider counts as online, and the location is stored stamped with `now` and a one-hour TTL; queue, statuses and slots are untouched |
| RegistryState.RemoveOnlineRiderRemovesFirst | backend/src/database/redis.ts:95-105 | only the first record of the rider is unlisted, and its location and TTL are deleted; queue, statuses and slots are untouched |
| RegistryState.IsRiderOnlineIsScan | backend/src/database/redis.ts:112-115 | a rider is online iff a scan of the list finds a record of it |
| RegistryState.AvailabilityIgnoresMembership | backend/src/database/redis.ts:145-148 | a rider is available iff its slot is empty, whether or not it is listed; a filled slot, even with an empty id, makes it unavailable |
| RegistryState.SetOrderStatusReplaces | backend/src/database/redis.ts:56-66 | the new snapshot replaces the old one whole, so that no earlier field survives, and gets a 24-hour TTL; other orders' snapshots and every other entry are untouched |
| RegistryState.CurrentOrderIsMapEntry | backend/src/database/redis.ts:133-143 | setting a slot makes it read back the order; clearing it reads back nothing; other riders' slots are untouched; the slot has no TTL |
| RegistryState.OrderRiderTtl | backend/src/database/redis.ts:74-77 | the order-rider link reads back the rider with a 24-hour TTL; status and link TTLs are 24 times the location TTL |
| RegistryState.ExpiryNeverFreesSlot | backend/src/database/redis.ts:133-135 | expiry never changes a slot, the queue or the online list, and a slot key never expires |
| RegistryState.LocationExpiry | backend/src/database/redis.ts:123-124 | once a stored location's key expires, the location reads back as absent and the slots are unchanged |
| Registry.RedisClient.constructor | backend/src/database/redis.ts:5-25 | a new client holds the empty registry, which is valid |
| Registry.RedisClient.AddUnassignedOrder | backend/src/database/redis.ts:29-38 | SADD of the record, then the `ready` status write: the registry becomes `AddUnassignedOrder` of the old one |
| Registry.RedisClient.RemoveUnassignedOrder | backend/src/database/redis.ts:40-49 | the loop over a snapshot that removes the first match and stops ends in `RemoveUnassignedOrder` of the old registry |
| Registry.RedisClient.GetUnassignedOrders | backend/src/database/redis.ts:51-54 | the queued records in listing order |
| Registry.RedisClient.SetOrderStatus | backend/src/database/redis.ts:56-66 | SET of the snapshot and its TTL: the registry becomes `SetOrderStatus` of the old one |
| Registry.RedisClient.GetOrderStatus | backend/src/database/redis.ts:68-72 | the stored snapshot, or none |
| Registry.RedisClient.SetOrderRider | backend/src/database/redis.ts:74-77 | SET of the link with its TTL: the registry becomes `SetOrderRider` of the old one |
| Registry.RedisClient.GetOrderRider | backend/src/database/redis.ts:79-81 | the linked rider, or none |
| Registry.RedisClient.AddOnlineRider | backend/src/database/redis.ts:85-93 | SADD of the record, then the location write: the registry becomes `AddOnlineRider` of the old one |
| Registry.RedisClient.RemoveOnlineRider | backend/src/database/redis.ts:95-105 | the scan that removes the first match, then DEL of the location, ends in `RemoveOnlineRider` of the old registry |
| Registry.RedisClient.GetOnlineRiders | backend/src/database/redis.ts:107-110 | the listed rider records in listing order |
| Registry.RedisClient.IsRiderOnline | backend/src/database/redis.ts:112-115 | whether some listed record names the rider |
| Registry.RedisClient.SetRiderLocation | backend/src/database/redis.ts:117-125 | SET of the stamped location and its one-hour TTL: the registry becomes `SetRiderLocation` of the old one |
| Registry.RedisClient.GetRiderLocation | backend/src/database/redis.ts:127-131 | the stored location, or none |
| Registry.RedisClient.SetRiderCurrentOrder | backend/src/database/redis.ts:133-135 | the registry becomes `SetRiderCurrentOrder` of the old one |
| Registry.RedisClient.GetRiderCurrentOrder | backend/src/database/redis.ts:137-139 | the rider's current order, or none |
| Registry.RedisClient.ClearRiderCurrentOrder | backend/src/database/redis.ts:141-143 | the registry becomes `ClearRiderCurrentOrder` of the old one |
| Registry.RedisClient.IsRiderAvailable | backend/src/database/redis.ts:145-148 | whether the rider's slot is empty |
| Registry.RedisClient.Expire | backend/src/database/redis.ts:123-124 | the registry becomes `Expire` of the old one for that key |
| Store.Database.constructor | backend/src/database/migrate.ts:45-83 | a new store holds the given customers and restaurants and no orders, riders, history or location samples |
| Store.Database.SelectOrder | backend/src/services/order.service.ts:67-74 | the order row with that id, or none |
| Store.Database.SelectRestaurant | backend/src/services/order.service.ts:109-114 | the restaurant row with that id, or none |
| Store.Database.SelectRider | backend/src/services/rider.service.ts:38-44 | the rider row with that id, or none |
| Store.Database.UpdateOrders | backend/src/services/order.service.ts:162-166 | executing an UPDATE applies its SET clauses to the row its WHERE parameter names and refreshes `updated_at` by the trigger; writing an unknown rider into a stored row is refused with nothing changed (the key of migrate.ts:49) |
| Store.Database.InsertStatusHistory | backend/src/database/migrate.ts:67-73 | one history row with the order, status and metadata is appended when the order is stored; otherwise the insert is refused with nothing changed |
| Store.Database.UpdateRiderStatus | backend/src/services/rider.service.ts:107-110 | the rider's status and `updated_at` change and nothing else does |
| Store.Database.InsertLocationSample | backend/src/database/migrate.ts:76-82 | one location sample is appended when the rider is stored; otherwise the insert is refused with nothing changed |
| Store.Database.InsertOrder | backend/src/database/migrate.ts:45-64 | the row is stored under its id and returned when its customer and restaurant are stored; otherwise the insert is refused with nothing changed |
| Store.Database.InsertRider | backend/src/database/migrate.ts:33-42 | the row is stored under its id and returned when no stored rider has its email; otherwise the insert is refused with nothing changed |
| StoreState.ExecuteOrderUpdateFrame | backend/src/services/order.service.ts:162-166 | an order UPDATE is refused exactly when its row exists and a `rider_id` clause names an unknown rider; it changes only the `orders` table, keeps its set of ids, and leaves every row other than the one its WHERE parameter names unchanged |
| Producer.EventProducer.constructor | backend/src/kafka/producer.ts:13 | nothing has been emitted yet |
| Producer.EventProducer.Emit | backend/src/kafka/producer.ts:15-42 | exactly one emission is appended to the log |
| Producer.EmissionRouting | backend/src/kafka/producer.ts:13-43 | every event goes to its own topic, keyed by the order id for order events and by the rider id for rider events |
| MatchingSpec.FirstAvailable | backend/src/services/matching.service.ts:34-43 | the index of the first listed rider whose slot is empty, with every rider before it busy; none iff every listed rider is busy |
| MatchingSpec.Assign | backend/src/services/matching.service.ts:103-136 | an assignment keeps the registry invariant |
| MatchingSpec.MatchOrder | backend/src/services/matching.service.ts:22-47 | matching an order keeps the registry invariant |
| MatchingSpec.RestaurantDistances | backend/src/services/matching.service.ts:79-86 | one distance per queued record, each from the rider's location to that record's restaurant |
| MatchingSpec.ArgMin | backend/src/services/matching.service.ts:76-92 | the strict `<` scan from Infinity picks the first smallest numeric distance; it picks nothing iff every distance is NaN |
| MatchingSpec.MatchRider | backend/src/services/matching.service.ts:50-100 | matching a rider keeps the registry invariant |
| MatchingSpec.Reassign | backend/src/services/matching.service.ts:139-186 | reassigning keeps the registry invariant |
| MatchingSpec.CountAvailable | backend/src/services/matching.service.ts:223-227 | the count is at most the number of listed riders, and zero iff every listed rider is busy |
| MatchingSpec.MatchingStats | backend/src/services/matching.service.ts:215-234 | the queued and online counts are the sizes of the two sets |
| MatchingSpec.AssignDequeues | backend/src/services/matching.service.ts:106-107 | the queue loses exactly one record if one names the order, and no record of another order is lost |
| MatchingSpec.AssignWrites | backend/src/services/matching.service.ts:109-133 | after an assignment the order links to the rider, the rider's slot holds the order, and the status is `assigned` with the rider; the online list and the store are untouched; one `order.assigned` is emitted with the stored restaurant (or `unknown`) and a pickup 15 minutes on |
| MatchingSpec.AssignKeepsSlots | backend/src/services/matching.service.ts:103-136 | assigning to a free rider changes no filled slot |
| MatchingSpec.MatchOrderPicksFirstAvailable | backend/src/services/matching.service.ts:22-47 | with no riders nothing happens; an order is matched iff some listed rider is free, and it then goes to the first free one; otherwise nothing changes |
| MatchingSpec.MatchRiderEarlyExits | backend/src/services/matching.service.ts:53-73 | a busy rider, an empty queue or a rider without a stored location gives no match and no change |
| MatchingSpec.MatchRiderPicksNearest | backend/src/services/matching.service.ts:75-97 | a match is made only for a free rider with a location, and it assigns the first queued order at minimal numeric distance; without a match nothing changes |
| MatchingSpec.MatchRiderAllNaN | backend/src/services/matching.service.ts:88-99 | when every distance is NaN no order is picked and nothing changes |
| MatchingSpec.MatchOrderKeepsSlots | backend/src/services/matching.service.ts:22-47 | matching an order changes no filled slot |
| MatchingSpec.MatchRiderKeepsSlots | backend/src/services/matching.service.ts:50-100 | matching a rider changes no filled slot, and only a rider with an empty slot is matched |
| MatchingSpec.ReassignSteps | backend/src/services/matching.service.ts:139-186 | the old rider's slot is cleared; a missing order or restaurant stops there; otherwise the order is requeued at the restaurant's location with a `ready` status marked reassigned from the old rider, and then matched |
| MatchingSpec.StatsBounds | backend/src/services/matching.service.ts:215-234 | the stats count the queue and the list, the available riders are at most the online ones, and the count is zero iff no listed rider is free |
| Matching.MatchingService.constructor | backend/src/services/matching.service.ts:20 | the service works over the given registry, store, producer and distance |
| Matching.MatchingService.TryMatchOrder | backend/src/services/matching.service.ts:22-47 | the loop over the listed riders ends in the world and answer of `MatchOrder` |
| Matching.MatchingService.TryMatchRider | backend/src/services/matching.service.ts:50-100 | the nearest-order loop ends in the world and answer of `MatchRider` |
| Matching.MatchingService.AssignOrderToRider | backend/src/services/matching.service.ts:103-136 | the four registry writes, the restaurant lookup and the emission end in `Assign` of the old world |
| Matching.MatchingService.ReassignOrder | backend/src/services/matching.service.ts:139-186 | the steps end in the world and answer of `Reassign` |
| Matching.MatchingService.GetMatchingStats | backend/src/services/matching.service.ts:215-234 | the counting loop returns `MatchingStats` of the registry and changes nothing |
| OrdersSpec.UpdateOrderStatusEffects | backend/src/services/order.service.ts:137-168 | the write is refused, with nothing written, exactly when the order is not stored (its history insert breaks the key of migrate.ts:69) or a given rider is not stored. Otherwise one history row is appended and only the named order row changes. That row takes the new status and `updated_at = now`. It takes the rider only when one is given. The timestamp column of the status is set, and no other timestamp column changes |
| OrdersSpec.UpdateOrderStatusIgnoresTable | backend/src/services/order.service.ts:137-168 | the write on a stored order succeeds with any status, even a move the transition table rejects, such as delivered to created |
| OrdersSpec.LiveStatusSources | backend/src/services/order.service.ts:76-101 | the live status is absent iff neither the registry nor the store knows the order; the registry's snapshot wins; otherwise it is built from the stored row |
| OrdersSpec.LiveStatusEnrichment | backend/src/services/order.service.ts:92-98 | a snapshot with a rider whose location is stored gets that location and is otherwise returned unchanged |
| OrdersSpec.FallbackNeverEnriched | backend/src/services/order.service.ts:80-90 | a status built from the stored row carries no rider and no location |
| OrdersSpec.CreateOrderEffects | backend/src/services/order.service.ts:15-64 | creation fails with nothing changed exactly when the customer or restaurant is not stored (migrate.ts:47-48); otherwise the new row has status `created` and the total of its lines; it is stored; the live status is `created`; one history row and one `order.created` with that total are recorded |
| OrdersSpec.MarkOrderReadyOutcomes | backend/src/services/order.service.ts:104-134 | an unknown order gives null and no change; a missing restaurant raises `Restaurant not found` with no change; otherwise the status write cannot fail, a `ready` row is returned, one history row is added and one `order.ready` emitted; the registry is never touched |
| OrdersSpec.MarkOrderDeliveredRider | backend/src/services/order.service.ts:208-222 | an unknown order ends with the status write's error, no event and no change; otherwise a `delivered` row is returned (never null), the store takes the write, and one `order.delivered` names the linked rider, or `unknown` when none (or an empty id) is linked |
| OrdersSpec.MarkOrderMovedEffects | backend/src/services/order.service.ts:194-205 | an unknown order ends with the status write's error before the live status is written; otherwise the live status becomes a bare snapshot of the new status, one history row is added and the row with the new status is returned (never null); nothing is emitted |
| Orders.BuildStatusUpdate | backend/src/services/order.service.ts:137-165 | the query numbers its parameters consecutively with the id last. Status comes first. `rider_id` appears iff a rider is given, and each timestamp column iff its status is written. Its `rider_id` clause names an unknown rider iff the given rider is unknown. Applied to any row, it has the effect `StatusColumns` describes |
| Orders.SetsMeanStatusColumns | backend/src/services/order.service.ts:138-164 | SET clauses laid out as the builder lays them out have the effect `StatusColumns` describes on every row |
| Orders.OrderService.constructor | backend/src/services/order.service.ts:12 | the service works over the given registry, store and producer |
| Orders.OrderService.CreateOrder | backend/src/services/order.service.ts:15-64 | the insert, the status write, the emission and the history row end in `CreateOrder` of the old world, including its error |
| Orders.OrderService.GetOrderById | backend/src/services/order.service.ts:67-74 | the stored row, or none |
| Orders.OrderService.GetOrderStatus | backend/src/services/order.service.ts:76-101 | returns the live status of the order and changes nothing |
| Orders.OrderService.MarkOrderReady | backend/src/services/order.service.ts:104-134 | the world and result are those of `MarkOrderReady`, including the thrown error |
| Orders.OrderService.UpdateOrderStatus | backend/src/services/order.service.ts:137-168 | the built UPDATE and the history insert end in `UpdateOrderStatus` of the old store, with its error, and a refused statement changes nothing |
| Orders.OrderService.RecordStatusChange | backend/src/services/order.service.ts:171-177 | one history row with metadata `{}` is appended, or the insert's error is returned with nothing changed |
| Orders.OrderService.MarkOrderPickedUp | backend/src/services/order.service.ts:194-198 | the world and result are those of `MarkOrderMoved` with `picked_up` |
| Orders.OrderService.MarkOrderInTransit | backend/src/services/order.service.ts:201-205 | the world and result are those of `MarkOrderMoved` with `in_transit` |
| Orders.OrderService.MarkOrderDelivered | backend/src/services/order.service.ts:208-222 | the world and result are those of `MarkOrderDelivered` |
| RidersSpec.CreateRiderStartsOffline | backend/src/services/rider.service.ts:10-35 | creation fails with nothing changed exactly when a stored rider has the email (migrate.ts:37); otherwise the rider is stored `offline` under its id with the given fields, and nothing else in the store changes |
| RidersSpec.GoOnlineEmitsOnce | backend/src/services/rider.service.ts:59-71 | an unknown rider gives null and no event; a known one gets its row back and exactly one `rider.online` with the given location; registry and store are untouched |
| RidersSpec.GoOfflineEmitsOnce | backend/src/services/rider.service.ts:74-85 | an unknown rider gives null and no event; a known one gets its row back and exactly one `rider.offline`; registry and store are untouched |
| RidersSpec.LocationEventCarriesOrder | backend/src/services/rider.service.ts:88-104 | the location event carries an order iff the rider's slot holds a non-empty id, and then carries that id, with the given coordinates stamped `now` |
| RidersSpec.RiderAvailableIff | backend/src/services/rider.service.ts:132-137 | the service's check holds iff some listed record names the rider and its slot is empty, so it implies the registry's check |
| RidersSpec.OfflineRiderDiffers | backend/src/services/rider.service.ts:132-137 | an unlisted rider with an empty slot passes the registry's check but not the service's |
| RidersSpec.UpdateRiderRowEffects | backend/src/services/rider.service.ts:107-110 | the status write changes only that rider's status and `updated_at` |
| Riders.RiderService.constructor | backend/src/services/rider.service.ts:8 | the service works over the given registry, store and producer |
| Riders.RiderService.CreateRider | backend/src/services/rider.service.ts:10-35 | store and result are those of `CreateRider`, including its error |
| Riders.RiderService.GetRiderById | backend/src/services/rider.service.ts:38-44 | the stored row, or none |
| Riders.RiderService.GoOnline | backend/src/services/rider.service.ts:59-71 | world and result are those of `GoOnline` |
| Riders.RiderService.GoOffline | backend/src/services/rider.service.ts:74-85 | world and result are those of `GoOffline` |
| Riders.RiderService.UpdateLocation | backend/src/services/rider.service.ts:88-104 | the world is that of `UpdateLocation`: one location event, nothing stored |
| Riders.RiderService.UpdateRiderStatus | backend/src/services/rider.service.ts:107-110 | the store is `UpdateRiderRow` of the old one |
| Riders.RiderService.SaveLocationHistory | backend/src/services/rider.service.ts:113-119 | one location sample is appended, or, for a rider the store does not hold, the insert's error is returned with nothing changed |
| Riders.RiderService.IsRiderAvailable | backend/src/services/rider.service.ts:132-137 | true iff the rider is listed online and its slot is empty, with nothing changed |
| HandlersSpec.HandlerTableIsBijection | backend/src/kafka/handlers.ts:158-170 | topics and handlers correspond one to one, and every event is routed to the handler of its own topic |
| HandlersSpec.EmptyMessageIsDropped | backend/src/kafka/handlers.ts:19-20 | every handler leaves the world unchanged on an empty message |
| HandlersSpec.OrderReadyQueuesThenMatches | backend/src/kafka/handlers.ts:30-46 | the order is queued with a bare `ready` status and then matched as `MatchOrder` matches it; with no free rider it stays queued |
| HandlersSpec.FirstAvailableDependsOnSlots | backend/src/services/matching.service.ts:34-43 | two registries with the same slots pick the same first free rider |
| HandlersSpec.OrderAssignedEffects | backend/src/kafka/handlers.ts:49-64 | the live status is `assigned` with the rider and pickup time; an order stored with a stored (or empty) rider becomes `assigned`, stamped `now`, with the rider unless that id is empty; otherwise the store is unchanged; nothing is emitted and no slot changes |
| HandlersSpec.OrderDeliveredFreesRider | backend/src/kafka/handlers.ts:67-87 | the rider's slot is cleared and the live status is `delivered` with the delivery time; the rider is then matched again only if the order is stored, since otherwise the store write throws first; with an empty queue the rider stays free |
| HandlersSpec.RiderOnlineEffects | backend/src/kafka/handlers.ts:90-105 | the rider is listed with its location, a stored rider becomes `online`, and then the rider is matched |
| HandlersSpec.RiderLocationEffects | backend/src/kafka/handlers.ts:108-131 | the location is stored, and it is sampled iff the store holds the rider; the carried order's snapshot is replaced by one with the rider and location, keeping its status; no other snapshot, slot or queue changes |
| HandlersSpec.RiderOfflineEffects | backend/src/kafka/handlers.ts:134-155 | a rider holding an order has it reassigned first; the rider is then unlisted with its location deleted and stored `offline`; a rider without an order is only unlisted |
| HandlersSpec.ReassignKeepsRider | backend/src/services/matching.service.ts:139-186 | reassigning never changes the store |
| HandlersSpec.HandlersKeepRegistryValid | backend/src/kafka/handlers.ts:17-155 | every handler run on a message of its topic keeps the registry invariant |
| Handlers.CreateHandlersMap | backend/src/kafka/handlers.ts:158-170 | the map has seven entries, and every topic's name maps to that topic's handler |
| Handlers.EventHandlers.constructor | backend/src/kafka/handlers.ts:1-15 | the three services share the handlers' registry, store and producer |
| Handlers.EventHandlers.HandleOrderCreated | backend/src/kafka/handlers.ts:18-27 | the world becomes `OnOrderCreated` of the old one |
| Handlers.EventHandlers.HandleOrderReady | backend/src/kafka/handlers.ts:30-46 | the world becomes `OnOrderReady` of the old one |
| Handlers.EventHandlers.HandleOrderAssigned | backend/src/kafka/handlers.ts:49-64 | the world becomes `OnOrderAssigned` of the old one |
| Handlers.EventHandlers.HandleOrderDelivered | backend/src/kafka/handlers.ts:67-87 | the world becomes `OnOrderDelivered` of the old one; a refused store write ends the handler before matching |
| Handlers.EventHandlers.HandleRiderOnline | backend/src/kafka/handlers.ts:90-105 | the world becomes `OnRiderOnline` of the old one |
| Handlers.EventHandlers.HandleRiderLocation | backend/src/kafka/handlers.ts:108-131 | the world becomes `OnRiderLocation` of the old one |
| Handlers.EventHandlers.HandleRiderOffline | backend/src/kafka/handlers.ts:134-155 | the world becomes `OnRiderOffline` of the old one |
| Findings.DropAll | backend/src/database/redis.ts:95-105 | keeps exactly the members whose id differs, repeats none, and leaves none with the id (used for riders here and for orders at redis.ts:40-49) |
| Findings.RiderOnlineTwiceStaysOnline | backend/src/database/redis.ts:95-105 | a rider listed by two records still counts as online after removal, although its location is gone |
| Findings.RemoveOnlineRiderAll | backend/src/database/redis.ts:95-105 | corrected removal: the rider is no longer online, its location is gone, every other rider's record stays, and the invariant holds |
| Findings.OfflineRiderGetsOrderBack | backend/src/kafka/handlers.ts:134-155 | a rider listed first that goes offline while holding an order gets that same order reassigned to it, and it ends with no location |
| Findings.OnRiderOfflineCorrected | backend/src/kafka/handlers.ts:134-155 | the corrected offline handler keeps the registry invariant |
| Findings.MatchOrderSparesUnlisted | backend/src/services/matching.service.ts:22-47 | matching an order never touches the slot of an unlisted rider and never changes the list |
| Findings.CorrectedOfflineReleasesRider | backend/src/kafka/handlers.ts:134-155 | with the corrected order of steps the departing rider ends unlisted, holding no order, with no location, and stored `offline` |
| Findings.AssignLocationsKept | backend/src/services/matching.service.ts:103-136 | matching never changes stored locations |
| Findings.OrderQueuedTwiceGoesToTwoRiders | backend/src/services/matching.service.ts:103-107 | with two queued records of one order, assigning it to one rider and then matching a second rider gives the same order to both |
| Findings.AssignCorrected | backend/src/services/matching.service.ts:103-107 | corrected assignment dequeues every record of the order, keeps all others, and keeps the invariant |
| Findings.CorrectedAssignIsFinal | backend/src/services/matching.service.ts:75-97 | after a corrected assignment, matching another rider can only hand out a different order |

## Left out

- The great-circle (haversine) formula: distance is an arbitrary parameter whose result is kilometres or NaN, because floating-point trigonometry is out of reach of the verifier.
- Prices are integer cents. The floating-point `price * quantity` sum, and any rounding it could show, are not modelled.
- JSON serialisation and parsing of registry members, snapshots and messages. A handler receives its topic's payload or none; malformed JSON is not modelled.
- `parseFloat` of stored coordinates, the row mappers `mapToOrder` and `mapToRider`, and ISO timestamp strings. Times are integer milliseconds.
- The Kafka transport and the consumer's dispatch loop, which looks up the handler and swallows its errors (`backend/src/kafka/client.ts`). Only the handler table is modelled.
- Redis connection handling, the health check and the client getters of `backend/src/database/redis.ts:150-170`.
- Time-to-live expiry happens through an explicit `Expire` step, not on a clock.
- The environment configuration of `backend/src/config/index.ts:5-26`. It holds connection settings only.
- The HTTP routes, server bootstrap, migrations runner and seed data.
- `getOrdersByCustomer`, `getOrdersByStatus`, `getAllRiders` and `getLocationHistory`: these are read-only listings that take no part in dispatch.
- The pass-through wrappers `getOnlineRiders`, `getRiderLocation` and `getRiderCurrentOrder` of the rider service: each returns the registry read of the same name.
- UUID and clock generation. Each operation takes its new id and its `now` as parameters, and one `now` stands for every clock reading inside one call.
- MatchingSpec.FirstAvailable, MatchingSpec.MatchOrderPicksFirstAvailable, MatchingSpec.ArgMin and RegistryState.AddUnassignedOrderAdds: SMEMBERS order is unspecified in Redis, and the model fixes it to insertion order. Which idle rider gets a ready order, and which of two equally near orders a rider gets, are therefore proved for that one order only, not for every order Redis may list in.
- Concurrency: operations run one at a time, so interleavings of asynchronous steps and of two consumers are not modelled.
- SQL text: the one dynamic UPDATE is a structured `UpdateQuery`. Of the schema's constraints only the foreign keys and the riders' unique email are modelled. The customers' unique email, the column types and the NOT NULL rules are not.
- Identifiers are opaque strings. PostgreSQL refuses a malformed UUID in any statement with a type error; the model treats such an id like any unknown id.
- Orders.OrderService.CreateOrder: requires a fresh order id. This stands for `uuidv4()` never colliding.
- Riders.RiderService.CreateRider: requires a fresh rider id, for the same reason.
- Riders.RiderService.GoOnline: passes the caller's location through unchanged. The route's shaping of the request body is not modelled.
- Riders.RiderService.UpdateLocation: the location it emits carries no `updatedAt`. That stamp is only added when the registry stores a location.
- The unit tests' distance cases (`backend/tests/unit/utils.test.ts:6-53`) are left out with the haversine formula. The UUID test string `d1d1d1d1-…` is covered by `Validators.UUIDShapeIsPattern` and has no lemma of its own.

## Findings

| source | as written | input that shows it | evidently intended | confidence | as-written member | corrected member |
|---|---|---|---|---|---|---|
| backend/src/kafka/handlers.ts:134-155 | the offline handler reassigns the rider's order while the rider is still listed online with an empty slot, and only then unlists it | a `rider.offline` for the first listed rider, which holds an order of a stored restaurant | the departing rider is taken off the list before its order is matched again, so a different rider (or none) gets the order | not executed | Findings.OfflineRiderGetsOrderBack | Findings.OnRiderOfflineCorrected |
| backend/src/database/redis.ts:95-105 | `removeOnlineRider` removes only the first record that names the rider | two `rider.online` events for one rider at different times list it twice; one `rider.offline` leaves it listed | every record of the rider leaves the online list | not executed | Findings.RiderOnlineTwiceStaysOnline | Findings.RemoveOnlineRiderAll |
| backend/src/services/matching.service.ts:103-107 | an assignment removes only the first queued record of the order | an order marked ready twice at different times is queued twice, and a second free rider with a location is then matched to it | assigning an order takes every record of it off the queue | not executed | Findings.OrderQueuedTwiceGoesToTwoRiders | Findings.AssignCorrected |
| backend/tests/unit/utils.test.ts:124-126 | `validTransitions[from]?.includes(to)` reads inherited properties of the object | `isValidTransition('constructor', 'ready')` calls `includes` on a function and raises a TypeError | a from-string that is not a row of the table is rejected | not executed | Transitions.PrototypeKeyThrows | Transitions.OwnRowLookupIsTotal |
