# Drone delivery core, modelled in Dafny

This project models the core of a Spring back end for store-to-customer drone
delivery. Customers order from stores; orders become delivery requests; a
periodic batch groups the pending requests by store and gives each group an
idle drone and a route. The route is ordered by a greedy nearest-neighbour
heuristic and runs PICKUP at the store, one DROP per request, then RETURN.
A flight simulator then flies the route sample by sample, reports battery
and position, and completes the route. Around this sit the store queries
(nearby stores, search, categories, products, delivery information), the
entity state machines and a few response mappers.

The model keeps the program's own shape:

- Entities the program updates in place are classes: `Store`,
  `StoreProduct`, `Drone`, `Order`, `DeliveryRequest`, `Route` and
  `RouteStop`, plus the link and log records. Their setters are methods
  with `modifies` clauses. Value records (`Customer`, `Product`, `User`) are
  datatypes.
- Loops that change state are methods with invariants, each proved against
  a specification function. These are the nearest-neighbour loop, the batch
  loop, the stop builder, the order line loops and the flight loops.
- Stream pipelines and queries are functions with lemmas: the store filters
  and sorts, the repository's `toMap`, and the response mappers.
- Repositories are maps or sequences passed in. The clock is a `now`
  parameter. Great-circle distance is an uninterpreted metric `dist` whose
  values lie between 0 and half the Earth's circumference.

Files, in dependency order: `wrappers.dfy` (Option, Result), `numerics.dfy`
(ceil, truncation, Java `int` wrap), `geo.dfy` (GeoUtils), `records.dfy`,
`errors.dfy`, `store.dfy`, `drone.dfy`, `order.dfy`, `delivery_request.dfy`,
`route.dfy`, `route_optimizer.dfy`, `delivery_batch.dfy`,
`drone_simulator.dfy`, `order_service.dfy`, `store_service.dfy`,
`route_stop_order_repository.dfy`, `route_responses.dfy`,
`order_item_response.dfy`.

## Model

| member | source | states |
|---|---|---|
| Geo.Interpolate | src/main/java/backend/databaseproject/global/util/GeoUtils.java:60-63 | Fraction 0 gives the start point, fraction 1 the end point, and equal endpoints give that point for every fraction. |
| Geo.InterpolateStaysBetween | src/main/java/backend/databaseproject/global/util/GeoUtils.java:57-63 | For a fraction in [0, 1] each coordinate of the result lies between the two endpoints' coordinates. |
| Geo.IsWithinRadius | src/main/java/backend/databaseproject/global/util/GeoUtils.java:43-48 | Inside the radius means the distance from centre to target is at most the radius; so a negative radius covers nothing and a radius of half the Earth's circumference covers everything. |
| Numerics.Ceil | src/main/java/backend/databaseproject/domain/route/service/DroneSimulatorService.java:157 | `Math.ceil`: the least integer not below x. |
| Numerics.TruncateToInt | src/main/java/backend/databaseproject/domain/route/service/DroneSimulatorService.java:273 | The `(int)` cast of a double truncates toward zero. |
| Numerics.WrapInt32 | src/main/java/backend/databaseproject/domain/order/service/OrderService.java:105 | Java `int` arithmetic: the result is a 32-bit value congruent to the exact one modulo 2^32, and equal to it when it fits. |
| Records.StampIfUnset | src/main/java/backend/databaseproject/domain/order/entity/Order.java:84-89 | The `@PrePersist` rule: an unset timestamp becomes `now`, a set one is kept. |
| StoreEntities.Store.constructor | src/main/java/backend/databaseproject/domain/store/entity/Store.java:62-72 | Name, type, phone, address and location are copied; a missing radius becomes 2.00 km and a given one is kept; a missing active flag becomes true and a given one is kept. |
| StoreEntities.Store.OnCreate | src/main/java/backend/databaseproject/domain/store/entity/Store.java:54-59 | `registeredAt` is set to `now` only when it is unset. |
| StoreEntities.StoreProduct.constructor | src/main/java/backend/databaseproject/domain/store/entity/StoreProduct.java:45-53 | Store, product and price are copied; a missing stock becomes 0, a missing per-order maximum 10, a missing active flag true; given values are kept. |
| StoreEntities.StoreProduct.DecreaseStock | src/main/java/backend/databaseproject/domain/store/entity/StoreProduct.java:58-60 | Stock drops by the quantity, with no lower bound, so it may go negative; as a Java `Integer` it wraps around below -2^31 and is exact whenever the difference fits in an `int`. |
| DroneEntity.Drone.constructor | src/main/java/backend/databaseproject/domain/drone/entity/Drone.java:55-61 | Store, model, battery capacity and payload are copied; a missing status becomes IDLE and a given one is kept. |
| DroneEntity.Drone.ChangeStatus | src/main/java/backend/databaseproject/domain/drone/entity/Drone.java:66-68 | Only the status changes, to the given one. |
| DroneEntity.Drone.OnCreate | src/main/java/backend/databaseproject/domain/drone/entity/Drone.java:47-52 | `registeredAt` is set only when unset; the status is kept. |
| OrderEntity.OrderItem.constructor | src/main/java/backend/databaseproject/domain/order/entity/OrderItem.java:44-51 | Every field is copied from the arguments. |
| OrderEntity.Order.constructor | src/main/java/backend/databaseproject/domain/order/entity/Order.java:92-108 | A new order copies its fields, is CREATED, has no timestamps, no failure reason and no items. |
| OrderEntity.Order.OnCreate | src/main/java/backend/databaseproject/domain/order/entity/Order.java:84-89 | `createdAt` is set only when it is unset. |
| OrderEntity.Order.AddOrderItem | src/main/java/backend/databaseproject/domain/order/entity/Order.java:113-116 | The item is appended at the end and points back to this order. |
| OrderEntity.Order.AssignDelivery | src/main/java/backend/databaseproject/domain/order/entity/Order.java:121-124 | From any status: ASSIGNED with `assignedAt` set; nothing else changes. |
| OrderEntity.Order.CompleteDelivery | src/main/java/backend/databaseproject/domain/order/entity/Order.java:129-132 | From any status: FULFILLED with `completedAt` set. |
| OrderEntity.Order.Cancel | src/main/java/backend/databaseproject/domain/order/entity/Order.java:137-140 | From any status: CANCELED with `canceledAt` set. |
| OrderEntity.Order.Fail | src/main/java/backend/databaseproject/domain/order/entity/Order.java:145-148 | From any status: FAILED with the reason stored; no timestamp changes. |
| DeliveryRequestEntity.RequestItem.constructor | src/main/java/backend/databaseproject/domain/order/entity/RequestItem.java:44-51 | Every field is copied from the arguments. |
| DeliveryRequestEntity.DeliveryRequest.constructor | src/main/java/backend/databaseproject/domain/order/entity/DeliveryRequest.java:86-102 | A new request copies its fields, is CREATED, has no timestamps and no items. |
| DeliveryRequestEntity.DeliveryRequest.OnCreate | src/main/java/backend/databaseproject/domain/order/entity/DeliveryRequest.java:78-83 | `createdAt` is set only when it is unset. |
| DeliveryRequestEntity.DeliveryRequest.AddRequestItem | src/main/java/backend/databaseproject/domain/order/entity/DeliveryRequest.java:107-110 | The item is appended at the end and points back to this request. |
| DeliveryRequestEntity.DeliveryRequest.AssignDelivery | src/main/java/backend/databaseproject/domain/order/entity/DeliveryRequest.java:115-118 | From any status: ASSIGNED with `assignedAt` set. |
| DeliveryRequestEntity.DeliveryRequest.CompleteDelivery | src/main/java/backend/databaseproject/domain/order/entity/DeliveryRequest.java:123-126 | From any status: FULFILLED with `completedAt` set. |
| DeliveryRequestEntity.DeliveryRequest.Cancel | src/main/java/backend/databaseproject/domain/order/entity/DeliveryRequest.java:131-133 | From any status: CANCELED; no timestamp changes. |
| RouteEntities.RouteStopOrder.constructor | src/main/java/backend/databaseproject/domain/route/entity/RouteStopOrder.java:45-48 | The link records its stop and its order. |
| RouteEntities.RoutePosition.constructor | src/main/java/backend/databaseproject/domain/route/entity/RoutePosition.java:56-65 | Every field is copied from the arguments. |
| RouteEntities.FlightLog.constructor | src/main/java/backend/databaseproject/domain/route/entity/FlightLog.java:74-89 | Every builder argument, including duration, maximum altitude and average speed, is copied to its field. |
| RouteEntities.RouteStop.constructor | src/main/java/backend/databaseproject/domain/route/entity/RouteStop.java:84-102 | A new stop copies its fields, is PENDING, has no actual times and no order links. |
| RouteEntities.RouteStop.ChangeStatus | src/main/java/backend/databaseproject/domain/route/entity/RouteStop.java:114-116 | Any status may be set, with no guard. |
| RouteEntities.RouteStop.Arrive | src/main/java/backend/databaseproject/domain/route/entity/RouteStop.java:121-124 | ARRIVED with the actual arrival time set. |
| RouteEntities.RouteStop.Depart | src/main/java/backend/databaseproject/domain/route/entity/RouteStop.java:129-132 | DEPARTED with the actual departure time set. |
| RouteEntities.RouteStop.Skip | src/main/java/backend/databaseproject/domain/route/entity/RouteStop.java:137-139 | SKIPPED; no time changes. |
| RouteEntities.RouteStop.AddRouteStopOrder | src/main/java/backend/databaseproject/domain/route/entity/RouteStop.java:144-147 | The link is appended at the end and points back to this stop. |
| RouteEntities.Route.constructor | src/main/java/backend/databaseproject/domain/route/entity/Route.java:83-92 | A new route copies its fields, is PLANNED, has no timestamps and empty stop, position and log lists. |
| RouteEntities.Route.OnCreate | src/main/java/backend/databaseproject/domain/route/entity/Route.java:75-80 | `createdAt` is set only when it is unset. |
| RouteEntities.Route.ChangeStatus | src/main/java/backend/databaseproject/domain/route/entity/Route.java:97-99 | Any status may be set, with no guard. |
| RouteEntities.Route.Launch | src/main/java/backend/databaseproject/domain/route/entity/Route.java:104-107 | LAUNCHED with `launchedAt` set. |
| RouteEntities.Route.Complete | src/main/java/backend/databaseproject/domain/route/entity/Route.java:112-115 | COMPLETED with `completedAt` set. |
| RouteEntities.Route.Abort | src/main/java/backend/databaseproject/domain/route/entity/Route.java:120-122 | ABORTED; both timestamps untouched. |
| RouteEntities.Route.AddRouteStop | src/main/java/backend/databaseproject/domain/route/entity/Route.java:127-130 | The stop is appended and points back to the route; the other lists are unchanged. |
| RouteEntities.Route.AddRoutePosition | src/main/java/backend/databaseproject/domain/route/entity/Route.java:135-138 | The position is appended and points back to the route; the other lists are unchanged. |
| RouteEntities.Route.AddFlightLog | src/main/java/backend/databaseproject/domain/route/entity/Route.java:143-146 | The log is appended and points back to the route; the other lists are unchanged. |
| RouteOptimizer.OptimizeRoute | src/main/java/backend/databaseproject/domain/route/service/RouteOptimizerService.java:32-92 | Empty input gives an empty route and one element is returned as is. Otherwise the route holds every input element exactly once, and each leg goes to the closest destination not yet visited, starting from the store. |
| RouteOptimizer.FindNearest | src/main/java/backend/databaseproject/domain/route/service/RouteOptimizerService.java:58-70 | The strict-`<` scan returns an unvisited element no farther from the current position than any other unvisited one. |
| RouteOptimizer.GreedyExtend | src/main/java/backend/databaseproject/domain/route/service/RouteOptimizerService.java:72-79 | Appending the nearest unvisited element, and moving the current position to it, keeps the route greedy. |
| RouteOptimizer.OptimizedIsPermutation | src/main/java/backend/databaseproject/domain/route/service/RouteOptimizerService.java:45-84 | For an input without repeats the optimised route is a permutation of it. |
| RouteOptimizer.GreedyRouteUnique | src/main/java/backend/databaseproject/domain/route/service/RouteOptimizerService.java:53-84 | When no two elements are equally far from the start or from any element's destination, any two greedy orders of the same elements are equal, so the set's iteration order does not matter. |
| RouteOptimizer.GreedyStepAgrees | src/main/java/backend/databaseproject/domain/route/service/RouteOptimizerService.java:58-70 | Two greedy routes that agree up to a leg also agree at that leg when there are no ties. |
| RouteOptimizer.NoTiesSatisfiable | src/main/java/backend/databaseproject/domain/route/service/RouteOptimizerService.java:53-84 | The no-ties condition of `GreedyRouteUnique` holds for a concrete start, metric and pair of destinations, so that lemma is not vacuous. |
| RouteOptimizer.CalculateTotalDistance | src/main/java/backend/databaseproject/domain/route/service/RouteOptimizerService.java:97-128 | An empty route measures 0; otherwise the result is the closed tour store → d1 → … → dn → store. |
| RouteOptimizer.PathKmBounds | src/main/java/backend/databaseproject/domain/route/service/RouteOptimizerService.java:97-128 | A path over n stops is non-negative and at most n legs of half the Earth's circumference. |
| RouteOptimizer.RoundTripKmBounds | src/main/java/backend/databaseproject/domain/route/service/RouteOptimizerService.java:97-128 | The closed tour is non-negative and at most n + 1 maximal legs. |
| RouteOptimizer.PathKmAppend | src/main/java/backend/databaseproject/domain/route/service/RouteOptimizerService.java:107-117 | Adding a stop adds exactly the leg from the previous end point to it. |
| DeliveryBatch.GroupOf | src/main/java/backend/databaseproject/domain/route/service/DeliveryBatchService.java:70-71 | A store's group holds exactly the pending requests of that store, without repeats when the input has none. |
| DeliveryBatch.GroupOfInOrder | src/main/java/backend/databaseproject/domain/route/service/DeliveryBatchService.java:70-71 | A store's group is a subsequence of the pending requests: it keeps their fetch order. |
| DeliveryBatch.TotalWeightConcat | src/main/java/backend/databaseproject/domain/route/service/DeliveryBatchService.java:148-150 | The weight of two request lists together is the sum of their weights. |
| DeliveryBatch.TotalWeightPermutation | src/main/java/backend/databaseproject/domain/route/service/DeliveryBatchService.java:148-150 | Reordering the requests, as the optimiser does, leaves the route weight unchanged. |
| DeliveryBatch.EstimatedDurationBounds | src/main/java/backend/databaseproject/domain/route/service/DeliveryBatchService.java:153-157 | The estimate is the flight minutes rounded up plus 2 minutes for each of the n + 2 stops. |
| DeliveryBatch.StopLocation | src/main/java/backend/databaseproject/domain/route/service/DeliveryBatchService.java:178-204 | In a built stop list, stop k sits where the drone is before leg k: the store first, then each destination in turn. |
| DeliveryBatch.LegSumPrefix | src/main/java/backend/databaseproject/domain/route/service/DeliveryBatchService.java:187-205 | The legs recorded on the first m + 1 stops add up to the path over the first m destinations. |
| DeliveryBatch.StopLegsSumToRoundTrip | src/main/java/backend/databaseproject/domain/route/service/DeliveryBatchService.java:172-262 | The legs recorded on the stops add up to the route's total distance store → … → store. |
| DeliveryBatch.CalculateBatchDistance | src/main/java/backend/databaseproject/domain/route/service/DeliveryBatchService.java:238-262 | The total distance is the closed tour store → each destination in order → store. |
| DeliveryBatch.CreateRoute | src/main/java/backend/databaseproject/domain/route/service/DeliveryBatchService.java:143-167 | A fresh PLANNED route with the given drone and store, the round-trip distance, the summed weight, the duration estimate and the batch note. |
| DeliveryBatch.CreateRouteStops | src/main/java/backend/databaseproject/domain/route/service/DeliveryBatchService.java:172-233 | n + 2 stops numbered 1..n+2: PICKUP at the store with leg 0, a DROP at each destination in order with the leg from the previous stop, and RETURN to the store. Each DROP is linked to its own request. |
| DeliveryBatch.AssignRequests | src/main/java/backend/databaseproject/domain/route/service/DeliveryBatchService.java:116-118 | Every request of the route becomes ASSIGNED at `now`. |
| DeliveryBatch.FindIdleDrone | src/main/java/backend/databaseproject/domain/route/service/DeliveryBatchService.java:84-90 | An idle drone of the whole fleet is returned when one exists; no drone is returned only when none is idle. |
| DeliveryBatch.BuildDispatch | src/main/java/backend/databaseproject/domain/route/service/DeliveryBatchService.java:96-113 | The group is ordered by the optimiser and gets a fresh PLANNED route for the given drone, with n + 2 fresh PENDING stops numbered on from the first stop id. With distinct requests, the route weight is the group's weight and there is one DROP per request. |
| DeliveryBatch.DispatchGroup | src/main/java/backend/databaseproject/domain/route/service/DeliveryBatchService.java:96-126 | The group's requests become ASSIGNED and the drone IN_FLIGHT; other requests and drones are unchanged. |
| DeliveryBatch.PlanGroup | src/main/java/backend/databaseproject/domain/route/service/DeliveryBatchService.java:96-113 | The route built for a store's group covers exactly that store's pending requests and extends the run of dispatches without reusing a store or a drone. |
| DeliveryBatch.AssignGroup | src/main/java/backend/databaseproject/domain/route/service/DeliveryBatchService.java:115-119 | Exactly the requests of the dispatched store become ASSIGNED at the batch time; every other pending request keeps its status and assignment time. |
| DeliveryBatch.ProcessBatch | src/main/java/backend/databaseproject/domain/route/service/DeliveryBatchService.java:54-138 | No pending requests gives no routes. Each store gets at most one route, and each route a different drone that was idle. A request is ASSIGNED exactly when its store got a route, and a drone is IN_FLIGHT exactly when it was sent. A request still CREATED at the end means no drone is idle. |
| DeliveryBatch.ProcessStoreGroup | src/main/java/backend/databaseproject/domain/route/service/DeliveryBatchService.java:77-130 | One loop iteration: the group is skipped when no drone is idle, and is dispatched otherwise. |
| DeliveryBatch.ValidDispatchesAll | src/main/java/backend/databaseproject/domain/route/service/DeliveryBatchService.java:77-130 | Every dispatch of a batch is built for its own store's group and takes consecutive route ids; no two dispatches share a store or a drone. |
| DeliveryBatch.ValidDispatchesExtend | src/main/java/backend/databaseproject/domain/route/service/DeliveryBatchService.java:77-130 | A dispatch for a new store with an unused drone extends a valid batch. |
| DroneSimulator.Steps | src/main/java/backend/databaseproject/domain/route/service/DroneSimulatorService.java:156-157 | `max(1, ceil(seconds / 2))`: at least one step, and just enough two-second ticks to fly the leg. |
| DroneSimulator.DrainPositive | src/main/java/backend/databaseproject/domain/route/service/DroneSimulatorService.java:118-119 | A positive capacity drains a positive percentage per kilometre. |
| DroneSimulator.BatteryInRange | src/main/java/backend/databaseproject/domain/route/service/DroneSimulatorService.java:172 | The clamped battery figure lies in [0, 100]. |
| DroneSimulator.BatteryNonIncreasing | src/main/java/backend/databaseproject/domain/route/service/DroneSimulatorService.java:172 | Flying further never raises the battery figure. |
| DroneSimulator.BatteryUsed | src/main/java/backend/databaseproject/domain/route/service/DroneSimulatorService.java:273 | The logged battery use lies in [0, 100] and is at most 5 % per kilometre. |
| DroneSimulator.LegStart | src/main/java/backend/databaseproject/domain/route/service/DroneSimulatorService.java:108-143 | Leg 0 starts at the first stop's coordinates, whether or not it is a PICKUP; leg i > 0 starts at stop i − 1. |
| DroneSimulator.TravelledMonotone | src/main/java/backend/databaseproject/domain/route/service/DroneSimulatorService.java:153 | The cumulative distance never decreases from leg to leg. |
| DroneSimulator.RecipientsExactly | src/main/java/backend/databaseproject/domain/route/service/DroneSimulatorService.java:206-229 | An order hears about a sample of leg i exactly when it is linked to a DROP stop at index ≥ i that is neither ARRIVED nor DEPARTED. |
| DroneSimulator.MoveAt | src/main/java/backend/databaseproject/domain/route/service/DroneSimulatorService.java:163-242 | Sample `step` of a leg is the interpolated position at `step / steps`, followed by a wait unless it is the last. |
| DroneSimulator.SampleLeg | src/main/java/backend/databaseproject/domain/route/service/DroneSimulatorService.java:163-243 | The sample loop records the leg's samples, with a wait between each two. |
| DroneSimulator.FlyLeg | src/main/java/backend/databaseproject/domain/route/service/DroneSimulatorService.java:127-247 | One leg records its samples and then the arrival at its stop, and adds the leg's length to the distance flown. |
| DroneSimulator.FlyLegs | src/main/java/backend/databaseproject/domain/route/service/DroneSimulatorService.java:127-247 | The stop loop records the whole flight trace and the total distance flown. |
| DroneSimulator.SimulateFlight | src/main/java/backend/databaseproject/domain/route/service/DroneSimulatorService.java:60-302 | Without stops nothing changes. Otherwise the route is LAUNCHED before the first sample and COMPLETED after the last arrival, and the drone ends IDLE. One fresh SUCCESS log records the distance flown and `(int) min(100, total * 5)`. |
| DroneSimulator.MovesShape | src/main/java/backend/databaseproject/domain/route/service/DroneSimulatorService.java:163-169 | A leg has 2·steps + 1 moves: samples at even indices with fraction k/steps, waits at odd ones. |
| DroneSimulator.MovesEnds | src/main/java/backend/databaseproject/domain/route/service/DroneSimulatorService.java:163-169 | The first sample is at fraction 0 at the leg's start, the last at fraction exactly 1 at its end, and every fraction lies in [0, 1]. |
| DroneSimulator.LegShape | src/main/java/backend/databaseproject/domain/route/service/DroneSimulatorService.java:163-246 | A leg records 2·steps + 2 events: its moves and then its arrival, last. |
| DroneSimulator.FractionsIncrease | src/main/java/backend/databaseproject/domain/route/service/DroneSimulatorService.java:164 | Later samples of a leg have strictly larger fractions. |
| DroneSimulator.SamplesStayOnLeg | src/main/java/backend/databaseproject/domain/route/service/DroneSimulatorService.java:163-169 | Every sample lies inside the box spanned by the leg's two ends. |
| DroneSimulator.FlightWaitsBetweenSamples | src/main/java/backend/databaseproject/domain/route/service/DroneSimulatorService.java:240-242 | A wait always lies between two samples: never first, never last, never before an arrival. |
| DroneSimulator.ArrivalsInStopOrder | src/main/java/backend/databaseproject/domain/route/service/DroneSimulatorService.java:127-246 | The arrivals in the trace are exactly the stops' ids, once each, in list order. |
| DroneSimulator.FlightBatteryTagged | src/main/java/backend/databaseproject/domain/route/service/DroneSimulatorService.java:153-172 | Every sample reports the battery level of its own leg, and the samples come leg by leg. |
| DroneSimulator.BatteryLevelsNonIncreasing | src/main/java/backend/databaseproject/domain/route/service/DroneSimulatorService.java:153-172 | Later legs report no more battery than earlier ones, and every level lies in [0, 100]. |
| DroneSimulator.BatteryNeverRises | src/main/java/backend/databaseproject/domain/route/service/DroneSimulatorService.java:153-172 | Along the whole trace the battery figure never rises and stays within [0, 100]. |
| DroneSimulator.FlightTraceShape | src/main/java/backend/databaseproject/domain/route/service/DroneSimulatorService.java:96-247 | The trace starts with the launch, ends with the arrival at the last stop, arrives at the stops in order, and waits only between samples. |
| DroneSimulator.LaunchedFirst | src/main/java/backend/databaseproject/domain/route/service/DroneSimulatorService.java:96-127 | The launch comes before every other event. |
| OrderService.CreateOrder | src/main/java/backend/databaseproject/domain/order/service/OrderService.java:59-157 | A rejected order reports the first failing check and leaves all stock unchanged. An accepted order is a CREATED request from the store's to the customer's location. It carries the `int` sum of price × quantity, the summed weight and the line count. It has one item per line in line order, priced at the store price and weighted by the product. Each product's stock drops by its total quantity, wrapped to a Java `int`. |
| OrderService.CheckItems | src/main/java/backend/databaseproject/domain/order/service/OrderService.java:79-111 | The line loop reports the first failing line's code in list order; when all pass it returns the wrapped amount and the weight sums. |
| OrderService.CheckLine | src/main/java/backend/databaseproject/domain/order/service/OrderService.java:85-102 | A line fails, in this order, for an unlisted product, an inactive one, stock below the quantity, or a quantity above the per-order maximum. |
| OrderService.AddItems | src/main/java/backend/databaseproject/domain/order/service/OrderService.java:132-153 | One request item per line, in order, with the store price and the product weight; each product's stock drops by the lines' total quantity for it, wrapped to a Java `int`. |
| OrderService.TakeStock | src/main/java/backend/databaseproject/domain/order/service/OrderService.java:140-152 | Each product's stock ends at its level before, less the total quantity the lines take from it, wrapped to a Java `int`; an entry no line names is unchanged. |
| OrderService.TakeLine | src/main/java/backend/databaseproject/domain/order/service/OrderService.java:151 | Only the line's own stock entry changes, dropping by the line quantity wrapped to a Java `int`; the tracked levels of every other entry still match. |
| OrderService.AddLine | src/main/java/backend/databaseproject/domain/order/service/OrderService.java:140-152 | One new item is appended after the existing ones, linked to the request, with the store price and product weight; the items before it are unchanged. |
| OrderService.AmountStep | src/main/java/backend/databaseproject/domain/order/service/OrderService.java:105 | Adding one line's wrapped `price * quantity` to the wrapped partial sum gives the wrapped sum with that line. |
| Numerics.WrapAdd | src/main/java/backend/databaseproject/domain/order/service/OrderService.java:105 | Java `int` addition of wrapped operands equals wrapping the exact sum. |
| Numerics.WrapSubtract | src/main/java/backend/databaseproject/domain/store/entity/StoreProduct.java:59 | Subtracting from a wrapped `int` and wrapping again equals wrapping the exact difference, so successive decrements wrap like one. |
| OrderService.AmountExactInRange | src/main/java/backend/databaseproject/domain/order/service/OrderService.java:80-105 | While the exact total fits in an `int`, the stored amount is the exact total. |
| OrderService.ItemsFailureFirst | src/main/java/backend/databaseproject/domain/order/service/OrderService.java:83-102 | The lines fail with a code exactly when some line fails with it and every line before that one passes. |
| OrderService.ItemsPass | src/main/java/backend/databaseproject/domain/order/service/OrderService.java:83-102 | No line fails exactly when every line passes. |
| OrderService.AcceptedExactly | src/main/java/backend/databaseproject/domain/order/service/OrderService.java:61-102 | An order is accepted exactly when the store exists and is active, the customer exists, the item list is present and non-empty, and every line passes. |
| OrderService.PassingLinesListed | src/main/java/backend/databaseproject/domain/order/service/OrderService.java:85-87 | Lines that pass name products the store lists. |
| OrderService.DuplicateLinesOversell | src/main/java/backend/databaseproject/domain/order/service/OrderService.java:95-152 | Two lines for one product, each within the stock, are accepted together and drive the stock to minus that quantity. |
| OrderService.StockWrapsAround | src/main/java/backend/databaseproject/domain/store/entity/StoreProduct.java:58-60 | Three lines of 2^31-1 against a stock and limit of 2^31-1 pass every check, and the `Integer` stock wraps around to 2. |
| OrderService.GetOrder | src/main/java/backend/databaseproject/domain/order/service/OrderService.java:166-171 | A missing id fails with ORDER_NOT_FOUND; otherwise the stored request is returned. |
| StoreService.ActiveStore | src/main/java/backend/databaseproject/domain/store/service/StoreService.java:177-183 | A missing store is STORE_NOT_FOUND; an inactive one is STORE_NOT_ACTIVE; otherwise the store itself is returned. |
| StoreService.KeepDeliverableExactly | src/main/java/backend/databaseproject/domain/store/service/StoreService.java:63 | The radius filter keeps exactly the entries whose distance is within their store's own radius. |
| StoreService.InsertSorted | src/main/java/backend/databaseproject/domain/store/service/StoreService.java:64 | Inserting by distance into a sorted list keeps it sorted and adds exactly that entry. |
| StoreService.SortByDistanceCorrect | src/main/java/backend/databaseproject/domain/store/service/StoreService.java:64 | The sort by distance returns the same entries, ascending by distance. |
| StoreService.StoresNearbyExactly | src/main/java/backend/databaseproject/domain/store/service/StoreService.java:43-67 | Nearby stores come in ascending distance. A store appears, with its own distance from the user, exactly when it is a candidate whose radius covers the user. |
| StoreService.SearchWithoutLocation | src/main/java/backend/databaseproject/domain/store/service/StoreService.java:157-162 | Without both coordinates the search returns every match, in repository order, with no distance. |
| StoreService.ProductsOnSaleExactly | src/main/java/backend/databaseproject/domain/store/repository/StoreProductRepository.java:21-35 | The listing holds exactly the store's active rows for active products, restricted to the category when one is given. |
| StoreService.CategoriesOnSaleExactly | src/main/java/backend/databaseproject/domain/store/repository/StoreProductRepository.java:40-44 | The categories are exactly those of the store's listings on sale, each once. |
| StoreService.GetProductsExactly | src/main/java/backend/databaseproject/domain/store/service/StoreService.java:102-123 | The store checks come first. A missing or blank category lists every product on sale; any other category lists only that category's. |
| StoreService.GetCategoriesExactly | src/main/java/backend/databaseproject/domain/store/service/StoreService.java:76-92 | The store checks come first; then the categories on sale at the store, without repeats. |
| StoreService.MinPayload | src/main/java/backend/databaseproject/domain/drone/repository/DroneRepository.java:51-52 | No drones give no minimum; otherwise the result is some drone's payload and no drone has less. |
| StoreService.DeliveryInfoFacts | src/main/java/backend/databaseproject/domain/store/service/StoreService.java:175-212 | A missing or inactive store fails with the store check's error. Otherwise the id, name and radius are the store's; distance and deliverability are present exactly when both coordinates are given; the distance is measured from the store to the user, and deliverable means within the store's radius. The weight cap is 5.0 without drones and otherwise the smallest drone payload: some drone has it and none is below it. |
| RouteStopOrderRepository.RowsFor | src/main/java/backend/databaseproject/domain/route/repository/RouteStopOrderRepository.java:38-40 | The batch query returns exactly the links whose order id is among the requested ones. |
| RouteStopOrderRepository.DistinctSnoc | src/main/java/backend/databaseproject/domain/route/repository/RouteStopOrderRepository.java:54-58 | Appending a row keeps the order ids distinct exactly when its id is new. |
| RouteStopOrderRepository.ToMapExactly | src/main/java/backend/databaseproject/domain/route/repository/RouteStopOrderRepository.java:54-58 | `toMap` succeeds exactly when no order id repeats. The map then has exactly the rows' order ids as keys and sends each to its route id. A repeated id is reported. |
| RouteStopOrderRepository.FindRouteIdsMapExactly | src/main/java/backend/databaseproject/domain/route/repository/RouteStopOrderRepository.java:49-59 | A null or empty id list gives the empty map. Otherwise the lookup succeeds exactly when the matching links have distinct order ids, and maps each requested order with a link to its route. |
| RouteResponses.RouteStopResponse.StopName | src/main/java/backend/databaseproject/domain/route/dto/response/RouteStopResponse.java:62-67 | The name is the store's when a store is set, else the customer's when one is set, else absent. |
| RouteResponses.RouteStopResponse.From | src/main/java/backend/databaseproject/domain/route/dto/response/RouteStopResponse.java:57-82 | A null stop maps to null, and any other stop to its view. |
| RouteResponses.RouteResponse.StopViews | src/main/java/backend/databaseproject/domain/route/dto/response/RouteResponse.java:79-81 | One stop view per stop, same length and order, each what `RouteStopResponse.from` gives. |
| RouteResponses.RouteViewExactly | src/main/java/backend/databaseproject/domain/route/dto/response/RouteResponse.java:73-100 | A null route maps to null. A route's view has its stops in order, each with its stop sequence. Drone and store fields come from the referenced entities and the status is the enum name. |
| RouteResponses.StatusNamesDistinct | src/main/java/backend/databaseproject/domain/route/dto/response/RouteStopResponse.java:72-77 | Distinct route statuses, stop statuses and stop types are sent as distinct names. |
| OrderItemResponses.OrderItemResponse.From | src/main/java/backend/databaseproject/domain/order/dto/response/OrderItemResponse.java:43-54 | Ids, name, quantity and price are copied from the item and its product. The subtotal is quantity × unit price in `int` arithmetic: exact when it fits, and wrapped modulo 2^32 otherwise. |
| OrderItemResponses.SubtotalWraps | src/main/java/backend/databaseproject/domain/order/dto/response/OrderItemResponse.java:44 | 50 000 × 50 000 overflows: the subtotal comes out negative. |

## Left out

- Transactions, logging, `Thread.sleep`, WebSocket sends and the asynchronous launch of the simulator. A sleep is a `Wait` event in the trace. A position message is a `Position` event carrying its recipients. The persisted `RoutePosition` rows are not modelled.
- Floating point and `BigDecimal` scale and rounding (`setScale(2|3|6, HALF_UP)`): all arithmetic is on exact reals.
- `GeoUtils.calculateDistance` (haversine) is an uninterpreted metric. The 50 km, active-store SQL pre-filter of `findStoresWithinRadius` is not modelled; its result is the `candidates` input of `StoresNearby`. The name-search query is likewise an input.
- Repository queries other than `findRouteIdsMapByOrderIds` are inputs: the pending-request fetch, the idle-drone lookup, the `MIN` payload query and the store-product queries. The store-product queries are modelled as filters over the whole table (`ProductsOnSale`, `CategoriesOnSale`).
- StoreService.CategoriesOnSaleExactly: the `ORDER BY p.category` of the category query is not modelled. The categories come in first-occurrence order.
- StoreService.GetCategoriesExactly: for the same reason the categories an active store returns are stated as a set without repeats, not in the query's alphabetical order.
- StoreService.IsBlank: only the ASCII characters `Character.isWhitespace` accepts are blank. The Unicode space separators are not modelled.
- StoreService.StoresNearbyExactly: the stable order among stores at equal distance is not stated. The order is only sorted ascending.
- OrderService.AddItems: every item is saved first and the stock is then taken line by line (`TakeStock`), where the source takes each line's stock right after saving its item. No step reads the stock, so the end state is the same.
- OrderService.CreateOrder: the second product lookup (`productRepository.findById`) is modelled as the store product's own product. Its PRODUCT_NOT_FOUND branch cannot fire after the first check passed.
- OrderService.CreateOrder: `OrderResponse.from` and `getOrder`'s response mapping are not part of this model. The result is the saved request itself.
- DroneSimulator.SimulateFlight: requires a non-zero battery capacity. With capacity 0 the source divides by zero in double arithmetic and reports infinite or NaN battery figures, which exact reals cannot express.
- DroneSimulator.SimulateFlight: requires the stops in stop-sequence order. The route query has no ORDER BY.
- DroneSimulator.SimulateFlight: a missing route or drone is logged and swallowed by the outer `catch`; the model takes the route as given.
- DroneSimulator.SimulateFlight: `processStopArrival` lives in a service that is not part of this model, so its effects are not modelled; the trace records a `StopArrival` event at its place.
- DroneSimulator.LegEvents: the battery figure and the recipients are computed once per leg, while the source recomputes them for every sample. They agree because nothing the model tracks changes within a leg.
- DeliveryBatch.ProcessBatch: the freshness and PLANNED status of every route built in the run are stated per group (`DispatchGroup`, `BuildDispatch`), not in the batch's own postcondition.
- DeliveryBatch.ProcessBatch: `processedCount` and the call to `simulateFlight` are left out (the flight is `DroneSimulator.SimulateFlight`). The optimiser's "empty result" skip cannot happen for a non-empty group.
- RouteOptimizer.OptimizeRoute: the `HashSet` iteration order is an unspecified choice. On inputs with repeated elements each element appears once, as in the source.
- The `@PrePersist` hooks of the link and log records (`RouteStopOrder`, `RoutePosition`, `FlightLog`) are not modelled. Each is the same stamp-when-unset rule as `Records.StampIfUnset`.

## Source inconsistencies

- `ErrorCode` has no `CUSTOMER_NOT_FOUND`, yet `OrderService.createOrder` throws it (src/main/java/backend/databaseproject/domain/order/service/OrderService.java:71). The model reports it as the separate failure `CustomerNotFound`.
- `DeliveryBatchService` passes `List<DeliveryRequest>` to `optimizeRoute(List<Order>, Store)`. The optimiser is generic over the element type and takes a destination function.
- The batch builds stops with `arrivalLat`/`arrivalLng`/`distanceFromPrevKm`, while `RouteStop` has `lat`/`lng` and the simulator reads `getLat()`/`getLng()`. The model uses one stop record with a location and `distanceFromPrevKm`.
- The simulator's `RoutePosition` and `FlightLog` builders use fields (`stopFrom`, `stopTo`, `speedMps`, `batteryPct`, `ts`, `distance`, `note`) that the entity classes do not declare. The model keeps the entities' own fields: the flight log's `distance` is its `distanceKm`, and the fields the builder never sets (`durationMin`, `maxAltitudeM`, `avgSpeedKmh`, `errorMessage`) are empty.
- `RouteStopResponse.from` reads `getArrivalLat`, `getArrivalLng`, `getArrivedAt` and `getDepartedAt` (src/main/java/backend/databaseproject/domain/route/dto/response/RouteStopResponse.java:74-79), which `RouteStop` does not declare. The model reads the stop's location, `actualArrivalAt` and `actualDepartureAt` instead.
- The batch creates `RouteStopRequest` links, while the simulator reads `RouteStopOrder` links to find recipients; stops built by the batch therefore have no recipients.
- `getDeliveryInfo` measures from the store to the user, while the nearby and search queries measure from the user to the store. The model keeps both argument orders.
