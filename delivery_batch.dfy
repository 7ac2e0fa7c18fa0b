/**
 * The delivery batch: pending requests are grouped by store, each group gets
 * one idle drone, its requests are put in nearest-neighbour order, and a
 * route with a PICKUP stop, one DROP stop per request and a RETURN stop is
 * built for it. The requests become ASSIGNED and the drone IN_FLIGHT.
 */
module DeliveryBatch {
  import opened Wrappers
  import opened Geo
  import opened Numerics
  import opened Records
  import opened StoreEntities
  import opened DroneEntity
  import opened DeliveryRequestEntity
  import opened RouteEntities
  import opened RouteOptimizer

  /** Average drone speed used for the duration estimate. */
  const DroneSpeedKmh: real := 30.0
  /** Minutes added per stop (PICKUP, each DROP and RETURN). */
  const StopDelayMin: int := 2
  const BatchNotePrefix: string := "Batch processed at "

  function Destination(r: DeliveryRequest): Point {
    r.destination
  }

  /** The requests of one store, in the order they were fetched. */
  function GroupOf(pending: seq<DeliveryRequest>, storeId: int): (g: seq<DeliveryRequest>)
    ensures forall r :: r in g ==> r in pending && r.store.storeId == storeId
    ensures forall r :: r in pending && r.store.storeId == storeId ==> r in g
    ensures Distinct(pending) ==> Distinct(g)
  {
    if |pending| == 0 then []
    else if pending[0].store.storeId == storeId then [pending[0]] + GroupOf(pending[1..], storeId)
    else GroupOf(pending[1..], storeId)
  }

  /** `sub` is `s` with some elements dropped and the rest kept in their order. */
  ghost predicate Subsequence<T>(sub: seq<T>, s: seq<T>) {
    if |sub| == 0 then true
    else if |s| == 0 then false
    else if sub[0] == s[0] then Subsequence(sub[1..], s[1..])
    else Subsequence(sub, s[1..])
  }

  /** A store's group keeps the fetch order of the pending requests. */
  lemma {:induction false} GroupOfInOrder(pending: seq<DeliveryRequest>, storeId: int)
    ensures Subsequence(GroupOf(pending, storeId), pending)
  {
    if |pending| > 0 {
      GroupOfInOrder(pending[1..], storeId);
      var g := GroupOf(pending, storeId);
      if pending[0].store.storeId == storeId {
        assert g[1..] == GroupOf(pending[1..], storeId);
      } else if |g| > 0 {
        assert g[0].store.storeId == storeId;
      }
    }
  }

  /** Sum of the requests' weights. */
  function TotalWeight(requests: seq<DeliveryRequest>): real {
    if |requests| == 0 then 0.0 else requests[0].totalWeightKg + TotalWeight(requests[1..])
  }

  lemma {:induction false} TotalWeightConcat(a: seq<DeliveryRequest>, b: seq<DeliveryRequest>)
    ensures TotalWeight(a + b) == TotalWeight(a) + TotalWeight(b)
    decreases |a|
  {
    if |a| == 0 {
      assert a + b == b;
    } else {
      assert (a + b)[1..] == a[1..] + b;
      TotalWeightConcat(a[1..], b);
    }
  }

  lemma {:induction false} TotalWeightRemove(requests: seq<DeliveryRequest>, i: nat)
    requires i < |requests|
    ensures TotalWeight(requests) == requests[i].totalWeightKg + TotalWeight(requests[..i] + requests[i + 1..])
  {
    var before, after := requests[..i], requests[i + 1..];
    var middle := [requests[i]] + after;
    assert requests == before + middle;
    TotalWeightConcat(before, middle);
    assert middle[1..] == after;
    assert TotalWeight(middle) == requests[i].totalWeightKg + TotalWeight(after);
    TotalWeightConcat(before, after);
  }

  /** Removing the same element from two permutations of each other leaves permutations. */
  lemma PermutationRemove<T>(a: seq<T>, b: seq<T>, i: nat)
    requires multiset(a) == multiset(b) && |a| > 0 && i < |b| && b[i] == a[0]
    ensures multiset(a[1..]) == multiset(b[..i] + b[i + 1..])
  {
    assert a == [a[0]] + a[1..];
    assert b == b[..i] + [b[i]] + b[i + 1..];
    calc {
      multiset(a[1..]);
      multiset(a) - multiset{a[0]};
      multiset(b) - multiset{b[i]};
      multiset(b[..i]) + multiset(b[i + 1..]);
      multiset(b[..i] + b[i + 1..]);
    }
  }

  /** Reordering the requests (as the optimiser does) does not change the route weight. */
  lemma {:induction false} TotalWeightPermutation(a: seq<DeliveryRequest>, b: seq<DeliveryRequest>)
    requires multiset(a) == multiset(b)
    ensures TotalWeight(a) == TotalWeight(b)
  {
    if |a| > 0 {
      assert a[0] in multiset(b);
      var i :| 0 <= i < |b| && b[i] == a[0];
      PermutationRemove(a, b, i);
      TotalWeightPermutation(a[1..], b[..i] + b[i + 1..]);
      TotalWeightRemove(b, i);
    } else {
      assert |b| == |multiset(b)| == 0;
    }
  }


  /**
   * Whole minutes of flight (rounded up) plus the stop delays of n drops,
   * the pickup and the return.
   */
  function EstimatedDuration(distanceKm: real, n: nat): int {
    Ceil(distanceKm / DroneSpeedKmh * 60.0) + (n + 2) * StopDelayMin
  }

  /** The flight part of the estimate is the flight time rounded up to a whole minute. */
  lemma EstimatedDurationBounds(distanceKm: real, n: nat)
    ensures var travel := EstimatedDuration(distanceKm, n) - (n + 2) * StopDelayMin;
      travel as real - 1.0 < distanceKm / DroneSpeedKmh * 60.0 <= travel as real
  {
  }

  /** Leg length from the stop before: the accumulated distances of a stop list. */
  function LegSum(stops: seq<RouteStop>): real {
    if |stops| == 0 then 0.0 else LegSum(stops[..|stops| - 1]) + stops[|stops| - 1].distanceFromPrevKm
  }

  predicate IsPickupAt(s: RouteStop, store: Store) {
    s.stopType == Pickup && s.store == store && s.customer.None?
    && s.location == store.location && s.distanceFromPrevKm == 0.0
  }

  predicate IsDropFor(prev: RouteStop, s: RouteStop, r: DeliveryRequest, dist: Metric) {
    s.stopType == Drop && s.store == null && s.customer == Some(r.customer)
    && s.location == r.destination && s.distanceFromPrevKm == dist(prev.location, r.destination)
  }

  predicate IsReturnTo(prev: RouteStop, s: RouteStop, store: Store, dist: Metric) {
    s.stopType == Return && s.store == store && s.customer.None?
    && s.location == store.location && s.distanceFromPrevKm == dist(prev.location, store.location)
  }

  /** The shared fields every stop of a batch-built route leaves unset. */
  predicate PlainStop(s: RouteStop) {
    s.name.None? && s.plannedArrivalAt.None? && s.plannedDepartureAt.None?
    && s.payloadDeltaKg.None? && s.note.None?
  }

  /**
   * Stop list for n requests: n + 2 stops numbered 1..n+2, PICKUP at the
   * store first, a DROP at each request's destination in the given order,
   * and RETURN to the store last; each stop records its leg length.
   */
  predicate WellFormedStops(stops: seq<RouteStop>, store: Store, requests: seq<DeliveryRequest>, dist: Metric) {
    |stops| == |requests| + 2
    && (forall k :: 0 <= k < |stops| ==> stops[k].stopSequence == k + 1 && PlainStop(stops[k]))
    && IsPickupAt(stops[0], store)
    && (forall k :: 0 <= k < |requests| ==> IsDropFor(stops[k], stops[k + 1], requests[k], dist))
    && IsReturnTo(stops[|requests|], stops[|requests| + 1], store, dist)
  }

  lemma {:induction false} StopLocation(stops: seq<RouteStop>, store: Store, requests: seq<DeliveryRequest>, dist: Metric, k: nat)
    requires WellFormedStops(stops, store, requests, dist)
    requires k <= |requests|
    ensures stops[k].location == PositionBefore(store.location, Dests(Destination, requests), k)
  {
    if k > 0 {
      assert IsDropFor(stops[k - 1], stops[k], requests[k - 1], dist);
    }
  }

  lemma {:induction false} LegSumPrefix(stops: seq<RouteStop>, store: Store, requests: seq<DeliveryRequest>, dist: Metric, m: nat)
    requires WellFormedStops(stops, store, requests, dist)
    requires m <= |requests|
    ensures LegSum(stops[..m + 1]) == PathKm(store.location, Dests(Destination, requests)[..m], dist)
  {
    var ps := Dests(Destination, requests);
    if m == 0 {
      assert stops[..1][..0] == [];
      assert IsPickupAt(stops[0], store);
    } else {
      LegSumPrefix(stops, store, requests, dist, m - 1);
      assert stops[..m + 1][..m] == stops[..m];
      assert ps[..m][..m - 1] == ps[..m - 1];
      StopLocation(stops, store, requests, dist, m - 1);
      assert IsDropFor(stops[m - 1], stops[m], requests[m - 1], dist);
    }
  }

  /** The legs recorded on the stops add up to the route's round-trip distance. */
  lemma StopLegsSumToRoundTrip(stops: seq<RouteStop>, store: Store, requests: seq<DeliveryRequest>, dist: Metric)
    requires WellFormedStops(stops, store, requests, dist)
    ensures LegSum(stops) == RoundTripKm(store.location, Dests(Destination, requests), dist)
  {
    var n := |requests|;
    var ps := Dests(Destination, requests);
    LegSumPrefix(stops, store, requests, dist, n);
    StopLocation(stops, store, requests, dist, n);
    assert stops[..n + 2][..n + 1] == stops[..n + 1];
    assert stops[..n + 2] == stops;
    assert ps[..n] == ps;
    assert IsReturnTo(stops[n], stops[n + 1], store, dist);
  }

  /** Total distance store → each destination in order → store (the batch's own loop). */
  method CalculateBatchDistance(store: Store, requests: seq<DeliveryRequest>, dist: Metric)
    returns (total: real)
    ensures total == RoundTripKm(store.location, Dests(Destination, requests), dist)
  {
    ghost var ps := Dests(Destination, requests);
    total := 0.0;
    var current := store.location;
    for i := 0 to |requests|
      invariant current == PositionBefore(store.location, ps, i)
      invariant total == PathKm(store.location, ps[..i], dist)
    {
      assert ps[..i + 1][..i] == ps[..i];
      total := total + dist(current, requests[i].destination);
      current := requests[i].destination;
    }
    assert ps[..|requests|] == ps;
    total := total + dist(current, store.location);
  }

  /** A route for the given requests, with its distance, weight and duration totals. */
  method CreateRoute(routeId: int, drone: Drone, store: Store, requests: seq<DeliveryRequest>,
                     dist: Metric, nowText: string)
    returns (route: Route)
    ensures fresh(route)
    ensures route.routeId == routeId && route.drone == drone && route.store == store
    ensures route.totalDistanceKm == RoundTripKm(store.location, Dests(Destination, requests), dist)
    ensures route.totalWeightKg == TotalWeight(requests)
    ensures route.estimatedDurationMin == EstimatedDuration(route.totalDistanceKm, |requests|)
    ensures route.note == Some(BatchNotePrefix + nowText)
    ensures route.status == Planned && route.routeStops == []
  {
    var total := CalculateBatchDistance(store, requests, dist);
    var weight := TotalWeight(requests);
    var duration := EstimatedDuration(total, |requests|);
    route := new Route(routeId, drone, store, total, weight, duration, Some(BatchNotePrefix + nowText));
  }

  /**
   * Builds the stops of a route and the link from each DROP stop to its
   * request. Stop ids are handed out consecutively from `firstStopId`.
   */
  method CreateRouteStops(route: Route, store: Store, requests: seq<DeliveryRequest>,
                          dist: Metric, firstStopId: int)
    returns (stops: seq<RouteStop>, links: seq<RouteStopRequest>)
    ensures WellFormedStops(stops, store, requests, dist)
    ensures forall k :: 0 <= k < |stops| ==>
      fresh(stops[k]) && stops[k].stopId == firstStopId + k
      && stops[k].route == route && stops[k].status == Pending
    ensures |links| == |requests|
    ensures forall k :: 0 <= k < |requests| ==> links[k] == RouteStopRequest(stops[k + 1], requests[k])
  {
    var sequence := 1;
    var pickup := new RouteStop(firstStopId, route, sequence, Pickup, None, store.location,
                                None, None, None, store, None, None, 0.0);
    sequence := sequence + 1;
    var current := pickup.location;
    stops := [pickup];
    links := [];
    for k := 0 to |requests|
      invariant |stops| == k + 1 && |links| == k && sequence == k + 2
      invariant current == stops[k].location
      invariant forall j :: 0 <= j < |stops| ==>
        stops[j].stopSequence == j + 1 && PlainStop(stops[j])
        && fresh(stops[j]) && stops[j].stopId == firstStopId + j
        && stops[j].route == route && stops[j].status == Pending
      invariant IsPickupAt(stops[0], store)
      invariant forall j :: 0 <= j < k ==> IsDropFor(stops[j], stops[j + 1], requests[j], dist)
      invariant forall j :: 0 <= j < k ==> links[j] == RouteStopRequest(stops[j + 1], requests[j])
    {
      var request := requests[k];
      var distance := dist(current, request.destination);
      var drop := new RouteStop(firstStopId + sequence - 1, route, sequence, Drop, None, request.destination,
                                None, None, None, null, Some(request.customer), None, distance);
      sequence := sequence + 1;
      stops := stops + [drop];
      links := links + [RouteStopRequest(drop, request)];
      current := drop.location;
    }
    var returnDistance := dist(current, store.location);
    var back := new RouteStop(firstStopId + sequence - 1, route, sequence, Return, None, store.location,
                              None, None, None, store, None, None, returnDistance);
    stops := stops + [back];
  }

  /** Marks every request ASSIGNED at `now`. */
  method AssignRequests(requests: seq<DeliveryRequest>, now: Time)
    modifies (set r | r in requests)`status, (set r | r in requests)`assignedAt
    ensures forall r :: r in requests ==> r.status == Assigned && r.assignedAt == Some(now)
  {
    for i := 0 to |requests|
      invariant forall j :: 0 <= j < i ==>
        requests[j].status == Assigned && requests[j].assignedAt == Some(now)
    {
      requests[i].AssignDelivery(now);
    }
  }

  /**
   * Some drone whose status is IDLE, if there is one. The lookup names no
   * order and no store, so any idle drone of the whole fleet may be chosen.
   */
  method FindIdleDrone(drones: seq<Drone>) returns (found: Option<Drone>)
    ensures found.Some? ==> found.value in drones && found.value.status == Idle
    ensures found.None? ==> forall d :: d in drones ==> d.status != Idle
  {
    if exists d :: d in drones && d.status == Idle {
      var d :| d in drones && d.status == Idle;
      return Some(d);
    }
    return None;
  }

  /** What one store group produced: the drone, its route, the stops and the DROP links. */
  datatype Dispatch = Dispatch(drone: Drone, route: Route, stops: seq<RouteStop>,
                               links: seq<RouteStopRequest>, requests: seq<DeliveryRequest>)

  /** A dispatch built for `group` from `store`, as the batch builds it. */
  predicate DispatchOf(dispatch: Dispatch, group: seq<DeliveryRequest>, store: Store, dist: Metric, nowText: string) {
    var requests := dispatch.requests;
    var route := dispatch.route;
    && Distinct(requests)
    && (forall r :: r in requests ==> r in group)
    && (forall r :: r in group ==> r in requests)
    && IsGreedy(store.location, Destination, dist, requests)
    && route.drone == dispatch.drone && route.store == store
    && route.totalDistanceKm == RoundTripKm(store.location, Dests(Destination, requests), dist)
    && route.totalWeightKg == TotalWeight(requests)
    && route.estimatedDurationMin == EstimatedDuration(route.totalDistanceKm, |requests|)
    && route.note == Some(BatchNotePrefix + nowText)
    && WellFormedStops(dispatch.stops, store, requests, dist)
    && |dispatch.links| == |requests|
    && (forall k :: 0 <= k < |requests| ==> dispatch.links[k] == RouteStopRequest(dispatch.stops[k + 1], requests[k]))
  }

  /** Orders one group and builds its route and stops for the given drone. */
  method BuildDispatch(group: seq<DeliveryRequest>, store: Store, drone: Drone, dist: Metric,
                       nowText: string, routeId: int, firstStopId: int)
    returns (dispatch: Dispatch)
    requires |group| > 0
    ensures DispatchOf(dispatch, group, store, dist, nowText)
    ensures dispatch.drone == drone && dispatch.route.routeId == routeId
    ensures Distinct(group) ==>
      dispatch.route.totalWeightKg == TotalWeight(group) && |dispatch.requests| == |group|
    ensures fresh(dispatch.route) && dispatch.route.status == Planned
    ensures |dispatch.stops| == |dispatch.requests| + 2
    ensures forall k :: 0 <= k < |dispatch.stops| ==>
      fresh(dispatch.stops[k]) && dispatch.stops[k].stopId == firstStopId + k
      && dispatch.stops[k].route == dispatch.route && dispatch.stops[k].status == Pending
  {
    var optimized := OptimizeRoute(group, store, Destination, dist);
    if Distinct(group) {
      OptimizedIsPermutation(group, optimized);
      TotalWeightPermutation(optimized, group);
      assert |optimized| == |multiset(optimized)| == |multiset(group)| == |group|;
    }
    var route := CreateRoute(routeId, drone, store, optimized, dist, nowText);
    var stops, links := CreateRouteStops(route, store, optimized, dist, firstStopId);
    dispatch := Dispatch(drone, route, stops, links, optimized);
  }

  /**
   * One store group once an idle drone is found: order the requests, build
   * the route and its stops, assign the group's requests and send the drone
   * off. Requests of other stores are untouched.
   */
  method DispatchGroup(pending: seq<DeliveryRequest>, storeId: int, store: Store, drone: Drone,
                       dist: Metric, now: Time, nowText: string, routeId: int, firstStopId: int,
                       ghost prior: seq<Dispatch>, ghost firstRouteId: int, ghost fleet: seq<Drone>)
    returns (dispatch: Dispatch)
    requires exists r :: r in pending && r.store == store && r.store.storeId == storeId
    requires ValidDispatches(prior, pending, dist, nowText, firstRouteId) == true
    requires routeId == firstRouteId + |prior|
    requires storeId !in DispatchedStores(prior) && drone !in UsedDrones(prior)
    modifies (set r | r in pending)`status, (set r | r in pending)`assignedAt, drone`status
    ensures forall r :: r in pending ==>
      r.status == (if r.store.storeId == storeId then Assigned else old(r.status))
    ensures forall r :: r in pending ==>
      r.assignedAt == (if r.store.storeId == storeId then Some(now) else old(r.assignedAt))
    ensures ValidDispatches(prior + [dispatch], pending, dist, nowText, firstRouteId) == true
    ensures DispatchedStores(prior + [dispatch]) == DispatchedStores(prior) + {storeId}
    ensures UsedDrones(prior + [dispatch]) == UsedDrones(prior) + {drone}
    ensures dispatch.drone == drone && drone.status == InFlight
    ensures fresh(dispatch.route) && dispatch.route.status == Planned
    ensures forall d :: d in fleet && d != drone ==> d.status == old(d.status)
  {
    dispatch := PlanGroup(pending, storeId, store, drone, dist, nowText, routeId, firstStopId, prior, firstRouteId);
    AssignGroup(dispatch.requests, pending, storeId, now);
    drone.ChangeStatus(InFlight);
  }

  /**
   * Builds the route for one store's group with the given drone and route id;
   * it extends a valid run of dispatches by one. Nothing existing changes.
   */
  method PlanGroup(pending: seq<DeliveryRequest>, storeId: int, store: Store, drone: Drone,
                   dist: Metric, nowText: string, routeId: int, firstStopId: int,
                   ghost prior: seq<Dispatch>, ghost firstRouteId: int)
    returns (dispatch: Dispatch)
    requires exists r :: r in pending && r.store == store && r.store.storeId == storeId
    requires ValidDispatches(prior, pending, dist, nowText, firstRouteId) == true
    requires routeId == firstRouteId + |prior|
    requires storeId !in DispatchedStores(prior) && drone !in UsedDrones(prior)
    ensures forall r :: r in dispatch.requests <==> r in pending && r.store.storeId == storeId
    ensures ValidDispatches(prior + [dispatch], pending, dist, nowText, firstRouteId) == true
    ensures DispatchedStores(prior + [dispatch]) == DispatchedStores(prior) + {storeId}
    ensures UsedDrones(prior + [dispatch]) == UsedDrones(prior) + {drone}
    ensures dispatch.drone == drone
    ensures fresh(dispatch.route) && dispatch.route.status == Planned
  {
    var group := GroupOf(pending, storeId);
    dispatch := BuildDispatch(group, store, drone, dist, nowText, routeId, firstStopId);
    RequestsOfGroup(dispatch, group, pending, storeId, store, dist, nowText);
    ValidDispatchesExtend(prior, dispatch, pending, dist, nowText, firstRouteId);
    DispatchedAppend(prior, dispatch);
  }

  /** The requests of a dispatch built for a store's group are exactly that store's pending requests. */
  lemma RequestsOfGroup(dispatch: Dispatch, group: seq<DeliveryRequest>, pending: seq<DeliveryRequest>,
                        storeId: int, store: Store, dist: Metric, nowText: string)
    requires DispatchOf(dispatch, group, store, dist, nowText)
    requires forall r :: r in group ==> r in pending && r.store.storeId == storeId
    requires forall r :: r in pending && r.store.storeId == storeId ==> r in group
    ensures forall r :: r in dispatch.requests <==> r in pending && r.store.storeId == storeId
  {
  }

  /** Assigns the requests of one store's group; the other pending requests keep their state. */
  method AssignGroup(requests: seq<DeliveryRequest>, pending: seq<DeliveryRequest>, storeId: int, now: Time)
    requires forall r :: r in requests <==> r in pending && r.store.storeId == storeId
    modifies (set r | r in pending)`status, (set r | r in pending)`assignedAt
    ensures forall r :: r in pending ==>
      r.status == (if r.store.storeId == storeId then Assigned else old(r.status))
    ensures forall r :: r in pending ==>
      r.assignedAt == (if r.store.storeId == storeId then Some(now) else old(r.assignedAt))
  {
    AssignRequests(requests, now);
  }

  /** The drones sent off, one per dispatch. */
  function UsedDrones(dispatches: seq<Dispatch>): set<Drone>
    decreases |dispatches|
  {
    if |dispatches| == 0 then {}
    else UsedDrones(dispatches[..|dispatches| - 1]) + {dispatches[|dispatches| - 1].drone}
  }

  /** Ids of the stores that got a route. */
  function DispatchedStores(dispatches: seq<Dispatch>): set<int>
    decreases |dispatches|
  {
    if |dispatches| == 0 then {}
    else DispatchedStores(dispatches[..|dispatches| - 1]) + {dispatches[|dispatches| - 1].route.store.storeId}
  }

  /**
   * One batch run over the CREATED requests, fetched ordered by store. Every
   * store group is visited once, in an unspecified order; a group yields a
   * route only while an idle drone is left. Route and stop ids are handed
   * out consecutively.
   */
  method ProcessBatch(pending: seq<DeliveryRequest>, drones: seq<Drone>, dist: Metric,
                      now: Time, nowText: string, firstRouteId: int, firstStopId: int)
    returns (dispatches: seq<Dispatch>)
    requires forall r :: r in pending ==> r.status == Created
    modifies (set r | r in pending)`status, (set r | r in pending)`assignedAt, (set d | d in drones)`status
    ensures |pending| == 0 ==> dispatches == []
    ensures ValidDispatches(dispatches, pending, dist, nowText, firstRouteId) == true
    ensures forall r :: r in pending ==>
      r.status == (if r.store.storeId in DispatchedStores(dispatches) then Assigned else Created)
    ensures forall r :: r in pending ==>
      r.assignedAt == (if r.store.storeId in DispatchedStores(dispatches) then Some(now) else old(r.assignedAt))
    ensures forall d :: d in UsedDrones(dispatches) ==> d in drones && old(d.status) == Idle
    ensures forall d :: d in drones ==>
      d.status == (if d in UsedDrones(dispatches) then InFlight else old(d.status))
    ensures (exists r :: r in pending && r.status == Created) ==> forall d :: d in drones ==> d.status != Idle
  {
    dispatches := [];
    if |pending| == 0 {
      return;
    }
    ghost var assigned0 := map r | r in pending :: r.assignedAt;
    ghost var status0 := map d | d in drones :: d.status;
    // the requests of the store groups not visited yet
    var remaining := set r | r in pending;
    var skipped := false;
    var stopId := firstStopId;
    while remaining != {}
      invariant forall r :: r in remaining ==> r in pending && r.store.storeId !in DispatchedStores(dispatches)
      invariant forall r :: r in pending ==> r in remaining || r.store.storeId in DispatchedStores(dispatches) || skipped
      invariant ValidDispatches(dispatches, pending, dist, nowText, firstRouteId) == true
      invariant BatchRequests(pending, DispatchedStores(dispatches), now, assigned0)
      invariant BatchDrones(drones, UsedDrones(dispatches), status0)
      invariant skipped ==> forall d :: d in drones ==> d.status != Idle
      decreases remaining
    {
      var first :| first in remaining;
      var sid := first.store.storeId;
      var next := ProcessStoreGroup(pending, drones, first, dist, now, nowText, firstRouteId, stopId,
                                    dispatches, assigned0, status0);
      if next.Some? {
        dispatches := dispatches + [next.value];
        stopId := stopId + |next.value.stops|;
      } else {
        skipped := true;
      }
      remaining := set r | r in remaining && r.store.storeId != sid;
    }
  }

  /** Every request of the batch is ASSIGNED now exactly when its store was dispatched. */
  ghost predicate BatchRequests(pending: seq<DeliveryRequest>, served: set<int>, now: Time,
                                assigned0: map<DeliveryRequest, Option<Time>>)
    reads set r | r in pending
  {
    forall r :: r in pending ==>
      && r in assigned0
      && r.status == (if r.store.storeId in served then Assigned else Created)
      && r.assignedAt == (if r.store.storeId in served then Some(now) else assigned0[r])
  }

  /** The drones sent off were idle before the batch and are IN_FLIGHT; the others are untouched. */
  ghost predicate BatchDrones(drones: seq<Drone>, used: set<Drone>, status0: map<Drone, DroneStatus>)
    reads set d | d in drones
  {
    && (forall d :: d in drones ==> d in status0)
    && (forall d :: d in used ==> d in drones && status0[d] == Idle)
    && (forall d :: d in drones ==> d.status == (if d in used then InFlight else status0[d]))
  }

  /**
   * The body of the batch loop for one store group: look for an idle drone
   * and, when there is one, dispatch the group of `first`'s store with it.
   * `assigned0` and `status0` hold the requests' assignment times and the
   * drones' statuses from before the batch.
   */
  method ProcessStoreGroup(pending: seq<DeliveryRequest>, drones: seq<Drone>, first: DeliveryRequest,
                           dist: Metric, now: Time, nowText: string, firstRouteId: int, stopId: int,
                           dispatches: seq<Dispatch>, ghost assigned0: map<DeliveryRequest, Option<Time>>,
                           ghost status0: map<Drone, DroneStatus>)
    returns (next: Option<Dispatch>)
    requires first in pending && first.store.storeId !in DispatchedStores(dispatches)
    requires ValidDispatches(dispatches, pending, dist, nowText, firstRouteId) == true
    requires BatchRequests(pending, DispatchedStores(dispatches), now, assigned0)
    requires BatchDrones(drones, UsedDrones(dispatches), status0)
    modifies (set r | r in pending)`status, (set r | r in pending)`assignedAt, (set d | d in drones)`status
    ensures next.None? ==> forall d :: d in drones ==> d.status != Idle
    ensures (forall d :: d in drones ==> old(d.status) != Idle) ==> next.None?
    ensures next.Some? ==> fresh(next.value.route) && next.value.route.status == Planned
    ensures var after := if next.Some? then dispatches + [next.value] else dispatches;
      && DispatchedStores(after) == DispatchedStores(dispatches) + (if next.Some? then {first.store.storeId} else {})
      && ValidDispatches(after, pending, dist, nowText, firstRouteId) == true
      && BatchRequests(pending, DispatchedStores(after), now, assigned0)
      && BatchDrones(drones, UsedDrones(after), status0)
  {
    var found := FindIdleDrone(drones);
    if found.None? {
      return None;
    }
    var drone := found.value;
    var dispatch := DispatchGroup(pending, first.store.storeId, first.store, drone, dist, now, nowText,
                                  firstRouteId + |dispatches|, stopId, dispatches, firstRouteId, drones);
    next := Some(dispatch);
  }

  /**
   * The part of a batch's result that does not depend on the heap, stated
   * dispatch by dispatch: each one is built for its store's group, route ids
   * run on from `firstRouteId`, and no store and no drone is used twice.
   */
  predicate ValidDispatches(dispatches: seq<Dispatch>, pending: seq<DeliveryRequest>, dist: Metric,
                            nowText: string, firstRouteId: int)
  {
    forall i :: 0 <= i < |dispatches| ==> ValidAt(dispatches, i, pending, dist, nowText, firstRouteId)
  }

  /**
   * The `i`-th dispatch is built for its store's group, takes the `i`-th
   * route id, and reuses no store and no drone of the dispatches before it.
   */
  predicate ValidAt(dispatches: seq<Dispatch>, i: int, pending: seq<DeliveryRequest>, dist: Metric,
                    nowText: string, firstRouteId: int)
  {
    && 0 <= i < |dispatches|
    && var d := dispatches[i];
       && DispatchOf(d, GroupOf(pending, d.route.store.storeId), d.route.store, dist, nowText)
       && d.route.routeId == firstRouteId + i
       && d.route.store.storeId !in DispatchedStores(dispatches[..i])
       && d.drone !in UsedDrones(dispatches[..i])
  }

  lemma ValidDispatchesExtend(dispatches: seq<Dispatch>, next: Dispatch, pending: seq<DeliveryRequest>,
                              dist: Metric, nowText: string, firstRouteId: int)
    requires ValidDispatches(dispatches, pending, dist, nowText, firstRouteId)
    requires DispatchOf(next, GroupOf(pending, next.route.store.storeId), next.route.store, dist, nowText) == true
    requires next.route.routeId == firstRouteId + |dispatches|
    requires next.route.store.storeId !in DispatchedStores(dispatches)
    requires next.drone !in UsedDrones(dispatches)
    ensures ValidDispatches(dispatches + [next], pending, dist, nowText, firstRouteId)
  {
    var all := dispatches + [next];
    forall i | 0 <= i < |all|
      ensures ValidAt(all, i, pending, dist, nowText, firstRouteId)
    {
      assert all[..i] == if i < |dispatches| then dispatches[..i] else dispatches;
      if i < |dispatches| {
        assert ValidAt(dispatches, i, pending, dist, nowText, firstRouteId);
        assert all[i] == dispatches[i];
      }
    }
  }

  lemma ValidDispatchesAll(dispatches: seq<Dispatch>, pending: seq<DeliveryRequest>,
                           dist: Metric, nowText: string, firstRouteId: int)
    requires ValidDispatches(dispatches, pending, dist, nowText, firstRouteId)
    ensures forall i :: 0 <= i < |dispatches| ==>
      DispatchOf(dispatches[i], GroupOf(pending, dispatches[i].route.store.storeId),
                 dispatches[i].route.store, dist, nowText)
      && dispatches[i].route.routeId == firstRouteId + i
    ensures forall i, j :: 0 <= i < j < |dispatches| ==>
      dispatches[i].route.store.storeId != dispatches[j].route.store.storeId
      && dispatches[i].drone != dispatches[j].drone
  {
    forall i | 0 <= i < |dispatches|
      ensures DispatchOf(dispatches[i], GroupOf(pending, dispatches[i].route.store.storeId),
                         dispatches[i].route.store, dist, nowText)
      ensures dispatches[i].route.routeId == firstRouteId + i
    {
      assert ValidAt(dispatches, i, pending, dist, nowText, firstRouteId);
    }
    forall i, j | 0 <= i < j < |dispatches|
      ensures dispatches[i].route.store.storeId != dispatches[j].route.store.storeId
      ensures dispatches[i].drone != dispatches[j].drone
    {
      assert ValidAt(dispatches, j, pending, dist, nowText, firstRouteId);
      DispatchedMembers(dispatches[..j]);
      assert dispatches[..j][i] == dispatches[i];
    }
  }

  lemma DispatchedAppend(dispatches: seq<Dispatch>, d: Dispatch)
    ensures DispatchedStores(dispatches + [d]) == DispatchedStores(dispatches) + {d.route.store.storeId}
    ensures UsedDrones(dispatches + [d]) == UsedDrones(dispatches) + {d.drone}
  {
    assert (dispatches + [d])[..|dispatches|] == dispatches;
  }

  lemma {:induction false} DispatchedMembers(dispatches: seq<Dispatch>)
    ensures forall i :: 0 <= i < |dispatches| ==>
      dispatches[i].route.store.storeId in DispatchedStores(dispatches)
      && dispatches[i].drone in UsedDrones(dispatches)
    decreases |dispatches|
  {
    if |dispatches| > 0 {
      var prefix := dispatches[..|dispatches| - 1];
      DispatchedMembers(prefix);
      assert forall i :: 0 <= i < |prefix| ==> dispatches[i] == prefix[i];
    }
  }
}
