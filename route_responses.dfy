/**
 * The route views returned by the route API: `RouteResponse.from` and
 * `RouteStopResponse.from`. A missing entity maps to a missing view; the
 * enum fields are sent as their names.
 */
module RouteResponses {
  import opened Wrappers
  import opened Records
  import opened StoreEntities
  import opened DroneEntity
  import opened RouteEntities

  datatype RouteStopResponse = RouteStopResponse(
    stopId: int,
    stopSeq: int,
    stopType: string,
    name: Option<string>,
    lat: real,
    lng: real,
    distanceFromPrevKm: real,
    status: string,
    arrivedAt: Option<Time>,
    departedAt: Option<Time>)
  {
    /** The stop's display name: its store's name, else its customer's name, else none. */
    static function StopName(stop: RouteStop): (name: Option<string>)
      ensures stop.store != null ==> name == Some(stop.store.name)
      ensures stop.store == null && stop.customer.Some? ==> name == Some(stop.customer.value.name)
      ensures name.None? <==> stop.store == null && stop.customer.None?
    {
      if stop.store != null then Some(stop.store.name)
      else if stop.customer.Some? then Some(stop.customer.value.name)
      else None
    }

    /** The view of a stop that exists. */
    static function Of(stop: RouteStop): RouteStopResponse
      reads stop
    {
      RouteStopResponse(
        stop.stopId, stop.stopSequence, stop.stopType.Name(), StopName(stop),
        stop.location.lat, stop.location.lng, stop.distanceFromPrevKm,
        stop.status.Name(), stop.actualArrivalAt, stop.actualDepartureAt)
    }

    static function From(stop: RouteStop?): (r: Option<RouteStopResponse>)
      reads stop
      ensures r.None? <==> stop == null
      ensures r.Some? ==> r.value == Of(stop)
    {
      if stop == null then None else Some(Of(stop))
    }
  }

  datatype RouteResponse = RouteResponse(
    routeId: int,
    droneId: int,
    droneModel: string,
    storeId: int,
    storeName: string,
    status: string,
    createdAt: Option<Time>,
    launchedAt: Option<Time>,
    completedAt: Option<Time>,
    totalDistanceKm: real,
    totalWeightKg: real,
    estimatedDurationMin: int,
    actualDurationMin: Option<int>,
    stops: seq<RouteStopResponse>,
    note: Option<string>)
  {
    /** The stream `map(RouteStopResponse::from)` over a route's stops. */
    static function StopViews(stops: seq<RouteStop>): (views: seq<RouteStopResponse>)
      reads stops
      decreases |stops|
      ensures |views| == |stops|
      ensures forall i :: 0 <= i < |stops| ==> RouteStopResponse.From(stops[i]) == Some(views[i])
    {
      if |stops| == 0 then []
      else StopViews(stops[..|stops| - 1]) + [RouteStopResponse.Of(stops[|stops| - 1])]
    }

    static function From(route: Route?): (r: Option<RouteResponse>)
      reads route, if route == null then [] else route.routeStops
    {
      if route == null then None
      else
        var stops := StopViews(route.routeStops);
        Some(RouteResponse(
          route.routeId, route.drone.droneId, route.drone.model, route.store.storeId, route.store.name,
          route.status.Name(), route.createdAt, route.launchedAt, route.completedAt,
          route.totalDistanceKm, route.totalWeightKg, route.estimatedDurationMin, route.actualDurationMin,
          stops, route.note))
    }
  }

  /**
   * A missing route has no view; a route's view lists one stop view per
   * stop, in the route's order, each what `RouteStopResponse.from` gives for
   * that stop, and takes its drone and store fields from the referenced
   * entities and its status from the route's status name.
   */
  lemma RouteViewExactly(route: Route?)
    ensures RouteResponse.From(route).None? <==> route == null
    ensures route != null ==>
      var view := RouteResponse.From(route).value;
      && |view.stops| == |route.routeStops|
      && (forall i :: 0 <= i < |route.routeStops| ==>
            && RouteStopResponse.From(route.routeStops[i]) == Some(view.stops[i])
            && view.stops[i].stopId == route.routeStops[i].stopId
            && view.stops[i].stopSeq == route.routeStops[i].stopSequence)
      && view.routeId == route.routeId
      && view.droneId == route.drone.droneId && view.droneModel == route.drone.model
      && view.storeId == route.store.storeId && view.storeName == route.store.name
      && view.status == route.status.Name()
      && view.launchedAt == route.launchedAt && view.completedAt == route.completedAt
  {
  }

  /** The status names sent to clients tell the statuses apart. */
  lemma StatusNamesDistinct(a: RouteStatus, b: RouteStatus, s: StopStatus, t: StopStatus, x: StopType, y: StopType)
    ensures a.Name() == b.Name() ==> a == b
    ensures s.Name() == t.Name() ==> s == t
    ensures x.Name() == y.Name() ==> x == y
  {
  }
}
