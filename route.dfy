/**
 * The Route aggregate: a route flown by one drone from one store, its stops,
 * the positions and flight logs recorded for it, and the link rows that tie a
 * stop to the orders or delivery requests it serves.
 */
module RouteEntities {
  import opened Wrappers
  import opened Geo
  import opened Records
  import opened StoreEntities
  import opened DroneEntity
  import opened OrderEntity
  import opened DeliveryRequestEntity

  datatype RouteStatus = Planned | Launched | InProgress | Completed | Aborted {
    function Name(): string {
      match this
      case Planned => "PLANNED"
      case Launched => "LAUNCHED"
      case InProgress => "IN_PROGRESS"
      case Completed => "COMPLETED"
      case Aborted => "ABORTED"
    }
  }

  datatype StopType = Pickup | Drop | Return {
    function Name(): string {
      match this
      case Pickup => "PICKUP"
      case Drop => "DROP"
      case Return => "RETURN"
    }
  }

  datatype StopStatus = Pending | Arrived | Departed | Skipped | StopFailed {
    function Name(): string {
      match this
      case Pending => "PENDING"
      case Arrived => "ARRIVED"
      case Departed => "DEPARTED"
      case Skipped => "SKIPPED"
      case StopFailed => "FAILED"
    }
  }

  datatype FlightResult = Success | FlightAborted | EmergencyLand {
    function Name(): string {
      match this
      case Success => "SUCCESS"
      case FlightAborted => "ABORTED"
      case EmergencyLand => "EMERGENCY_LAND"
    }
  }

  /** Links one stop to one order; the simulator reads these to find recipients. */
  class RouteStopOrder {
    const routeStopOrderId: int
    const order: Order
    var routeStop: RouteStop?
    var createdAt: Option<Time>

    constructor (routeStopOrderId: int, routeStop: RouteStop?, order: Order)
      ensures this.routeStopOrderId == routeStopOrderId && this.routeStop == routeStop
      ensures this.order == order && createdAt.None?
    {
      this.routeStopOrderId := routeStopOrderId;
      this.routeStop := routeStop;
      this.order := order;
      this.createdAt := None;
    }
  }

  /** Links one stop to one delivery request; written by the batch, never mutated. */
  datatype RouteStopRequest = RouteStopRequest(routeStop: RouteStop, deliveryRequest: DeliveryRequest)

  class RoutePosition {
    const positionId: int
    const location: Point
    const altitudeM: Option<real>
    const speedKmh: Option<real>
    const battery: int
    const recordedAt: Option<Time>
    var route: Route?

    constructor (positionId: int, route: Route?, location: Point, altitudeM: Option<real>,
                 speedKmh: Option<real>, battery: int, recordedAt: Option<Time>)
      ensures this.positionId == positionId && this.route == route && this.location == location
      ensures this.altitudeM == altitudeM && this.speedKmh == speedKmh
      ensures this.battery == battery && this.recordedAt == recordedAt
    {
      this.positionId := positionId;
      this.route := route;
      this.location := location;
      this.altitudeM := altitudeM;
      this.speedKmh := speedKmh;
      this.battery := battery;
      this.recordedAt := recordedAt;
    }
  }

  class FlightLog {
    const flightLogId: int
    const drone: Drone
    const startTime: Time
    const endTime: Option<Time>
    const distanceKm: Option<real>
    const durationMin: Option<int>
    const maxAltitudeM: Option<real>
    const avgSpeedKmh: Option<real>
    const batteryUsed: Option<int>
    const result: FlightResult
    const errorMessage: Option<string>
    var route: Route?

    constructor (flightLogId: int, route: Route?, drone: Drone, startTime: Time,
                 endTime: Option<Time>, distanceKm: Option<real>, durationMin: Option<int>,
                 maxAltitudeM: Option<real>, avgSpeedKmh: Option<real>, batteryUsed: Option<int>,
                 result: FlightResult, errorMessage: Option<string>)
      ensures this.flightLogId == flightLogId && this.route == route && this.drone == drone
      ensures this.startTime == startTime && this.endTime == endTime
      ensures this.distanceKm == distanceKm && this.durationMin == durationMin
      ensures this.maxAltitudeM == maxAltitudeM && this.avgSpeedKmh == avgSpeedKmh
      ensures this.batteryUsed == batteryUsed
      ensures this.result == result && this.errorMessage == errorMessage
    {
      this.flightLogId := flightLogId;
      this.route := route;
      this.drone := drone;
      this.startTime := startTime;
      this.endTime := endTime;
      this.distanceKm := distanceKm;
      this.durationMin := durationMin;
      this.maxAltitudeM := maxAltitudeM;
      this.avgSpeedKmh := avgSpeedKmh;
      this.batteryUsed := batteryUsed;
      this.result := result;
      this.errorMessage := errorMessage;
    }
  }

  /**
   * One stop of a route. The stop's coordinates are `location`; the batch
   * builder also records the leg length from the previous stop in
   * `distanceFromPrevKm`.
   */
  class RouteStop {
    const stopId: int
    const stopSequence: int
    const stopType: StopType
    const name: Option<string>
    const location: Point
    const plannedArrivalAt: Option<Time>
    const plannedDepartureAt: Option<Time>
    const payloadDeltaKg: Option<real>
    const store: Store?
    const customer: Option<Customer>
    const note: Option<string>
    const distanceFromPrevKm: real
    var route: Route?
    var status: StopStatus
    var actualArrivalAt: Option<Time>
    var actualDepartureAt: Option<Time>
    var routeStopOrders: seq<RouteStopOrder>

    /** A new stop is PENDING, with no actual times and no order links. */
    constructor (stopId: int, route: Route?, stopSequence: int, stopType: StopType,
                 name: Option<string>, location: Point,
                 plannedArrivalAt: Option<Time>, plannedDepartureAt: Option<Time>,
                 payloadDeltaKg: Option<real>, store: Store?, customer: Option<Customer>,
                 note: Option<string>, distanceFromPrevKm: real)
      ensures this.stopId == stopId && this.route == route
      ensures this.stopSequence == stopSequence && this.stopType == stopType
      ensures this.name == name && this.location == location
      ensures this.plannedArrivalAt == plannedArrivalAt
      ensures this.plannedDepartureAt == plannedDepartureAt
      ensures this.payloadDeltaKg == payloadDeltaKg
      ensures this.store == store && this.customer == customer && this.note == note
      ensures this.distanceFromPrevKm == distanceFromPrevKm
      ensures status == Pending
      ensures actualArrivalAt.None? && actualDepartureAt.None? && routeStopOrders == []
    {
      this.stopId := stopId;
      this.route := route;
      this.stopSequence := stopSequence;
      this.stopType := stopType;
      this.name := name;
      this.location := location;
      this.plannedArrivalAt := plannedArrivalAt;
      this.plannedDepartureAt := plannedDepartureAt;
      this.payloadDeltaKg := payloadDeltaKg;
      this.store := store;
      this.customer := customer;
      this.note := note;
      this.distanceFromPrevKm := distanceFromPrevKm;
      this.status := Pending;
      this.actualArrivalAt := None;
      this.actualDepartureAt := None;
      this.routeStopOrders := [];
    }

    /** Any status may be set: there is no guard on the prior status. */
    method ChangeStatus(newStatus: StopStatus)
      modifies this`status
      ensures status == newStatus
    {
      status := newStatus;
    }

    method Arrive(now: Time)
      modifies this`status, this`actualArrivalAt
      ensures status == Arrived && actualArrivalAt == Some(now)
    {
      status := Arrived;
      actualArrivalAt := Some(now);
    }

    method Depart(now: Time)
      modifies this`status, this`actualDepartureAt
      ensures status == Departed && actualDepartureAt == Some(now)
    {
      status := Departed;
      actualDepartureAt := Some(now);
    }

    /** Skipping touches no timestamp. */
    method Skip()
      modifies this`status
      ensures status == Skipped
    {
      status := Skipped;
    }

    /** Appends the link at the end and points its back-reference here. */
    method AddRouteStopOrder(link: RouteStopOrder)
      modifies this`routeStopOrders, link`routeStop
      ensures routeStopOrders == old(routeStopOrders) + [link]
      ensures link.routeStop == this
    {
      routeStopOrders := routeStopOrders + [link];
      link.routeStop := this;
    }
  }

  class Route {
    const routeId: int
    const drone: Drone
    const store: Store
    const totalDistanceKm: real
    const totalWeightKg: real
    const estimatedDurationMin: int
    const actualDurationMin: Option<int>
    const note: Option<string>
    var status: RouteStatus
    var launchedAt: Option<Time>
    var completedAt: Option<Time>
    var createdAt: Option<Time>
    var routeStops: seq<RouteStop>
    var routePositions: seq<RoutePosition>
    var flightLogs: seq<FlightLog>

    /** A new route is PLANNED, with no timestamps and empty child lists. */
    constructor (routeId: int, drone: Drone, store: Store, totalDistanceKm: real,
                 totalWeightKg: real, estimatedDurationMin: int, note: Option<string>)
      ensures this.routeId == routeId && this.drone == drone && this.store == store
      ensures this.totalDistanceKm == totalDistanceKm && this.totalWeightKg == totalWeightKg
      ensures this.estimatedDurationMin == estimatedDurationMin && this.note == note
      ensures actualDurationMin.None?
      ensures status == Planned
      ensures launchedAt.None? && completedAt.None? && createdAt.None?
      ensures routeStops == [] && routePositions == [] && flightLogs == []
    {
      this.routeId := routeId;
      this.drone := drone;
      this.store := store;
      this.totalDistanceKm := totalDistanceKm;
      this.totalWeightKg := totalWeightKg;
      this.estimatedDurationMin := estimatedDurationMin;
      this.actualDurationMin := None;
      this.note := note;
      this.status := Planned;
      this.launchedAt := None;
      this.completedAt := None;
      this.createdAt := None;
      this.routeStops := [];
      this.routePositions := [];
      this.flightLogs := [];
    }

    method OnCreate(now: Time)
      modifies this`createdAt
      ensures old(createdAt).Some? ==> createdAt == old(createdAt)
      ensures old(createdAt).None? ==> createdAt == Some(now)
    {
      createdAt := StampIfUnset(createdAt, now);
    }

    /** Any status may be set: there is no guard on the prior status. */
    method ChangeStatus(newStatus: RouteStatus)
      modifies this`status
      ensures status == newStatus
    {
      status := newStatus;
    }

    method Launch(now: Time)
      modifies this`status, this`launchedAt
      ensures status == Launched && launchedAt == Some(now)
    {
      status := Launched;
      launchedAt := Some(now);
    }

    method Complete(now: Time)
      modifies this`status, this`completedAt
      ensures status == Completed && completedAt == Some(now)
    {
      status := Completed;
      completedAt := Some(now);
    }

    /** Aborting touches no timestamp. */
    method Abort()
      modifies this`status
      ensures status == Aborted
    {
      status := Aborted;
    }

    method AddRouteStop(stop: RouteStop)
      modifies this`routeStops, stop`route
      ensures routeStops == old(routeStops) + [stop]
      ensures stop.route == this
    {
      routeStops := routeStops + [stop];
      stop.route := this;
    }

    method AddRoutePosition(position: RoutePosition)
      modifies this`routePositions, position`route
      ensures routePositions == old(routePositions) + [position]
      ensures position.route == this
    {
      routePositions := routePositions + [position];
      position.route := this;
    }

    method AddFlightLog(log: FlightLog)
      modifies this`flightLogs, log`route
      ensures flightLogs == old(flightLogs) + [log]
      ensures log.route == this
    {
      flightLogs := flightLogs + [log];
      log.route := this;
    }
  }
}
