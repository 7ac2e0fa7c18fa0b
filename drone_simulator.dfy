/**
 * The flight simulator (DroneSimulatorService.simulateFlight) without its
 * sleeping, transactions and WebSocket sends: what it records is an event
 * trace. Each leg between two stops yields `steps + 1` interpolated position
 * samples, a two-second wait between consecutive samples, and then the
 * arrival at the stop; after the last stop the route is COMPLETED, the drone
 * IDLE and one SUCCESS flight log is written.
 */
module DroneSimulator {
  import opened Wrappers
  import opened Geo
  import opened Numerics
  import opened Records
  import opened DroneEntity
  import opened OrderEntity
  import opened RouteEntities

  const UpdateIntervalMs: int := 2000
  const DroneSpeedKmh: real := 30.0
  const DroneSpeedMs: real := DroneSpeedKmh / 3.6
  const InitialBattery: real := 100.0
  /** Kilometres of range per mAh of battery capacity. */
  const BatteryToDistanceRatio: real := 0.004

  /** What the simulation records, in order. */
  datatype FlightEvent =
    | Launched
      /** One interpolated sample of leg `leg`, sent to the route topic and to `recipients`. */
    | Position(leg: nat, step: nat, fraction: real, location: Point, batteryPct: real, recipients: seq<int>)
      /** The two-second pause between two samples. */
    | Wait
      /** The per-stop arrival processing, whose effects are not part of this model. */
    | StopArrival(stopId: int)

  /** Stops listed by increasing stop sequence, as the simulator expects them. */
  predicate InSequenceOrder(stops: seq<RouteStop>) {
    forall a, b :: 0 <= a < b < |stops| ==> stops[a].stopSequence < stops[b].stopSequence
  }

  /**
   * Interpolation steps for a leg: enough two-second ticks to fly it at the
   * drone's speed, and at least one.
   */
  function Steps(legKm: real): (steps: int)
    ensures steps >= 1
    ensures legKm * 1000.0 / DroneSpeedMs / 2.0 <= steps as real
    ensures steps > 1 ==> (steps - 1) as real < legKm * 1000.0 / DroneSpeedMs / 2.0
  {
    MaxInt(1, Ceil((legKm * 1000.0 / DroneSpeedMs) / (UpdateIntervalMs as real / 1000.0)))
  }

  /** Battery percentage drained per kilometre for a battery of `capacity` mAh. */
  function DrainPerKm(capacity: int): real
    requires capacity != 0
  {
    100.0 / (capacity as real * BatteryToDistanceRatio)
  }

  /** The battery figure after `travelledKm` kilometres, clamped at 0. */
  function BatteryPct(travelledKm: real, capacity: int): real
    requires capacity != 0
  {
    MaxReal(0.0, InitialBattery - travelledKm * DrainPerKm(capacity))
  }

  lemma DrainPositive(capacity: int)
    requires capacity > 0
    ensures DrainPerKm(capacity) > 0.0
  {
    assert capacity as real * BatteryToDistanceRatio > 0.0;
  }

  /** With a positive capacity the battery figure stays within [0, 100]. */
  lemma BatteryInRange(travelledKm: real, capacity: int)
    requires capacity > 0 && 0.0 <= travelledKm
    ensures 0.0 <= BatteryPct(travelledKm, capacity) <= InitialBattery
  {
    DrainPositive(capacity);
    assert travelledKm * DrainPerKm(capacity) >= 0.0;
  }

  /** Flying further never raises the battery figure. */
  lemma BatteryNonIncreasing(nearKm: real, farKm: real, capacity: int)
    requires capacity > 0 && nearKm <= farKm
    ensures BatteryPct(farKm, capacity) <= BatteryPct(nearKm, capacity)
  {
    DrainPositive(capacity);
    var rate := DrainPerKm(capacity);
    assert farKm * rate - nearKm * rate == (farKm - nearKm) * rate;
    assert (farKm - nearKm) * rate >= 0.0;
  }

  /** The flight log's battery figure: five percent per kilometre, capped at 100, truncated. */
  function BatteryUsed(totalKm: real): (used: int)
    ensures 0.0 <= totalKm ==> 0 <= used <= 100
    ensures 0.0 <= totalKm ==> used as real <= totalKm * 5.0
  {
    TruncateToInt(MinReal(InitialBattery, totalKm * 5.0))
  }

  /**
   * Where leg `i` starts. The first leg starts at the store's coordinates when
   * the first stop is a PICKUP and at the first stop otherwise; both read the
   * first stop's own coordinates. Every later leg starts at the previous stop.
   */
  function LegStart(stops: seq<RouteStop>, i: nat): (p: Point)
    requires i < |stops|
    ensures p == stops[if i == 0 then 0 else i - 1].location
  {
    if i == 0 then
      var storeLocation := if stops[0].stopType == Pickup then Some(stops[0].location) else None;
      if storeLocation.Some? then storeLocation.value else stops[i].location
    else
      stops[i - 1].location
  }

  function LegKm(stops: seq<RouteStop>, dist: Metric, i: nat): real
    requires i < |stops|
  {
    dist(LegStart(stops, i), stops[i].location)
  }

  /** Kilometres flown over the first `n` legs. */
  function TravelledKm(stops: seq<RouteStop>, dist: Metric, n: nat): (km: real)
    requires n <= |stops|
    ensures 0.0 <= km
  {
    if n == 0 then 0.0 else TravelledKm(stops, dist, n - 1) + LegKm(stops, dist, n - 1)
  }

  lemma {:induction false} TravelledMonotone(stops: seq<RouteStop>, dist: Metric, m: nat, n: nat)
    requires m <= n <= |stops|
    ensures TravelledKm(stops, dist, m) <= TravelledKm(stops, dist, n)
    decreases n
  {
    if m < n {
      TravelledMonotone(stops, dist, m, n - 1);
    }
  }

  /** Order ids of a stop's order links, in link order. */
  function OrderIds(links: seq<RouteStopOrder>): seq<int> {
    seq(|links|, k requires 0 <= k < |links| => links[k].order.orderId)
  }

  /** A DROP stop the drone has not reached yet. */
  predicate AwaitsDrone(stop: RouteStop)
    reads stop
  {
    stop.stopType == Drop && stop.status != Arrived && stop.status != Departed
  }

  /** The customers told about a sample on leg `from`: the orders of the DROP stops not reached yet, from that leg on. */
  function Recipients(stops: seq<RouteStop>, from: nat): seq<int>
    reads stops
    decreases |stops| - from
  {
    if from >= |stops| then []
    else (if AwaitsDrone(stops[from]) then OrderIds(stops[from].routeStopOrders) else [])
         + Recipients(stops, from + 1)
  }

  lemma {:induction false} RecipientsExactly(stops: seq<RouteStop>, from: nat, orderId: int)
    ensures orderId in Recipients(stops, from) <==>
      exists j, k :: from <= j < |stops| && AwaitsDrone(stops[j])
        && 0 <= k < |stops[j].routeStopOrders| && stops[j].routeStopOrders[k].order.orderId == orderId
    decreases |stops| - from
  {
    if from < |stops| {
      RecipientsExactly(stops, from + 1, orderId);
      var links := stops[from].routeStopOrders;
      if AwaitsDrone(stops[from]) && orderId in OrderIds(links) {
        var k :| 0 <= k < |links| && OrderIds(links)[k] == orderId;
        assert links[k].order.orderId == orderId;
      }
      if exists j, k :: from <= j < |stops| && AwaitsDrone(stops[j])
          && 0 <= k < |stops[j].routeStopOrders| && stops[j].routeStopOrders[k].order.orderId == orderId {
        var j, k :| from <= j < |stops| && AwaitsDrone(stops[j])
          && 0 <= k < |stops[j].routeStopOrders| && stops[j].routeStopOrders[k].order.orderId == orderId;
        if j == from {
          assert OrderIds(links)[k] == orderId;
        }
      }
    }
  }

  /**
   * The samples and waits of one leg: sample `k` sits at index `2k`, a wait
   * between each two samples.
   */
  function LegMoves(leg: nat, start: Point, end: Point, steps: int, batteryPct: real,
                    recipients: seq<int>): seq<FlightEvent>
    requires steps >= 1
  {
    seq(2 * steps + 1, k requires 0 <= k < 2 * steps + 1 =>
      if k % 2 == 0 then
        Position(leg, k / 2, (k / 2) as real / steps as real,
                 Interpolate(start, end, (k / 2) as real / steps as real), batteryPct, recipients)
      else Wait)
  }

  /** Everything leg `i` records: its moves, then the arrival at stop `i`. */
  function LegEvents(stops: seq<RouteStop>, dist: Metric, capacity: int, i: nat): seq<FlightEvent>
    requires i < |stops| && capacity != 0
    reads stops
  {
    LegMoves(i, LegStart(stops, i), stops[i].location, Steps(LegKm(stops, dist, i)),
             BatteryPct(TravelledKm(stops, dist, i + 1), capacity), Recipients(stops, i))
    + [StopArrival(stops[i].stopId)]
  }

  /** The trace up to and including the arrival at stop `n - 1`. */
  function FlightEvents(stops: seq<RouteStop>, dist: Metric, capacity: int, n: nat): seq<FlightEvent>
    requires n <= |stops| && capacity != 0
    reads stops
  {
    if n == 0 then [FlightEvent.Launched]
    else FlightEvents(stops, dist, capacity, n - 1) + LegEvents(stops, dist, capacity, n - 1)
  }

  /** The whole trace of a flight over `stops`; nothing happens without stops. */
  function FlightTrace(stops: seq<RouteStop>, dist: Metric, capacity: int): seq<FlightEvent>
    requires capacity != 0
    reads stops
  {
    if |stops| == 0 then [] else FlightEvents(stops, dist, capacity, |stops|)
  }

  /** Sample `step` of a leg and the wait after it, where there is one. */
  lemma MoveAt(leg: nat, start: Point, end: Point, steps: int, batteryPct: real, recipients: seq<int>, step: nat)
    requires steps >= 1 && step <= steps
    ensures 2 * step < |LegMoves(leg, start, end, steps, batteryPct, recipients)|
    ensures LegMoves(leg, start, end, steps, batteryPct, recipients)[2 * step]
      == Position(leg, step, step as real / steps as real,
                  Interpolate(start, end, step as real / steps as real), batteryPct, recipients)
    ensures step < steps ==> LegMoves(leg, start, end, steps, batteryPct, recipients)[2 * step + 1] == Wait
  {
    assert (2 * step) % 2 == 0 && (2 * step) / 2 == step;
    assert (2 * step + 1) % 2 == 1;
  }

  /** The samples of one leg, with the two-second wait between each two. */
  method SampleLeg(leg: nat, start: Point, end: Point, steps: int, batteryPct: real, recipients: seq<int>)
    returns (moves: seq<FlightEvent>)
    requires steps >= 1
    ensures moves == LegMoves(leg, start, end, steps, batteryPct, recipients)
  {
    ghost var all := LegMoves(leg, start, end, steps, batteryPct, recipients);
    moves := [];
    for step := 0 to steps + 1
      invariant step <= steps ==> moves == all[..2 * step]
      invariant step == steps + 1 ==> moves == all
    {
      MoveAt(leg, start, end, steps, batteryPct, recipients, step);
      var fraction := step as real / steps as real;
      var position := Interpolate(start, end, fraction);
      moves := moves + [Position(leg, step, fraction, position, batteryPct, recipients)];
      if step < steps {
        moves := moves + [Wait];
        assert all[..2 * step + 2] == all[..2 * step] + [all[2 * step], all[2 * step + 1]];
      } else {
        assert all == all[..2 * step] + [all[2 * step]];
      }
    }
  }

  /**
   * One leg of the flight: `steps + 1` samples from the leg's start to stop
   * `i` with a wait between each two, then the arrival at stop `i`. Every
   * sample reports the battery left after the whole leg.
   */
  method FlyLeg(stops: seq<RouteStop>, dist: Metric, capacity: int, i: nat, travelledBefore: real)
    returns (events: seq<FlightEvent>, travelled: real)
    requires i < |stops| && capacity != 0
    requires travelledBefore == TravelledKm(stops, dist, i)
    ensures travelled == TravelledKm(stops, dist, i + 1)
    ensures events == LegEvents(stops, dist, capacity, i)
  {
    var start := LegStart(stops, i);
    var end := stops[i].location;
    var legKm := dist(start, end);
    travelled := travelledBefore + legKm;
    var steps := Steps(legKm);
    var batteryPct := BatteryPct(travelled, capacity);
    var recipients := Recipients(stops, i);
    var moves := SampleLeg(i, start, end, steps, batteryPct, recipients);
    events := moves + [StopArrival(stops[i].stopId)];
  }

  /** The flight itself, leg after leg, from the launch to the arrival at the last stop. */
  method FlyLegs(stops: seq<RouteStop>, dist: Metric, capacity: int)
    returns (trace: seq<FlightEvent>, travelled: real)
    requires |stops| > 0 && capacity != 0
    ensures trace == FlightTrace(stops, dist, capacity)
    ensures travelled == TravelledKm(stops, dist, |stops|)
  {
    trace := [FlightEvent.Launched];
    travelled := 0.0;
    for i := 0 to |stops|
      invariant travelled == TravelledKm(stops, dist, i)
      invariant trace == FlightEvents(stops, dist, capacity, i)
    {
      var legEvents;
      legEvents, travelled := FlyLeg(stops, dist, capacity, i, travelled);
      trace := trace + legEvents;
    }
  }

  /**
   * Flies `route` over its stops: LAUNCHED first, then leg by leg, then
   * COMPLETED, the drone IDLE and a SUCCESS flight log with the distance
   * flown. A route without stops is left as it is.
   */
  method SimulateFlight(route: Route, dist: Metric, logId: int, launchAt: Time, startAt: Time, finishAt: Time)
    returns (trace: seq<FlightEvent>, log: FlightLog?)
    requires InSequenceOrder(route.routeStops)
    requires route.drone.batteryCapacity != 0
    modifies route`status, route`launchedAt, route`completedAt, route.drone`status
    ensures |route.routeStops| == 0 ==>
      && trace == [] && log == null
      && route.status == old(route.status) && route.launchedAt == old(route.launchedAt)
      && route.completedAt == old(route.completedAt) && route.drone.status == old(route.drone.status)
    ensures |route.routeStops| > 0 ==>
      && trace == FlightTrace(route.routeStops, dist, route.drone.batteryCapacity)
      && route.status == Completed && route.launchedAt == Some(launchAt)
      && route.completedAt == Some(finishAt) && route.drone.status == Idle
      && log != null && fresh(log)
      && log.flightLogId == logId && log.route == route && log.drone == route.drone
      && log.startTime == startAt && log.endTime == Some(finishAt)
      && log.distanceKm == Some(TravelledKm(route.routeStops, dist, |route.routeStops|))
      && log.batteryUsed == Some(BatteryUsed(TravelledKm(route.routeStops, dist, |route.routeStops|)))
      && log.durationMin.None? && log.maxAltitudeM.None? && log.avgSpeedKmh.None?
      && log.result == FlightResult.Success && log.errorMessage.None?
  {
    var stops := route.routeStops;
    if |stops| == 0 {
      return [], null;
    }
    route.Launch(launchAt);
    var drone := route.drone;
    var travelled;
    trace, travelled := FlyLegs(stops, dist, drone.batteryCapacity);
    route.Complete(finishAt);
    drone.ChangeStatus(Idle);
    log := new FlightLog(logId, route, drone, startAt, Some(finishAt), Some(travelled), None, None, None,
                         Some(BatteryUsed(travelled)), FlightResult.Success, None);
  }

  /**
   * The moves of one leg: `steps + 1` samples at the even indices, a wait at
   * each odd index, fractions `k / steps` rising from 0 at `start` to 1 at
   * `end`.
   */
  lemma MovesShape(leg: nat, start: Point, end: Point, steps: int, batteryPct: real, recipients: seq<int>)
    requires steps >= 1
    ensures |LegMoves(leg, start, end, steps, batteryPct, recipients)| == 2 * steps + 1
    ensures forall k :: 0 <= k < 2 * steps + 1 ==>
      (LegMoves(leg, start, end, steps, batteryPct, recipients)[k].Position? <==> k % 2 == 0)
    ensures forall k :: 0 <= k < 2 * steps + 1 ==>
      (LegMoves(leg, start, end, steps, batteryPct, recipients)[k].Wait? <==> k % 2 == 1)
    ensures forall k :: 0 <= k < 2 * steps + 1 && k % 2 == 0 ==>
      var e := LegMoves(leg, start, end, steps, batteryPct, recipients)[k];
      && e.leg == leg && e.step == k / 2 && e.fraction == (k / 2) as real / steps as real
      && e.batteryPct == batteryPct && e.recipients == recipients
  {
  }

  /** The first sample sits at the leg's start, the last at its end, and every fraction lies in [0, 1]. */
  lemma MovesEnds(leg: nat, start: Point, end: Point, steps: int, batteryPct: real, recipients: seq<int>)
    requires steps >= 1
    ensures LegMoves(leg, start, end, steps, batteryPct, recipients)[0].fraction == 0.0
    ensures LegMoves(leg, start, end, steps, batteryPct, recipients)[0].location == start
    ensures LegMoves(leg, start, end, steps, batteryPct, recipients)[2 * steps].fraction == 1.0
    ensures LegMoves(leg, start, end, steps, batteryPct, recipients)[2 * steps].location == end
    ensures forall k :: 0 <= k < 2 * steps + 1 && k % 2 == 0 ==>
      0.0 <= LegMoves(leg, start, end, steps, batteryPct, recipients)[k].fraction <= 1.0
  {
    var moves := LegMoves(leg, start, end, steps, batteryPct, recipients);
    assert moves[0].fraction == 0.0 / steps as real == 0.0;
    assert (2 * steps) / 2 == steps && (2 * steps) % 2 == 0;
    WholeFraction(steps);
    forall k | 0 <= k < 2 * steps + 1 && k % 2 == 0
      ensures 0.0 <= moves[k].fraction <= 1.0
    {
      FractionInUnit(k / 2, steps);
    }
  }

  /** One leg: `2 * steps + 1` moves, then the arrival at stop `i` and nothing else. */
  lemma LegShape(stops: seq<RouteStop>, dist: Metric, capacity: int, i: nat)
    requires i < |stops| && capacity != 0
    ensures |LegEvents(stops, dist, capacity, i)| == 2 * Steps(LegKm(stops, dist, i)) + 2
    ensures LegEvents(stops, dist, capacity, i)[2 * Steps(LegKm(stops, dist, i)) + 1] == StopArrival(stops[i].stopId)
    ensures forall k :: 0 <= k < 2 * Steps(LegKm(stops, dist, i)) + 1 ==>
      LegEvents(stops, dist, capacity, i)[k].Position? || LegEvents(stops, dist, capacity, i)[k].Wait?
  {
    var steps := Steps(LegKm(stops, dist, i));
    var moves := LegMoves(i, LegStart(stops, i), stops[i].location, steps,
                          BatteryPct(TravelledKm(stops, dist, i + 1), capacity), Recipients(stops, i));
    MovesShape(i, LegStart(stops, i), stops[i].location, steps,
               BatteryPct(TravelledKm(stops, dist, i + 1), capacity), Recipients(stops, i));
    assert LegEvents(stops, dist, capacity, i) == moves + [StopArrival(stops[i].stopId)];
  }

  lemma WholeFraction(steps: int)
    requires steps >= 1
    ensures steps as real / steps as real == 1.0
  {
  }

  lemma FractionInUnit(step: int, steps: int)
    requires 0 <= step <= steps && steps >= 1
    ensures 0.0 <= step as real / steps as real <= 1.0
  {
    assert step as real <= steps as real;
  }

  /** Later samples of a leg lie further along it. */
  lemma FractionsIncrease(leg: nat, start: Point, end: Point, steps: int, batteryPct: real,
                          recipients: seq<int>, earlier: nat, later: nat)
    requires steps >= 1 && earlier < later <= steps
    ensures LegMoves(leg, start, end, steps, batteryPct, recipients)[2 * earlier].fraction
          < LegMoves(leg, start, end, steps, batteryPct, recipients)[2 * later].fraction
  {
    MoveAt(leg, start, end, steps, batteryPct, recipients, earlier);
    MoveAt(leg, start, end, steps, batteryPct, recipients, later);
    FractionLess(earlier, later, steps);
  }

  lemma FractionLess(x: int, y: int, steps: int)
    requires x < y && steps >= 1
    ensures x as real / steps as real < y as real / steps as real
  {
    var n := steps as real;
    assert y as real / n - x as real / n == (y - x) as real / n;
  }

  /** Every sample of a leg lies inside the box spanned by the leg's two ends. */
  lemma SamplesStayOnLeg(leg: nat, start: Point, end: Point, steps: int, batteryPct: real,
                         recipients: seq<int>, step: nat)
    requires steps >= 1 && step <= steps
    ensures var p := LegMoves(leg, start, end, steps, batteryPct, recipients)[2 * step].location;
      Between(start.lat, p.lat, end.lat) && Between(start.lng, p.lng, end.lng)
  {
    MoveAt(leg, start, end, steps, batteryPct, recipients, step);
    FractionInUnit(step, steps);
    InterpolateStaysBetween(start, end, step as real / steps as real);
  }

  /** A wait always sits between two samples: never first, never last, never before an arrival. */
  predicate WaitsBetweenSamples(events: seq<FlightEvent>) {
    forall k :: 0 <= k < |events| && events[k].Wait? ==>
      0 < k < |events| - 1 && events[k - 1].Position? && events[k + 1].Position?
  }

  lemma WaitsBetweenSamplesConcat(a: seq<FlightEvent>, b: seq<FlightEvent>)
    requires WaitsBetweenSamples(a) && WaitsBetweenSamples(b)
    ensures WaitsBetweenSamples(a + b)
  {
    var ab := a + b;
    forall k | 0 <= k < |ab| && ab[k].Wait?
      ensures 0 < k < |ab| - 1 && ab[k - 1].Position? && ab[k + 1].Position?
    {
      if k < |a| {
        assert a[k].Wait?;
      } else {
        assert b[k - |a|].Wait?;
      }
    }
  }

  lemma LegWaitsBetweenSamples(leg: nat, start: Point, end: Point, steps: int, batteryPct: real,
                               recipients: seq<int>, stopId: int)
    requires steps >= 1
    ensures WaitsBetweenSamples(LegMoves(leg, start, end, steps, batteryPct, recipients) + [StopArrival(stopId)])
  {
    MovesShape(leg, start, end, steps, batteryPct, recipients);
    var events := LegMoves(leg, start, end, steps, batteryPct, recipients) + [StopArrival(stopId)];
    forall k | 0 <= k < |events| && events[k].Wait?
      ensures 0 < k < |events| - 1 && events[k - 1].Position? && events[k + 1].Position?
    {
      assert k < 2 * steps + 1;
      assert k % 2 == 1;
      assert (k - 1) % 2 == 0 && (k + 1) % 2 == 0;
    }
  }

  lemma {:induction false} FlightWaitsBetweenSamples(stops: seq<RouteStop>, dist: Metric, capacity: int, n: nat)
    requires n <= |stops| && capacity != 0
    ensures WaitsBetweenSamples(FlightEvents(stops, dist, capacity, n))
  {
    if n > 0 {
      FlightWaitsBetweenSamples(stops, dist, capacity, n - 1);
      LegWaitsBetweenSamples(n - 1, LegStart(stops, n - 1), stops[n - 1].location, Steps(LegKm(stops, dist, n - 1)),
                             BatteryPct(TravelledKm(stops, dist, n), capacity), Recipients(stops, n - 1),
                             stops[n - 1].stopId);
      WaitsBetweenSamplesConcat(FlightEvents(stops, dist, capacity, n - 1), LegEvents(stops, dist, capacity, n - 1));
    }
  }

  /** The stop ids of the arrivals in `events`, in order. */
  function ArrivalIds(events: seq<FlightEvent>): seq<int> {
    if |events| == 0 then []
    else ArrivalIds(events[..|events| - 1])
         + (if events[|events| - 1].StopArrival? then [events[|events| - 1].stopId] else [])
  }

  lemma {:induction false} ArrivalIdsAppend(a: seq<FlightEvent>, b: seq<FlightEvent>)
    ensures ArrivalIds(a + b) == ArrivalIds(a) + ArrivalIds(b)
    decreases |b|
  {
    if |b| > 0 {
      var ab := a + b;
      assert ab[..|ab| - 1] == a + b[..|b| - 1];
      ArrivalIdsAppend(a, b[..|b| - 1]);
    } else {
      assert a + b == a;
    }
  }

  lemma {:induction false} NoArrivalIds(events: seq<FlightEvent>)
    requires forall k :: 0 <= k < |events| ==> !events[k].StopArrival?
    ensures ArrivalIds(events) == []
  {
    if |events| > 0 {
      NoArrivalIds(events[..|events| - 1]);
    }
  }

  function StopIds(stops: seq<RouteStop>): seq<int> {
    seq(|stops|, k requires 0 <= k < |stops| => stops[k].stopId)
  }

  /** A leg arrives exactly once, at its own stop. */
  lemma LegArrivals(leg: nat, start: Point, end: Point, steps: int, batteryPct: real,
                    recipients: seq<int>, stopId: int)
    requires steps >= 1
    ensures ArrivalIds(LegMoves(leg, start, end, steps, batteryPct, recipients) + [StopArrival(stopId)]) == [stopId]
  {
    var moves := LegMoves(leg, start, end, steps, batteryPct, recipients);
    MovesShape(leg, start, end, steps, batteryPct, recipients);
    NoArrivalIds(moves);
    var events := moves + [StopArrival(stopId)];
    assert events[..|events| - 1] == moves;
  }

  /** Each stop is arrived at exactly once, in list order, and nothing else arrives. */
  lemma {:induction false} ArrivalsInStopOrder(stops: seq<RouteStop>, dist: Metric, capacity: int, n: nat)
    requires n <= |stops| && capacity != 0
    ensures ArrivalIds(FlightEvents(stops, dist, capacity, n)) == StopIds(stops[..n])
  {
    if n == 0 {
      assert ArrivalIds([FlightEvent.Launched]) == ArrivalIds([]) + [];
    } else {
      var prior := FlightEvents(stops, dist, capacity, n - 1);
      var leg := LegEvents(stops, dist, capacity, n - 1);
      ArrivalsInStopOrder(stops, dist, capacity, n - 1);
      LegArrivals(n - 1, LegStart(stops, n - 1), stops[n - 1].location, Steps(LegKm(stops, dist, n - 1)),
                  BatteryPct(TravelledKm(stops, dist, n), capacity), Recipients(stops, n - 1),
                  stops[n - 1].stopId);
      assert ArrivalIds(leg) == [stops[n - 1].stopId];
      ArrivalIdsAppend(prior, leg);
      StopIdsSnoc(stops, n);
      assert FlightEvents(stops, dist, capacity, n) == prior + leg;
    }
  }

  lemma StopIdsSnoc(stops: seq<RouteStop>, n: nat)
    requires 0 < n <= |stops|
    ensures StopIds(stops[..n]) == StopIds(stops[..n - 1]) + [stops[n - 1].stopId]
  {
  }

  /** The battery figure each leg reports: what is left after flying it. */
  function BatteryLevels(stops: seq<RouteStop>, dist: Metric, capacity: int): (levels: seq<real>)
    requires capacity != 0
    ensures |levels| == |stops|
  {
    seq(|stops|, l requires 0 <= l < |stops| => BatteryPct(TravelledKm(stops, dist, l + 1), capacity))
  }

  /**
   * Every sample belongs to one of the first `n` legs and reports that leg's
   * battery level, and samples appear leg by leg.
   */
  predicate BatteryTagged(events: seq<FlightEvent>, levels: seq<real>, n: nat)
    requires n <= |levels|
  {
    && (forall k :: 0 <= k < |events| && events[k].Position? ==>
          events[k].leg < n && events[k].batteryPct == levels[events[k].leg])
    && (forall a, b :: 0 <= a < b < |events| && events[a].Position? && events[b].Position? ==>
          events[a].leg <= events[b].leg)
  }

  lemma BatteryTaggedConcat(prior: seq<FlightEvent>, leg: seq<FlightEvent>, levels: seq<real>, n: nat)
    requires 0 < n <= |levels|
    requires BatteryTagged(prior, levels, n - 1)
    requires forall k :: 0 <= k < |leg| && leg[k].Position? ==>
      leg[k].leg == n - 1 && leg[k].batteryPct == levels[n - 1]
    ensures BatteryTagged(prior + leg, levels, n)
  {
    var all := prior + leg;
    forall a, b | 0 <= a < b < |all| && all[a].Position? && all[b].Position?
      ensures all[a].leg <= all[b].leg
    {
      if b >= |prior| {
        assert all[b] == leg[b - |prior|];
        if a >= |prior| {
          assert all[a] == leg[a - |prior|];
        } else {
          assert all[a] == prior[a];
        }
      }
    }
  }

  lemma {:induction false} FlightBatteryTagged(stops: seq<RouteStop>, dist: Metric, capacity: int, n: nat)
    requires n <= |stops| && capacity != 0
    ensures BatteryTagged(FlightEvents(stops, dist, capacity, n), BatteryLevels(stops, dist, capacity), n)
  {
    if n > 0 {
      FlightBatteryTagged(stops, dist, capacity, n - 1);
      var steps := Steps(LegKm(stops, dist, n - 1));
      MovesShape(n - 1, LegStart(stops, n - 1), stops[n - 1].location, steps,
                 BatteryPct(TravelledKm(stops, dist, n), capacity), Recipients(stops, n - 1));
      BatteryTaggedConcat(FlightEvents(stops, dist, capacity, n - 1), LegEvents(stops, dist, capacity, n - 1),
                          BatteryLevels(stops, dist, capacity), n);
    }
  }

  /** Later legs report no more battery than earlier ones, and every level lies in [0, 100]. */
  lemma BatteryLevelsNonIncreasing(stops: seq<RouteStop>, dist: Metric, capacity: int, la: nat, lb: nat)
    requires capacity > 0 && la <= lb < |stops|
    ensures BatteryLevels(stops, dist, capacity)[lb] <= BatteryLevels(stops, dist, capacity)[la]
    ensures 0.0 <= BatteryLevels(stops, dist, capacity)[lb]
    ensures BatteryLevels(stops, dist, capacity)[la] <= InitialBattery
  {
    var near, far := TravelledKm(stops, dist, la + 1), TravelledKm(stops, dist, lb + 1);
    TravelledMonotone(stops, dist, la + 1, lb + 1);
    BatteryNonIncreasing(near, far, capacity);
    BatteryInRange(near, capacity);
    BatteryInRange(far, capacity);
  }

  /** Along the whole flight the reported battery never rises and stays within [0, 100]. */
  lemma BatteryNeverRises(stops: seq<RouteStop>, dist: Metric, capacity: int, a: nat, b: nat)
    requires capacity > 0
    requires a < b < |FlightTrace(stops, dist, capacity)|
    requires FlightTrace(stops, dist, capacity)[a].Position? && FlightTrace(stops, dist, capacity)[b].Position?
    ensures var trace := FlightTrace(stops, dist, capacity);
      && trace[b].batteryPct <= trace[a].batteryPct
      && 0.0 <= trace[b].batteryPct && trace[a].batteryPct <= InitialBattery
  {
    var trace := FlightTrace(stops, dist, capacity);
    assert trace == FlightEvents(stops, dist, capacity, |stops|);
    FlightBatteryTagged(stops, dist, capacity, |stops|);
    BatteryLevelsNonIncreasing(stops, dist, capacity, trace[a].leg, trace[b].leg);
  }

  /** The whole flight, from the launch to the last stop. */
  lemma FlightTraceShape(stops: seq<RouteStop>, dist: Metric, capacity: int)
    requires |stops| > 0 && capacity != 0
    ensures var trace := FlightTrace(stops, dist, capacity);
      && trace[0] == FlightEvent.Launched
      && trace[|trace| - 1] == StopArrival(stops[|stops| - 1].stopId)
      && ArrivalIds(trace) == StopIds(stops)
      && WaitsBetweenSamples(trace)
  {
    ArrivalsInStopOrder(stops, dist, capacity, |stops|);
    FlightWaitsBetweenSamples(stops, dist, capacity, |stops|);
    LegShape(stops, dist, capacity, |stops| - 1);
    assert |stops| - 1 + 1 == |stops|;
    LaunchedFirst(stops, dist, capacity, |stops|);
    assert stops[..|stops|] == stops;
  }

  lemma {:induction false} LaunchedFirst(stops: seq<RouteStop>, dist: Metric, capacity: int, n: nat)
    requires n <= |stops| && capacity != 0
    ensures |FlightEvents(stops, dist, capacity, n)| > 0
    ensures FlightEvents(stops, dist, capacity, n)[0] == FlightEvent.Launched
  {
    if n > 0 {
      LaunchedFirst(stops, dist, capacity, n - 1);
    }
  }
}
