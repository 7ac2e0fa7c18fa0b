/**
 * Nearest-neighbour ordering of the deliveries of one store, and the length
 * of the tour that visits them. The optimiser is generic in the element type:
 * `dest` says where an element is delivered.
 */
module RouteOptimizer {
  import opened Wrappers
  import opened Geo
  import opened StoreEntities

  /** Double.MAX_VALUE, the "no candidate yet" distance of the inner scan. */
  const MaxDouble: real := 1.7976931348623157e308

  predicate Distinct<T(==)>(s: seq<T>) {
    forall i, j :: 0 <= i < j < |s| ==> s[i] != s[j]
  }

  function Dests<T>(dest: T -> Point, route: seq<T>): (ps: seq<Point>)
    ensures |ps| == |route|
    ensures forall i :: 0 <= i < |route| ==> ps[i] == dest(route[i])
  {
    seq(|route|, i requires 0 <= i < |route| => dest(route[i]))
  }

  /** Where the drone is before leg k: the store, then each destination in turn. */
  function PositionBefore(start: Point, stops: seq<Point>, k: nat): Point
    requires k <= |stops|
  {
    if k == 0 then start else stops[k - 1]
  }

  /** Where the drone is before leg k of `route`. */
  function Before<T>(start: Point, dest: T -> Point, route: seq<T>, k: nat): Point
    requires k <= |route|
  {
    if k == 0 then start else dest(route[k - 1])
  }

  /** Length of the way from the position before leg k to the destination of x. */
  function Leg<T>(start: Point, dest: T -> Point, dist: Metric, route: seq<T>, k: nat, x: T): real
    requires k <= |route|
  {
    dist(Before(start, dest, route, k), dest(x))
  }

  /**
   * Every leg goes to the closest of the destinations not yet visited:
   * leg k is no longer than the way from the same position to any later one.
   */
  predicate IsGreedy<T>(start: Point, dest: T -> Point, dist: Metric, route: seq<T>) {
    forall k, j {:trigger Leg(start, dest, dist, route, k, route[j])} :: 0 <= k <= j < |route| ==>
      Leg(start, dest, dist, route, k, route[k]) <= Leg(start, dest, dist, route, k, route[j])
  }

  /** No element of `rest` would have been a shorter choice at any leg of `route`. */
  predicate NoCloserIn<T>(start: Point, dest: T -> Point, dist: Metric, route: seq<T>, rest: set<T>) {
    forall k, x :: 0 <= k < |route| && x in rest ==>
      Leg(start, dest, dist, route, k, route[k]) <= Leg(start, dest, dist, route, k, x)
  }

  /**
   * Nearest-neighbour ordering. An empty input gives an empty route, a single
   * element is returned as it is, and otherwise every distinct element is
   * placed exactly once, each one the closest unvisited destination from the
   * previous one (the store first). The set is scanned in an unspecified
   * order, and among equally close candidates the first one met is kept.
   */
  method OptimizeRoute<T(==)>(orders: seq<T>, store: Store, dest: T -> Point, dist: Metric)
    returns (route: seq<T>)
    ensures |orders| == 0 ==> route == []
    ensures |orders| == 1 ==> route == orders
    ensures Distinct(route)
    ensures forall x :: x in route <==> x in orders
    ensures IsGreedy(store.location, dest, dist, route)
  {
    if |orders| == 0 {
      return [];
    }
    if |orders| == 1 {
      return orders;
    }
    route := [];
    var unvisited: set<T> := set x | x in orders;
    var current := store.location;
    while unvisited != {}
      invariant forall x :: x in orders <==> x in route || x in unvisited
      invariant forall x :: x in route ==> x !in unvisited
      invariant Distinct(route)
      invariant current == Before(store.location, dest, route, |route|)
      invariant IsGreedy(store.location, dest, dist, route)
      invariant NoCloserIn(store.location, dest, dist, route, unvisited)
      decreases |unvisited|
    {
      var next := FindNearest(unvisited, current, dest, dist);
      GreedyExtend(store.location, dest, dist, route, unvisited, next);
      route := route + [next];
      unvisited := unvisited - {next};
      current := dest(next);
    }
  }

  /**
   * One pass of the inner scan: the first element met whose distance from
   * `current` is strictly below the best so far ends up the nearest one.
   */
  method FindNearest<T(==)>(unvisited: set<T>, current: Point, dest: T -> Point, dist: Metric)
    returns (next: T)
    requires unvisited != {}
    ensures next in unvisited
    ensures forall x :: x in unvisited ==> dist(current, dest(next)) <= dist(current, dest(x))
  {
    var nearest: Option<T> := None;
    var minDistance := MaxDouble;
    var toScan := unvisited;
    while toScan != {}
      invariant toScan <= unvisited
      invariant nearest.None? ==> toScan == unvisited && minDistance == MaxDouble
      invariant nearest.Some? ==> nearest.value in unvisited && minDistance == dist(current, dest(nearest.value))
      invariant forall x :: x in unvisited && x !in toScan ==> minDistance <= dist(current, dest(x))
      decreases |toScan|
    {
      var order :| order in toScan;
      var distance := dist(current, dest(order));
      if distance < minDistance {
        minDistance := distance;
        nearest := Some(order);
      }
      toScan := toScan - {order};
    }
    // every distance is below MaxDouble, so a non-empty scan always finds one
    assert nearest.Some?;
    next := nearest.value;
  }

  /** Appending the closest unvisited element keeps the route greedy. */
  lemma GreedyExtend<T>(start: Point, dest: T -> Point, dist: Metric, route: seq<T>, unvisited: set<T>, next: T)
    requires IsGreedy(start, dest, dist, route)
    requires NoCloserIn(start, dest, dist, route, unvisited)
    requires next in unvisited
    requires forall x :: x in unvisited ==>
      Leg(start, dest, dist, route, |route|, next) <= Leg(start, dest, dist, route, |route|, x)
    ensures IsGreedy(start, dest, dist, route + [next])
    ensures NoCloserIn(start, dest, dist, route + [next], unvisited - {next})
  {
    var r := route + [next];
    assert forall k, x :: 0 <= k <= |route| ==>
      Leg(start, dest, dist, r, k, x) == Leg(start, dest, dist, route, k, x);
  }

  /** Length of the path from `start` through every point of `stops` in order. */
  function PathKm(start: Point, stops: seq<Point>, dist: Metric): real
  {
    if |stops| == 0 then 0.0
    else PathKm(start, stops[..|stops| - 1], dist)
         + dist(PositionBefore(start, stops, |stops| - 1), stops[|stops| - 1])
  }

  /** Length of the closed tour start → stops… → start. */
  function RoundTripKm(start: Point, stops: seq<Point>, dist: Metric): real {
    PathKm(start, stops, dist) + dist(PositionBefore(start, stops, |stops|), start)
  }

  /** The optimiser's tour length: zero for no stops, else the closed tour. */
  function TourKm(start: Point, stops: seq<Point>, dist: Metric): real {
    if |stops| == 0 then 0.0 else RoundTripKm(start, stops, dist)
  }

  /** Total distance of an ordered route, returning to the store at the end. */
  method CalculateTotalDistance<T>(route: seq<T>, store: Store, dest: T -> Point, dist: Metric)
    returns (total: real)
    ensures total == TourKm(store.location, Dests(dest, route), dist)
  {
    if |route| == 0 {
      return 0.0;
    }
    ghost var stops := Dests(dest, route);
    total := 0.0;
    var current := store.location;
    for i := 0 to |route|
      invariant current == PositionBefore(store.location, stops, i)
      invariant total == PathKm(store.location, stops[..i], dist)
    {
      assert stops[..i + 1][..i] == stops[..i];
      total := total + dist(current, dest(route[i]));
      current := dest(route[i]);
    }
    assert stops[..|route|] == stops;
    total := total + dist(current, store.location);
  }

  /** Each leg is at most half the Earth's circumference, so a tour of n stops is bounded. */
  lemma {:induction false} PathKmBounds(start: Point, stops: seq<Point>, dist: Metric)
    ensures 0.0 <= PathKm(start, stops, dist) <= |stops| as real * MaxGreatCircleKm
  {
    if |stops| > 0 {
      PathKmBounds(start, stops[..|stops| - 1], dist);
    }
  }

  lemma RoundTripKmBounds(start: Point, stops: seq<Point>, dist: Metric)
    ensures 0.0 <= RoundTripKm(start, stops, dist) <= (|stops| + 1) as real * MaxGreatCircleKm
  {
    PathKmBounds(start, stops, dist);
  }

  /** Extending the path by one point adds exactly the leg from the old end to it. */
  lemma PathKmAppend(start: Point, stops: seq<Point>, p: Point, dist: Metric)
    ensures PathKm(start, stops + [p], dist)
         == PathKm(start, stops, dist) + dist(PositionBefore(start, stops, |stops|), p)
  {
    assert (stops + [p])[..|stops|] == stops;
  }

  lemma {:induction false} DistinctMultiplicity<T>(s: seq<T>, x: T)
    requires Distinct(s)
    ensures multiset(s)[x] == if x in s then 1 else 0
  {
    if |s| > 0 {
      var init := s[..|s| - 1];
      assert s == init + [s[|s| - 1]];
      assert Distinct(init);
      DistinctMultiplicity(init, x);
    }
  }

  /**
   * On an input without repeats the optimised route is a permutation of it.
   * (With repeats, each repeated element appears once.)
   */
  lemma OptimizedIsPermutation<T>(orders: seq<T>, route: seq<T>)
    requires Distinct(orders) && Distinct(route)
    requires forall x :: x in route <==> x in orders
    ensures multiset(route) == multiset(orders)
  {
    forall x
      ensures multiset(route)[x] == multiset(orders)[x]
    {
      DistinctMultiplicity(route, x);
      DistinctMultiplicity(orders, x);
    }
  }

  /**
   * No position the drone can be at (the start or one of the destinations)
   * is equally far from the destinations of two different elements.
   */
  ghost predicate NoTies<T>(start: Point, dest: T -> Point, dist: Metric, elems: seq<T>) {
    forall p: Point, x, y ::
      (p == start || exists z :: z in elems && p == dest(z)) && x in elems && y in elems && x != y
      ==> dist(p, dest(x)) != dist(p, dest(y))
  }

  /** A distance along the meridian, capped at the largest great-circle distance. */
  function MeridianKm(a: Point, b: Point): Km {
    var delta := if a.lat - b.lat >= 0.0 then a.lat - b.lat else b.lat - a.lat;
    if delta <= MaxGreatCircleKm then delta else MaxGreatCircleKm
  }

  /** Two stops 1 and 3 units north of the start have no ties, so the condition is satisfiable. */
  lemma NoTiesSatisfiable()
    ensures NoTies(Point(0.0, 0.0), (x: int) => Point(x as real, 0.0), MeridianKm, [1, 3])
  {
    var dest := (x: int) => Point(x as real, 0.0);
    forall p: Point, x: int, y: int |
      (p == Point(0.0, 0.0) || exists z :: z in [1, 3] && p == dest(z)) && x in [1, 3] && y in [1, 3] && x != y
      ensures MeridianKm(p, dest(x)) != MeridianKm(p, dest(y))
    {
      var z: int :| (p == Point(0.0, 0.0) && z == 0) || (z in [1, 3] && p == dest(z));
      assert p.lat == z as real;
    }
  }

  /**
   * Without ties the greedy order is unique: whichever order the set is
   * scanned in, the optimiser produces the same route.
   */
  lemma GreedyRouteUnique<T>(start: Point, dest: T -> Point, dist: Metric, r1: seq<T>, r2: seq<T>)
    requires Distinct(r1) && Distinct(r2)
    requires forall x :: x in r1 <==> x in r2
    requires IsGreedy(start, dest, dist, r1) && IsGreedy(start, dest, dist, r2)
    requires NoTies(start, dest, dist, r1)
    ensures r1 == r2
  {
    OptimizedIsPermutation(r1, r2);
    assert |r1| == |multiset(r1)| == |multiset(r2)| == |r2|;
    var k := 0;
    while k < |r1|
      invariant k <= |r1|
      invariant r1[..k] == r2[..k]
    {
      GreedyStepAgrees(start, dest, dist, r1, r2, k);
      assert r1[..k + 1] == r1[..k] + [r1[k]];
      assert r2[..k + 1] == r2[..k] + [r2[k]];
      k := k + 1;
    }
    assert r1 == r1[..k] && r2 == r2[..k];
  }

  /** Two greedy routes over the same elements that agree before leg k also agree at leg k. */
  lemma GreedyStepAgrees<T>(start: Point, dest: T -> Point, dist: Metric, r1: seq<T>, r2: seq<T>, k: nat)
    requires Distinct(r1) && Distinct(r2)
    requires forall x :: x in r1 <==> x in r2
    requires IsGreedy(start, dest, dist, r1) && IsGreedy(start, dest, dist, r2)
    requires NoTies(start, dest, dist, r1)
    requires k < |r1| && k < |r2| && r1[..k] == r2[..k]
    ensures r1[k] == r2[k]
  {
    var p := Before(start, dest, r1, k);
    assert p == Before(start, dest, r2, k) by {
      if k > 0 {
        assert r1[..k][k - 1] == r2[..k][k - 1];
      }
    }
    // each route's leg-k element sits at or after position k in the other route
    assert r2[k] in r1;
    var j1 :| 0 <= j1 < |r1| && r1[j1] == r2[k];
    assert r1[k] in r2;
    var j2 :| 0 <= j2 < |r2| && r2[j2] == r1[k];
    assert Leg(start, dest, dist, r1, k, r1[k]) <= Leg(start, dest, dist, r1, k, r1[j1]);
    assert Leg(start, dest, dist, r2, k, r2[k]) <= Leg(start, dest, dist, r2, k, r2[j2]);
    assert dist(p, dest(r1[k])) == dist(p, dest(r2[k]));
  }
}
