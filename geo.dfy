/** Coordinates, great-circle distance and linear interpolation (GeoUtils).
    The haversine formula itself is floating-point trigonometry; it enters the
    model as a parameter `dist: Metric` whose only known facts are that it is a
    non-negative number of kilometres bounded by half the Earth's circumference. */
module Geo {

  /** A latitude/longitude pair in degrees. */
  datatype Point = Point(lat: real, lng: real)

  /** 6371 km times pi, rounded up: `EARTH_RADIUS_KM * c` with `c = 2 atan2(..)` in [0, pi]. */
  const MaxGreatCircleKm: real := 20016.0

  /** A haversine distance in kilometres. */
  type Km = r: real | 0.0 <= r <= MaxGreatCircleKm

  /** `GeoUtils.calculateDistance`, abstracted. */
  type Metric = (Point, Point) -> Km

  predicate Between(lo: real, x: real, hi: real) {
    (lo <= x <= hi) || (hi <= x <= lo)
  }

  /** `GeoUtils.interpolate`: linear interpolation in coordinate space. */
  function Interpolate(start: Point, end: Point, fraction: real): (p: Point)
    ensures fraction == 0.0 ==> p == start
    ensures fraction == 1.0 ==> p == end
    ensures start == end ==> p == start
  {
    Point(start.lat + (end.lat - start.lat) * fraction,
          start.lng + (end.lng - start.lng) * fraction)
  }

  lemma ScaledDeltaBetween(lo: real, hi: real, fraction: real)
    requires 0.0 <= fraction <= 1.0
    ensures Between(lo, lo + (hi - lo) * fraction, hi)
  {
    var d := hi - lo;
    if d >= 0.0 {
      assert d * fraction <= d * 1.0 by {
        assert d * (1.0 - fraction) >= 0.0;
      }
    } else {
      assert d * fraction >= d * 1.0 by {
        assert (-d) * (1.0 - fraction) >= 0.0;
      }
    }
  }

  /** For a fraction in [0, 1] each coordinate lies between the two endpoints. */
  lemma InterpolateStaysBetween(start: Point, end: Point, fraction: real)
    requires 0.0 <= fraction <= 1.0
    ensures Between(start.lat, Interpolate(start, end, fraction).lat, end.lat)
    ensures Between(start.lng, Interpolate(start, end, fraction).lng, end.lng)
  {
    ScaledDeltaBetween(start.lat, end.lat, fraction);
    ScaledDeltaBetween(start.lng, end.lng, fraction);
  }

  /** `GeoUtils.isWithinRadius`. */
  predicate IsWithinRadius(dist: Metric, center: Point, target: Point, radiusKm: real)
    ensures radiusKm < 0.0 ==> !IsWithinRadius(dist, center, target, radiusKm)
    ensures MaxGreatCircleKm <= radiusKm ==> IsWithinRadius(dist, center, target, radiusKm)
  {
    dist(center, target) <= radiusKm
  }
}
