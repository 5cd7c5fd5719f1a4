/**
 * Line geometry of the location scout (src/astro-core/src/scout.rs): bounding boxes around
 * planetary lines, longitude unwrapping, the dateline crossing of a segment, and the minimum
 * distance from a city to a polyline. The great-circle and equirectangular distances are trig,
 * so they enter as function parameters; everything built on top of them is modelled exactly.
 */
module LineGeometry {
  import opened Wrappers
  import opened Angles

  /** A line vertex or a city, as the source's `(lat, lon)` pair in degrees. */
  datatype Point = Point(lat: real, lon: real)

  /** Kilometres per degree of arc at the equator. */
  const KM_PER_DEGREE: real := 111.32

  datatype BoundingBox = BoundingBox(minLat: real, maxLat: real, minLon: real, maxLon: real,
                                     bufferDeg: real)

  /** The box `from_points` returns for a line without points: the whole globe, no buffer. */
  const WHOLE_GLOBE: BoundingBox := BoundingBox(-90.0, 90.0, -180.0, 180.0, 0.0)

  /** Every point lies inside the box's rectangle (without buffer). */
  ghost predicate Encloses(box: BoundingBox, points: seq<Point>)
  {
    forall i :: 0 <= i < |points| ==>
      box.minLat <= points[i].lat <= box.maxLat && box.minLon <= points[i].lon <= box.maxLon
  }

  /** Each edge of the rectangle is the coordinate of some point, so the box is the tightest one. */
  ghost predicate Attained(box: BoundingBox, points: seq<Point>)
  {
    (exists i :: 0 <= i < |points| && points[i].lat == box.minLat)
    && (exists i :: 0 <= i < |points| && points[i].lat == box.maxLat)
    && (exists i :: 0 <= i < |points| && points[i].lon == box.minLon)
    && (exists i :: 0 <= i < |points| && points[i].lon == box.maxLon)
  }

  /**
   * LineBoundingBox::from_points: the extreme latitudes and longitudes of the points, with the
   * buffer converted from kilometres to degrees at the equator.
   */
  method BoxFromPoints(points: seq<Point>, bufferKm: real) returns (box: BoundingBox)
    ensures |points| == 0 ==> box == WHOLE_GLOBE
    ensures |points| > 0 ==> box.minLat <= box.maxLat && box.minLon <= box.maxLon
    ensures |points| > 0 ==> Encloses(box, points) && Attained(box, points)
    ensures |points| > 0 ==> box.bufferDeg == bufferKm / KM_PER_DEGREE
  {
    if |points| == 0 {
      return WHOLE_GLOBE;
    }
    // f64::INFINITY.min(x) is x, so starting from the first point is the same fold.
    var minLat, maxLat, minLon, maxLon := points[0].lat, points[0].lat, points[0].lon, points[0].lon;
    ghost var iMinLat, iMaxLat, iMinLon, iMaxLon := 0, 0, 0, 0;
    var i := 1;
    while i < |points|
      invariant 1 <= i <= |points|
      invariant Encloses(BoundingBox(minLat, maxLat, minLon, maxLon, 0.0), points[..i])
      invariant 0 <= iMinLat < i && points[iMinLat].lat == minLat
      invariant 0 <= iMaxLat < i && points[iMaxLat].lat == maxLat
      invariant 0 <= iMinLon < i && points[iMinLon].lon == minLon
      invariant 0 <= iMaxLon < i && points[iMaxLon].lon == maxLon
    {
      var p := points[i];
      if p.lat < minLat { minLat, iMinLat := p.lat, i; }
      if p.lat > maxLat { maxLat, iMaxLat := p.lat, i; }
      if p.lon < minLon { minLon, iMinLon := p.lon, i; }
      if p.lon > maxLon { maxLon, iMaxLon := p.lon, i; }
      i := i + 1;
    }
    assert points[..i] == points;
    box := BoundingBox(minLat, maxLat, minLon, maxLon, bufferKm / KM_PER_DEGREE);
  }

  /**
   * LineBoundingBox::might_contain: the latitude lies in the buffered band and the longitude in
   * the buffered range, which is read as wrapping through the dateline when min_lon > max_lon.
   */
  function MightContain(box: BoundingBox, cityLat: real, cityLon: real): (r: bool)
    ensures r ==> box.minLat - box.bufferDeg <= cityLat <= box.maxLat + box.bufferDeg
    ensures box.minLon <= box.maxLon ==>
      (r <==> box.minLat - box.bufferDeg <= cityLat <= box.maxLat + box.bufferDeg
              && box.minLon - box.bufferDeg <= cityLon <= box.maxLon + box.bufferDeg)
  {
    var latInRange := cityLat >= box.minLat - box.bufferDeg && cityLat <= box.maxLat + box.bufferDeg;
    if !latInRange then false
    else if box.minLon > box.maxLon then
      cityLon >= box.minLon - box.bufferDeg || cityLon <= box.maxLon + box.bufferDeg
    else
      cityLon >= box.minLon - box.bufferDeg && cityLon <= box.maxLon + box.bufferDeg
  }

  /** A box over some points, with a buffer that is not negative, never rules out one of those points. */
  lemma MightContainOwnPoints(box: BoundingBox, points: seq<Point>, i: int)
    requires Encloses(box, points) && box.bufferDeg >= 0.0
    requires 0 <= i < |points|
    ensures MightContain(box, points[i].lat, points[i].lon)
  {
  }

  /** The whole-globe box admits every city with a valid latitude and longitude. */
  lemma WholeGlobeContainsAll(cityLat: real, cityLon: real)
    requires -90.0 <= cityLat <= 90.0 && -180.0 <= cityLon <= 180.0
    ensures MightContain(WHOLE_GLOBE, cityLat, cityLon)
  {
  }

  /** unwrap_longitude: the reference plus the difference folded into [-180, 180]. */
  method UnwrapLongitude(lon: real, refLon: real) returns (r: real)
    ensures r == refLon + Fold180(lon - refLon)
    ensures -180.0 <= r - refLon <= 180.0 && SameDegrees(r, lon)
  {
    var delta := WrapDelta(lon - refLon);
    r := refLon + delta;
    assert (r - lon) / 360.0 == -((lon - refLon - delta) / 360.0);
    IntegralNeg((lon - refLon - delta) / 360.0);
  }

  /**
   * Reference definition of interpolate_dateline_crossing: the meridian (+180 or -180) in the
   * direction of the unwrapped second endpoint, and the latitude where the segment reaches it.
   * When the unwrapped longitudes coincide the source divides by zero; that latitude is None.
   */
  function DatelineCrossing(lat1: real, lon1: real, lat2: real, lon2: real): (r: (Option<real>, real))
    ensures r.1 == 180.0 || r.1 == -180.0
  {
    var delta := Fold180(lon2 - lon1);
    var crossingLon := if lon1 + delta > lon1 then 180.0 else -180.0;
    if delta == 0.0 then (None, crossingLon)
    else
      (Some(Lerp(lat1, lat2, (crossingLon - lon1) / delta)), crossingLon)
  }

  /** interpolate_dateline_crossing, with the unwrapping loop of unwrap_longitude. */
  method InterpolateDatelineCrossing(lat1: real, lon1: real, lat2: real, lon2: real)
    returns (crossLat: Option<real>, crossLon: real)
    ensures (crossLat, crossLon) == DatelineCrossing(lat1, lon1, lat2, lon2)
  {
    var lon2Unwrapped := UnwrapLongitude(lon2, lon1);
    ghost var delta := Fold180(lon2 - lon1);
    assert lon2Unwrapped == lon1 + delta;
    crossLon := if lon2Unwrapped > lon1 then 180.0 else -180.0;
    if lon2Unwrapped - lon1 == 0.0 {
      crossLat := None;
    } else {
      var t := (crossLon - lon1) / (lon2Unwrapped - lon1);
      assert t == (crossLon - lon1) / delta;
      crossLat := Some(Lerp(lat1, lat2, t));
    }
  }

  /**
   * For a segment between valid longitudes that spans more than 180 degrees (the only one
   * distance_to_line_segment splits), the crossing is on the meridian the short way round,
   * and its latitude lies between the endpoints' latitudes; the one exception is a segment
   * from -180 to +180 (or back), the same meridian, where the latitude is undefined.
   */
  lemma DatelineCrossingBetween(lat1: real, lon1: real, lat2: real, lon2: real)
    requires -180.0 <= lon1 <= 180.0 && -180.0 <= lon2 <= 180.0
    requires lon2 - lon1 > 180.0 || lon2 - lon1 < -180.0
    ensures DatelineCrossing(lat1, lon1, lat2, lon2).0 == None
        <==> (lon1 == -180.0 && lon2 == 180.0) || (lon1 == 180.0 && lon2 == -180.0)
    ensures DatelineCrossing(lat1, lon1, lat2, lon2).0.Some? ==>
              DatelineCrossing(lat1, lon1, lat2, lon2).1 == (if lon2 > lon1 then -180.0 else 180.0)
    ensures DatelineCrossing(lat1, lon1, lat2, lon2).0.Some? ==>
              var lat := DatelineCrossing(lat1, lon1, lat2, lon2).0.value;
              lat1 <= lat <= lat2 || lat2 <= lat <= lat1
  {
    var x := lon2 - lon1;
    var r := DatelineCrossing(lat1, lon1, lat2, lon2);
    if x > 180.0 {
      FoldedByTurns(x, x - 360.0, 1);
      var delta := x - 360.0;
      if delta != 0.0 {
        var t := (-180.0 - lon1) / delta;
        assert r.0.value == Lerp(lat1, lat2, t);
        assert -180.0 - lon1 == -(lon1 + 180.0) && delta == -(360.0 - x);
        NegRatio(lon1 + 180.0, 360.0 - x);
        assert t == (lon1 + 180.0) / (360.0 - x);
        RatioInUnit(lon1 + 180.0, 360.0 - x);
        TweenBetween(lat1, lat2, t);
      }
    } else {
      FoldedByTurns(x, x + 360.0, -1);
      var delta := x + 360.0;
      if delta != 0.0 {
        var t := (180.0 - lon1) / delta;
        assert r.0.value == Lerp(lat1, lat2, t);
        RatioInUnit(180.0 - lon1, delta);
        TweenBetween(lat1, lat2, t);
      }
    }
  }

  /** A quotient whose numerator lies between zero and the denominator is in [0, 1]. */
  lemma RatioInUnit(n: real, d: real)
    requires 0.0 <= n <= d && d > 0.0
    ensures 0.0 <= n / d <= 1.0
  {
    assert n / d * d == n;
  }

  lemma NegRatio(a: real, b: real)
    requires b != 0.0
    ensures (-a) / (-b) == a / b
  {
    var q := a / b;
    assert q * b == a;
    assert q * (-b) == -a;
  }

  lemma MulNonneg(x: real, y: real)
    requires x >= 0.0 && y >= 0.0
    ensures x * y >= 0.0
  {
  }

  /** The point a fraction t of the way from a to b. */
  function Lerp(a: real, b: real, t: real): real
  {
    a + t * (b - a)
  }

  lemma TweenBetween(a: real, b: real, t: real)
    requires 0.0 <= t <= 1.0
    ensures a <= Lerp(a, b, t) <= b || b <= Lerp(a, b, t) <= a
  {
    if a <= b {
      MulNonneg(t, b - a);
      MulNonneg(1.0 - t, b - a);
    } else {
      MulNonneg(t, a - b);
      MulNonneg(1.0 - t, a - b);
    }
  }

  /** A distance that may be `f64::INFINITY`. */
  datatype Distance = Infinite | Km(km: real)

  /** `a < b` on distances, with Infinite above every finite distance. */
  predicate Below(a: Distance, b: Distance)
  {
    a.Km? && (b.Infinite? || a.km < b.km)
  }

  /**
   * The smallest of the first `n` segment distances, keeping the earlier one on a tie as the
   * `if dist < min_distance` update does.
   */
  function SegmentMin(city: Point, line: seq<Point>, segment: (Point, Point, Point) -> real, n: nat): real
    requires 1 <= n < |line|
  {
    if n == 1 then segment(city, line[0], line[1])
    else
      var rest := SegmentMin(city, line, segment, n - 1);
      var dist := segment(city, line[n - 1], line[n]);
      if dist < rest then dist else rest
  }

  /** The running minimum is at most every segment distance and equal to one of them. */
  lemma {:induction false} SegmentMinIsMin(city: Point, line: seq<Point>, segment: (Point, Point, Point) -> real, n: nat)
    requires 1 <= n < |line|
    ensures forall i :: 0 <= i < n ==> SegmentMin(city, line, segment, n) <= segment(city, line[i], line[i + 1])
    ensures exists i :: 0 <= i < n && SegmentMin(city, line, segment, n) == segment(city, line[i], line[i + 1])
  {
    if n > 1 {
      SegmentMinIsMin(city, line, segment, n - 1);
      var rest := SegmentMin(city, line, segment, n - 1);
      var dist := segment(city, line[n - 1], line[n]);
      if dist >= rest {
        var k :| 0 <= k < n - 1 && rest == segment(city, line[k], line[k + 1]);
        assert 0 <= k < n && SegmentMin(city, line, segment, n) == segment(city, line[k], line[k + 1]);
      } else {
        assert line[(n - 1) + 1] == line[n];
        assert SegmentMin(city, line, segment, n) == segment(city, line[n - 1], line[(n - 1) + 1]);
      }
    } else {
      assert SegmentMin(city, line, segment, n) == segment(city, line[0], line[0 + 1]);
    }
  }

  /**
   * Reference definition of distance_to_polyline: infinite without points, the point distance
   * for a single point, otherwise the smallest segment distance.
   */
  function PolylineDistance(city: Point, line: seq<Point>, haversine: (Point, Point) -> real,
                            segment: (Point, Point, Point) -> real): (d: Distance)
    ensures |line| >= 2 ==>
              d.Km?
              && (forall i :: 0 <= i < |line| - 1 ==> d.km <= segment(city, line[i], line[i + 1]))
              && (exists i :: 0 <= i < |line| - 1 && d.km == segment(city, line[i], line[i + 1]))
  {
    if |line| == 0 then Infinite
    else if |line| == 1 then Km(haversine(city, line[0]))
    else
      SegmentMinIsMin(city, line, segment, |line| - 1);
      Km(SegmentMin(city, line, segment, |line| - 1))
  }

  /**
   * distance_to_polyline: a running minimum over the segments. `haversine` and `segment` stand
   * for haversine_distance and distance_to_line_segment.
   */
  method DistanceToPolyline(city: Point, line: seq<Point>, haversine: (Point, Point) -> real,
                            segment: (Point, Point, Point) -> real) returns (d: Distance)
    ensures d == PolylineDistance(city, line, haversine, segment)
  {
    if |line| == 0 {
      return Infinite;
    }
    if |line| == 1 {
      return Km(haversine(city, line[0]));
    }
    var minDistance := Infinite;
    var i := 0;
    while i < |line| - 1
      invariant 0 <= i <= |line| - 1
      invariant i == 0 ==> minDistance == Infinite
      invariant i > 0 ==> minDistance == Km(SegmentMin(city, line, segment, i))
    {
      var dist := segment(city, line[i], line[i + 1]);
      if Below(Km(dist), minDistance) {
        minDistance := Km(dist);
      }
      i := i + 1;
    }
    d := minDistance;
  }

  /** A line after simplification, with its bounding box and the mean of its points. */
  datatype SimplifiedLine = SimplifiedLine(points: seq<Point>, bbox: BoundingBox, centroid: Point)

  /**
   * fast_distance_to_polyline: three cheap rejections (centroid too far, outside the bounding
   * box, every segment endpoint estimated beyond 1.2 times the threshold), then the exact
   * polyline distance, returned only when within the threshold. `estimate` stands for
   * fast_distance_estimate and `sqrt` for f64::sqrt.
   */
  method FastDistanceToPolyline(city: Point, line: SimplifiedLine, thresholdKm: real,
                                estimate: (Point, Point) -> real, sqrt: real -> real,
                                haversine: (Point, Point) -> real, segment: (Point, Point, Point) -> real)
    returns (r: Option<real>)
    ensures r.Some? ==>
              r.value <= thresholdKm && PolylineDistance(city, line.points, haversine, segment) == Km(r.value)
    ensures !MightContain(line.bbox, city.lat, city.lon) ==> r == None
    ensures |line.points| < 2 ==> r == None
    ensures r.Some? ==> exists i :: 0 <= i < |line.points| && estimate(city, line.points[i]) <= thresholdKm * 1.2
  {
    var centroidDist := estimate(city, line.centroid);
    var dLat := line.bbox.maxLat - line.bbox.minLat;
    var dLon := line.bbox.maxLon - line.bbox.minLon;
    var bboxDiagonal := sqrt(dLat * dLat + dLon * dLon) * KM_PER_DEGREE;
    if centroidDist > bboxDiagonal + thresholdKm + 200.0 {
      return None;
    }
    if !MightContain(line.bbox, city.lat, city.lon) {
      return None;
    }
    var minFastDist := Infinite;
    var i := 0;
    var segments := if |line.points| >= 1 then |line.points| - 1 else 0;
    while i < segments
      invariant 0 <= i <= segments
      invariant i == 0 ==> minFastDist == Infinite
      invariant minFastDist.Km? ==>
        exists m :: 0 <= m < |line.points| && estimate(city, line.points[m]) == minFastDist.km
    {
      var d1 := estimate(city, line.points[i]);
      var d2 := estimate(city, line.points[i + 1]);
      var segmentMin := if d1 <= d2 then d1 else d2;
      if Below(Km(segmentMin), minFastDist) {
        minFastDist := Km(segmentMin);
      }
      i := i + 1;
    }
    if minFastDist.Infinite? || minFastDist.km > thresholdKm * 1.2 {
      return None;
    }
    var accurate := DistanceToPolyline(city, line.points, haversine, segment);
    if accurate.Km? && accurate.km <= thresholdKm {
      r := Some(accurate.km);
    } else {
      r := None;
    }
  }
}
