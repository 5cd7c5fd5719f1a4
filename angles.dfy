/**
 * Angle arithmetic of the chart engine (src/astro-core/src/lib.rs): degree and radian
 * normalisation, signed differences folded into [-180, 180], and the MC/IC line longitudes.
 * Floating-point values are modelled as exact reals.
 */
module Angles {

  /** std::f64::consts::PI, written as the decimal that the f64 constant prints as. */
  const PI: real := 3.141592653589793
  const TWO_PI: real := 2.0 * PI
  const DEG_TO_RAD: real := PI / 180.0
  const RAD_TO_DEG: real := 180.0 / PI

  /** f64::abs. */
  function Abs(x: real): (r: real)
    ensures r >= 0.0 && (r == x || r == -x)
  {
    if x < 0.0 then -x else x
  }

  /** x is a whole number. */
  predicate IsIntegral(x: real) {
    x.Floor as real == x
  }

  /** a and b name the same direction on a circle measured in degrees. */
  predicate SameDegrees(a: real, b: real) {
    IsIntegral((a - b) / 360.0)
  }

  /** a and b name the same direction on a circle measured in radians. */
  predicate SameRadians(a: real, b: real) {
    IsIntegral((a - b) / TWO_PI)
  }

  /** Truncation toward zero, as an f64 -> integer step of Rust's `%`. */
  function Trunc(x: real): (n: int)
    ensures 0.0 <= x ==> n as real <= x < n as real + 1.0
    ensures x < 0.0 ==> n as real - 1.0 < x <= n as real
  {
    if x >= 0.0 then x.Floor else -((-x).Floor)
  }

  /** Rust's `%` on f64 (C fmod): the remainder carries the sign of the dividend. */
  function FMod(x: real, m: real): (r: real)
    requires m > 0.0
  {
    x - m * Trunc(x / m) as real
  }

  /** The two moduli the chart code takes remainders by. */
  predicate IsPeriod(m: real) {
    m == 360.0 || m == TWO_PI
  }

  lemma FModBounds(x: real, m: real)
    requires IsPeriod(m)
    ensures 0.0 <= x ==> 0.0 <= FMod(x, m) < m
    ensures x < 0.0 ==> -m < FMod(x, m) <= 0.0
    ensures (x - FMod(x, m)) / m == Trunc(x / m) as real
  {
    if m == 360.0 {
    } else {
    }
  }

  /** The double-remainder idiom `((x % m) + m) % m` used for radians and azimuths. */
  function PositiveFMod(x: real, m: real): (r: real)
    requires IsPeriod(m)
    ensures 0.0 <= r < m
    ensures IsIntegral((x - r) / m)
  {
    FModBounds(x, m);
    var inner := FMod(x, m);
    FModBounds(inner + m, m);
    var r := FMod(inner + m, m);
    QuotientSplit(x, inner, r, m);
    IntegralSum((inner + m - r) / m, -1.0);
    IntegralSum((x - inner) / m, (inner + m - r) / m - 1.0);
    r
  }

  /** Whole turns from r to x: those from inner to x plus those from r to inner + m, less one. */
  lemma QuotientSplit(x: real, inner: real, r: real, m: real)
    requires m > 0.0
    ensures (x - r) / m == (x - inner) / m + ((inner + m - r) / m - 1.0)
  {
    var p := (x - inner) / m;
    var q := (inner - r) / m;
    assert p * m == x - inner && q * m == inner - r;
    assert (p + q) * m == x - r;
    assert (q + 1.0) * m == inner + m - r;
    Cancel((x - r) / m, p + q, m);
    Cancel((inner + m - r) / m, q + 1.0, m);
  }

  /** A positive factor cancels. */
  lemma Cancel(a: real, b: real, m: real)
    requires m > 0.0 && a * m == b * m
    ensures a == b
  {
    assert (a - b) * m == 0.0;
  }

  lemma IntegralSum(a: real, b: real)
    requires IsIntegral(a) && IsIntegral(b)
    ensures IsIntegral(a + b)
  {
    var n := a.Floor + b.Floor;
    assert a + b == n as real;
    IntegerIsIntegral(n);
  }

  lemma IntegerIsIntegral(n: int)
    ensures IsIntegral(n as real)
  {
    assert (n as real).Floor == n;
  }

  lemma IntegralNeg(a: real)
    requires IsIntegral(a)
    ensures IsIntegral(-a)
  {
    var n := -a.Floor;
    assert -a == n as real;
    IntegerIsIntegral(n);
  }

  /**
   * swe_degnorm: the direction of x as a value in [0, 360), that is, x minus the whole turns
   * below it. DegNormIsRemEuclid shows this is the `x.rem_euclid(360.0)` the source computes.
   */
  function DegNorm(x: real): (r: real)
    ensures 0.0 <= r < 360.0
    ensures SameDegrees(x, r)
  {
    assert (x - (x - 360.0 * (x / 360.0).Floor as real)) / 360.0 == (x / 360.0).Floor as real;
    x - 360.0 * (x / 360.0).Floor as real
  }

  /** Rust's `rem_euclid` on f64: the `%` remainder, plus the modulus when it is negative. */
  function RemEuclid(x: real, m: real): (r: real)
    requires m > 0.0
  {
    var rem := FMod(x, m);
    if rem < 0.0 then rem + m else rem
  }

  lemma DegNormIsRemEuclid(x: real)
    ensures DegNorm(x) == RemEuclid(x, 360.0)
  {
    FModBounds(x, 360.0);
    var rem := FMod(x, 360.0);
    if rem < 0.0 {
      IntegralSum((x - rem) / 360.0, -1.0);
      assert (x - (rem + 360.0)) / 360.0 == (x - rem) / 360.0 + -1.0;
    }
    DegNormUnique(x, RemEuclid(x, 360.0));
  }

  /** Any value in [0, 360) that names the same direction as x is DegNorm(x). */
  lemma DegNormUnique(x: real, r: real)
    requires 0.0 <= r < 360.0 && SameDegrees(x, r)
    ensures r == DegNorm(x)
  {
    var k := ((x - r) / 360.0).Floor;
    assert x - r == 360.0 * k as real;
    assert k == (x / 360.0).Floor;
  }

  /** DegNorm ignores whole turns. */
  lemma {:induction false} DegNormPeriodic(x: real, k: int)
    ensures DegNorm(x + 360.0 * k as real) == DegNorm(x)
  {
    var n := DegNorm(x);
    assert (x + 360.0 * k as real - n) / 360.0 == (x - n) / 360.0 + k as real;
    IntegralSum((x - n) / 360.0, k as real);
    DegNormUnique(x + 360.0 * k as real, n);
  }

  /** Inputs naming the same direction normalise to the same value. */
  lemma DegNormCongruent(a: real, b: real)
    requires SameDegrees(a, b)
    ensures DegNorm(a) == DegNorm(b)
  {
    var n := DegNorm(b);
    var qa := (a - b) / 360.0;
    var qb := (b - n) / 360.0;
    IntegralSum(qa, qb);
    assert (a - n) / 360.0 == qa + qb;
    DegNormUnique(a, n);
  }

  /** Normalising an intermediate result first does not change the final normalised value. */
  lemma DegNormAbsorb(x: real, d: real)
    ensures DegNorm(DegNorm(x) + d) == DegNorm(x + d)
  {
    var n := DegNorm(x);
    var m := DegNorm(x + d);
    var qa := (x - n) / 360.0;
    var qb := (x + d - m) / 360.0;
    IntegralNeg(qa);
    IntegralSum(qb, -qa);
    assert (n + d - m) / 360.0 == qb + -qa;
    DegNormUnique(n + d, m);
  }

  /** normalize_angle: `((angle % 2π) + 2π) % 2π`, a radian angle in [0, 2π). */
  function NormalizeAngle(angle: real): (r: real)
    ensures 0.0 <= r < TWO_PI
    ensures SameRadians(angle, r)
  {
    PositiveFMod(angle, TWO_PI)
  }

  /** Normalising in radians and then converting agrees with converting and then DegNorm. */
  lemma NormalizeAngleMatchesDegNorm(angle: real)
    ensures NormalizeAngle(angle) * RAD_TO_DEG == DegNorm(angle * RAD_TO_DEG)
  {
    var r := NormalizeAngle(angle);
    var k := ((angle - r) / TWO_PI).Floor;
    assert angle - r == TWO_PI * k as real;
    assert TWO_PI * RAD_TO_DEG == 360.0;
    assert (angle - r) * RAD_TO_DEG == (TWO_PI * k as real) * RAD_TO_DEG;
    assert angle * RAD_TO_DEG - r * RAD_TO_DEG == 360.0 * k as real;
    assert (angle * RAD_TO_DEG - r * RAD_TO_DEG) / 360.0 == k as real;
    DegNormUnique(angle * RAD_TO_DEG, r * RAD_TO_DEG);
  }

  /** The unit-test anchors: 3π -> π, -π -> π, 0 -> 0, 2π -> 0, 5π -> π. */
  lemma NormalizeAngleExamples()
    ensures NormalizeAngle(3.0 * PI) == PI
    ensures NormalizeAngle(-PI) == PI
    ensures NormalizeAngle(0.0) == 0.0
    ensures NormalizeAngle(2.0 * PI) == 0.0
    ensures NormalizeAngle(5.0 * PI) == PI
  {
    NormalizeAngleUnique(3.0 * PI, PI);
    NormalizeAngleUnique(-PI, PI);
    NormalizeAngleUnique(0.0, 0.0);
    NormalizeAngleUnique(2.0 * PI, 0.0);
    NormalizeAngleUnique(5.0 * PI, PI);
  }

  lemma NormalizeAngleUnique(angle: real, r: real)
    requires 0.0 <= r < TWO_PI && SameRadians(angle, r)
    ensures r == NormalizeAngle(angle)
  {
    var n := NormalizeAngle(angle);
    var ka := ((angle - r) / TWO_PI).Floor;
    var kb := ((angle - n) / TWO_PI).Floor;
    assert angle - r == TWO_PI * ka as real;
    assert angle - n == TWO_PI * kb as real;
    assert ka == kb;
  }

  /**
   * Reference definition of folding a difference into [-180, 180]: the representative of
   * the same direction in that range; at +-180 the sign of the original difference is kept.
   */
  function Fold180(x: real): (r: real)
    ensures -180.0 <= r <= 180.0
    ensures SameDegrees(x, r)
    ensures r == 180.0 ==> x >= 180.0
    ensures r == -180.0 ==> x <= -180.0
  {
    if -180.0 <= x <= 180.0 then
      assert (x - x) / 360.0 == 0.0;
      x
    else
      var n := DegNorm(x);
      if n > 180.0 || (n == 180.0 && x < -180.0) then
        IntegralSum((x - n) / 360.0, 1.0);
        n - 360.0
      else
        n
  }

  /** Fold180 is the only value in [-180, 180] with its direction and boundary sign. */
  lemma Fold180Unique(x: real, r: real)
    requires -180.0 <= r <= 180.0 && SameDegrees(x, r)
    requires r == 180.0 ==> x >= 180.0
    requires r == -180.0 ==> x <= -180.0
    ensures r == Fold180(x)
  {
    var f := Fold180(x);
    var ka := ((x - r) / 360.0).Floor;
    var kb := ((x - f) / 360.0).Floor;
    assert x - r == 360.0 * ka as real;
    assert x - f == 360.0 * kb as real;
    assert f - r == 360.0 * (ka - kb) as real;
    if ka != kb {
      assert false;
    }
  }

  /** Folding the reversed difference gives the negated result: swapping the arguments flips the sign. */
  lemma Fold180Negate(x: real)
    ensures Fold180(-x) == -Fold180(x)
  {
    var f := Fold180(x);
    assert (-x - -f) / 360.0 == -((x - f) / 360.0);
    IntegralNeg((x - f) / 360.0);
    Fold180Unique(-x, -f);
  }

  /** Normalising after a shift by d lands d degrees after the normalised start, up to whole turns. */
  lemma DegNormShifted(x: real, d: real)
    ensures SameDegrees(DegNorm(x + d), DegNorm(x) + d)
  {
    var a := DegNorm(x + d);
    var b := DegNorm(x);
    var qa := (x + d - a) / 360.0;
    var qb := (x - b) / 360.0;
    IntegralNeg(qa);
    IntegralSum(-qa, qb);
    assert (a - (b + d)) / 360.0 == -qa + qb;
  }

  /** Half a turn added to a difference that folds below zero folds to 180 more. */
  lemma FoldHalfTurn(d: real, e: real)
    requires Fold180(d) < 0.0
    requires SameDegrees(e, d + 180.0)
    ensures Fold180(e) == Fold180(d) + 180.0
  {
    var f := Fold180(d);
    SameDegreesShift(d, e, f, 180.0);
    Fold180Unique(e, f + 180.0);
  }

  /** If e is d shifted by s and d names the direction f, then e names f shifted by s. */
  lemma SameDegreesShift(d: real, e: real, f: real, s: real)
    requires SameDegrees(d, f) && SameDegrees(e, d + s)
    ensures SameDegrees(e, f + s)
  {
    assert (e - (f + s)) / 360.0 == (d - f) / 360.0 + (e - (d + s)) / 360.0;
    IntegralSum((d - f) / 360.0, (e - (d + s)) / 360.0);
  }

  /**
   * The loop shared by swe_difdeg2n, shortest_angular_distance and unwrap_longitude:
   * subtract 360 while above 180, then add 360 while below -180.
   */
  method WrapDelta(delta0: real) returns (delta: real)
    ensures delta == Fold180(delta0)
    ensures -180.0 <= delta0 <= 180.0 ==> delta == delta0
  {
    delta := delta0;
    ghost var k: int := 0;
    while delta > 180.0
      invariant delta == delta0 - 360.0 * k as real
      invariant delta0 <= 180.0 ==> k == 0
      invariant delta0 > 180.0 ==> delta > -180.0
      decreases delta.Floor
    {
      delta := delta - 360.0;
      k := k + 1;
    }
    while delta < -180.0
      invariant delta == delta0 - 360.0 * k as real
      invariant delta <= 180.0
      invariant delta0 >= -180.0 ==> delta == delta0 || delta0 > 180.0
      invariant delta == 180.0 ==> delta0 >= 180.0
      invariant delta0 > 180.0 ==> delta > -180.0
      decreases -delta.Floor
    {
      delta := delta + 360.0;
      k := k - 1;
    }
    FoldedByTurns(delta0, delta, k);
  }

  /** A value in [-180, 180] reached by whole turns, with the boundary sign kept, is the fold. */
  lemma FoldedByTurns(x: real, r: real, k: int)
    requires r == x - 360.0 * k as real && -180.0 <= r <= 180.0
    requires r == 180.0 ==> x >= 180.0
    requires r == -180.0 ==> x <= -180.0
    ensures r == Fold180(x)
  {
    assert (x - r) / 360.0 == k as real;
    Fold180Unique(x, r);
  }

  /** swe_difdeg2n: p1 - p2 folded into [-180, 180]. */
  method DifDeg2n(p1: real, p2: real) returns (diff: real)
    ensures diff == Fold180(p1 - p2)
    ensures -180.0 <= p1 - p2 <= 180.0 ==> diff == p1 - p2
  {
    diff := WrapDelta(p1 - p2);
  }

  /** shortest_angular_distance: to - from folded into [-180, 180]. */
  method ShortestAngularDistance(from: real, to: real) returns (diff: real)
    ensures diff == Fold180(to - from)
    ensures -180.0 <= to - from <= 180.0 ==> diff == to - from
  {
    diff := WrapDelta(to - from);
  }

  /** angle_difference: the forward arc from `from` to `to`, adding one turn when negative. */
  function AngleDifference(from: real, to: real): (r: real)
    ensures r == to - from || r == to - from + 360.0
    ensures 0.0 <= from < 360.0 && 0.0 <= to < 360.0 ==> r == DegNorm(to - from)
  {
    var diff := to - from;
    if diff < 0.0 then
      (if -360.0 < diff then DegNormShift(diff); diff + 360.0 else diff + 360.0)
    else
      (if diff < 360.0 then DegNormUnique(diff, diff); diff else diff)
  }

  lemma DegNormShift(diff: real)
    requires -360.0 < diff < 0.0
    ensures DegNorm(diff) == diff + 360.0
  {
    assert (diff - (diff + 360.0)) / 360.0 == -1.0;
    DegNormUnique(diff, diff + 360.0);
  }

  /** calculate_mc_longitude: (RA - GMST) in degrees, folded into (-180, 180]. */
  function McLongitude(rightAscension: real, gmst: real): (r: real)
    ensures -180.0 < r <= 180.0
    ensures SameDegrees((rightAscension - gmst) * RAD_TO_DEG, r)
  {
    LineLongitude(rightAscension - gmst)
  }

  /** calculate_ic_longitude: (RA + π - GMST) in degrees, folded into (-180, 180]. */
  function IcLongitude(rightAscension: real, gmst: real): (r: real)
    ensures -180.0 < r <= 180.0
    ensures SameDegrees((rightAscension - gmst) * RAD_TO_DEG + 180.0, r)
  {
    var r := LineLongitude(rightAscension + PI - gmst);
    assert (rightAscension + PI - gmst) * RAD_TO_DEG == (rightAscension - gmst) * RAD_TO_DEG + 180.0;
    r
  }

  /** The common tail of the MC and IC functions. */
  function LineLongitude(angle: real): (r: real)
    ensures -180.0 < r <= 180.0
    ensures SameDegrees(angle * RAD_TO_DEG, r)
  {
    var rad := NormalizeAngle(angle);
    var deg := rad * RAD_TO_DEG;
    TurnsInDegrees(angle, rad);
    DegreesOfTurn(rad);
    if deg > 180.0 then
      IntegralSum((angle * RAD_TO_DEG - deg) / 360.0, 1.0);
      deg - 360.0
    else
      deg
  }

  /** An angle within one turn in radians is within one turn in degrees. */
  lemma DegreesOfTurn(rad: real)
    requires 0.0 <= rad < TWO_PI
    ensures 0.0 <= rad * RAD_TO_DEG < 360.0
  {
    assert TWO_PI * RAD_TO_DEG == 360.0;
  }

  /** A difference of radians counts the same number of turns once converted to degrees. */
  lemma TurnsInDegrees(a: real, b: real)
    ensures (a * RAD_TO_DEG - b * RAD_TO_DEG) / 360.0 == (a - b) / TWO_PI
  {
    var c := a - b;
    assert a * RAD_TO_DEG - b * RAD_TO_DEG == c * RAD_TO_DEG;
    assert c * RAD_TO_DEG / 360.0 == c / TWO_PI;
  }

  /** For every RA and GMST the IC line lies exactly half a turn from the MC line. */
  lemma McIcOpposite(rightAscension: real, gmst: real)
    ensures SameDegrees(IcLongitude(rightAscension, gmst), McLongitude(rightAscension, gmst) + 180.0)
    ensures McLongitude(rightAscension, gmst) <= 0.0 ==> IcLongitude(rightAscension, gmst) == McLongitude(rightAscension, gmst) + 180.0
    ensures McLongitude(rightAscension, gmst) > 0.0 ==> IcLongitude(rightAscension, gmst) == McLongitude(rightAscension, gmst) - 180.0
  {
    var x := (rightAscension - gmst) * RAD_TO_DEG;
    var mc := McLongitude(rightAscension, gmst);
    var ic := IcLongitude(rightAscension, gmst);
    var ka := ((x - mc) / 360.0).Floor;
    var kb := ((x + 180.0 - ic) / 360.0).Floor;
    assert x - mc == 360.0 * ka as real;
    assert x + 180.0 - ic == 360.0 * kb as real;
    assert ic - (mc + 180.0) == 360.0 * (ka - kb) as real;
    assert (ic - (mc + 180.0)) / 360.0 == (ka - kb) as real;
    if mc <= 0.0 {
      assert ka == kb;
    } else {
      assert ka - kb == -1;
    }
  }

  /** The unit-test anchors: RA = GMST gives 0, RA = GMST + 45° gives 45. */
  lemma McLongitudeExamples()
    ensures McLongitude(PI, PI) == 0.0
    ensures McLongitude(PI + 45.0 * DEG_TO_RAD, PI) == 45.0
    ensures IcLongitude(PI, PI) == 180.0
  {
    var q := PI + 45.0 * DEG_TO_RAD - PI;
    assert q == PI / 4.0;
    NormalizeAngleUnique(0.0, 0.0);
    NormalizeAngleUnique(q, q);
    NormalizeAngleUnique(PI, PI);
    assert q * RAD_TO_DEG == 45.0;
    assert PI * RAD_TO_DEG == 180.0;
  }
}
