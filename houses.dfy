/**
 * House-cusp construction and house lookup (src/astro-core/src/lib.rs).
 * Each house function fills a twelve-slot cusp array; cusp i is the start of house i + 1,
 * so slot 0 is the ascendant, slot 3 the IC, slot 6 the descendant and slot 9 the MC.
 * The trigonometry of the Placidus and Koch systems (swe_asc1, armc_to_mc and the
 * intermediate-cusp iterations) enters as values computed by functions passed in.
 */
module Houses {
  import opened Wrappers
  import opened Angles

  // ---------------------------------------------------------------------------
  // Equal houses
  // ---------------------------------------------------------------------------

  /** The cusp after slot i lies 30 degrees further on, up to whole turns. */
  predicate ThirtyDegreesOn(cusps: seq<real>, i: int)
    requires |cusps| == 12 && 0 <= i < 12
  {
    SameDegrees(cusps[(i + 1) % 12], cusps[i] + 30.0)
  }

  /** calculate_equal_houses: twelve 30-degree houses counted from the ascendant. */
  method EqualHouses(asc: real) returns (cusps: seq<real>)
    ensures |cusps| == 12
    ensures cusps[0] == DegNorm(asc)
    ensures forall i :: 0 <= i < 12 ==> OnCircle(cusps[i]) && SameDegrees(asc + 30.0 * i as real, cusps[i])
    ensures forall i :: 0 <= i < 12 ==> ThirtyDegreesOn(cusps, i)
  {
    var a := new real[12];
    for i := 0 to 12
      invariant forall j :: 0 <= j < i ==> a[j] == DegNorm(asc + 30.0 * j as real)
    {
      a[i] := DegNorm(asc + i as real * 30.0);
    }
    cusps := a[..];
    assert asc + 30.0 * 0 as real == asc;
    forall i | 0 <= i < 12
      ensures ThirtyDegreesOn(cusps, i)
    {
      EqualStep(asc, i);
    }
  }

  /** Consecutive Equal cusps, including cusp 12 back to cusp 1, are 30 degrees apart. */
  lemma EqualStep(asc: real, i: int)
    requires 0 <= i < 12
    ensures SameDegrees(DegNorm(asc + 30.0 * ((i + 1) % 12) as real), DegNorm(asc + 30.0 * i as real) + 30.0)
  {
    var x := asc + 30.0 * i as real;
    DegNormShifted(x, 30.0);
    if i == 11 {
      assert x + 30.0 == asc + 360.0 * 1 as real;
      DegNormPeriodic(asc, 1);
      assert asc + 30.0 * ((i + 1) % 12) as real == asc;
    } else {
      assert x + 30.0 == asc + 30.0 * ((i + 1) % 12) as real;
    }
  }

  // ---------------------------------------------------------------------------
  // Whole-sign houses
  // ---------------------------------------------------------------------------

  /**
   * `(asc / 30.0).floor() as usize`: the index of the sign holding the ascendant. Rust's
   * float-to-unsigned cast saturates, so every negative quotient becomes sign 0.
   */
  function FirstSign(asc: real): (s: nat)
    ensures 0.0 <= asc ==> 30.0 * s as real <= asc < 30.0 * s as real + 30.0
    ensures asc < 0.0 ==> s == 0
  {
    if asc / 30.0 < 0.0 then 0 else (asc / 30.0).Floor
  }

  /** `x % 360.0` on a whole number of signs is the sign count modulo 12. */
  lemma SignRemainder(n: nat)
    ensures FMod(30.0 * n as real, 360.0) == 30.0 * (n % 12) as real
  {
    var q := n / 12;
    var r := n % 12;
    assert n == 12 * q + r;
    assert 30.0 * n as real / 360.0 == q as real + r as real / 12.0;
    assert Trunc(30.0 * n as real / 360.0) == q;
  }

  /** The cusp after slot i is the start of the next sign. */
  predicate NextSignOn(cusps: seq<real>, i: int)
    requires |cusps| == 12 && 0 <= i < 12
  {
    cusps[(i + 1) % 12] == DegNorm(cusps[i] + 30.0)
  }

  /** calculate_whole_sign_houses: each house is a whole sign, starting with the ascendant's sign. */
  method WholeSignHouses(asc: real) returns (cusps: seq<real>)
    ensures |cusps| == 12
    ensures forall i :: 0 <= i < 12 ==> cusps[i] == 30.0 * ((FirstSign(asc) + i) % 12) as real
    ensures forall i :: 0 <= i < 12 ==> OnCircle(cusps[i]) && IsIntegral(cusps[i] / 30.0)
    ensures forall i :: 0 <= i < 12 ==> NextSignOn(cusps, i)
    ensures 0.0 <= asc < 360.0 ==> cusps[0] <= asc < cusps[0] + 30.0
    ensures asc < 0.0 ==> cusps[0] == 0.0
  {
    var firstSign := FirstSign(asc);
    var firstCusp := firstSign as real * 30.0;
    var a := new real[12];
    for i := 0 to 12
      invariant forall j :: 0 <= j < i ==> a[j] == 30.0 * ((firstSign + j) % 12) as real
    {
      assert firstCusp + i as real * 30.0 == 30.0 * (firstSign + i) as real;
      SignRemainder(firstSign + i);
      a[i] := FMod(firstCusp + i as real * 30.0, 360.0);
    }
    cusps := a[..];
    WholeSignLayout(firstSign, cusps);
    if 0.0 <= asc < 360.0 {
      assert firstSign < 12;
      assert cusps[0] == 30.0 * firstSign as real;
    }
  }

  /** The whole-sign layout: cusps on sign boundaries, each one sign after the previous. */
  lemma WholeSignLayout(first: nat, cusps: seq<real>)
    requires |cusps| == 12
    requires forall i :: 0 <= i < 12 ==> cusps[i] == 30.0 * ((first + i) % 12) as real
    ensures forall i :: 0 <= i < 12 ==> OnCircle(cusps[i]) && IsIntegral(cusps[i] / 30.0)
    ensures forall i :: 0 <= i < 12 ==> NextSignOn(cusps, i)
  {
    forall i | 0 <= i < 12
      ensures OnCircle(cusps[i]) && IsIntegral(cusps[i] / 30.0)
    {
      SignCusp(first + i);
    }
    forall i | 0 <= i < 12
      ensures NextSignOn(cusps, i)
    {
      assert (first + (i + 1) % 12) % 12 == (first + i + 1) % 12;
      NextSign(first + i);
    }
  }

  /** The start of sign n (counted modulo 12) is a multiple of 30 on the circle. */
  lemma SignCusp(n: nat)
    ensures OnCircle(30.0 * (n % 12) as real) && IsIntegral(30.0 * (n % 12) as real / 30.0)
  {
    assert 30.0 * (n % 12) as real / 30.0 == (n % 12) as real;
  }

  /** The sign after sign n starts 30 degrees later, wrapping from Pisces back to Aries. */
  lemma NextSign(n: nat)
    ensures 30.0 * ((n + 1) % 12) as real == DegNorm(30.0 * (n % 12) as real + 30.0)
  {
    var x := 30.0 * (n % 12) as real + 30.0;
    if n % 12 == 11 {
      assert (n + 1) % 12 == 0;
      assert (x - 0.0) / 360.0 == 1.0;
      DegNormUnique(x, 0.0);
    } else {
      assert (n + 1) % 12 == n % 12 + 1;
      assert (x - x) / 360.0 == 0.0;
      DegNormUnique(x, x);
    }
  }

  // ---------------------------------------------------------------------------
  // Porphyry houses
  // ---------------------------------------------------------------------------

  /**
   * The quadrant from `start` to `end` is cut into thirds: c1 and c2 lie one and two thirds
   * of the forward arc after its start.
   */
  predicate Trisects(start: real, c1: real, c2: real, end: real) {
    var q := AngleDifference(start, end);
    c1 == DegNorm(start + q / 3.0) && c2 == DegNorm(start + 2.0 * q / 3.0)
  }

  /** The cusps calculate_porphyry_houses produces for this ascendant and MC. */
  predicate IsPorphyry(cusps: seq<real>, asc: real, mc: real) {
    |cusps| == 12
    && cusps[0] == asc && cusps[9] == mc
    && cusps[3] == DegNorm(mc + 180.0) && cusps[6] == DegNorm(asc + 180.0)
    && Trisects(cusps[9], cusps[10], cusps[11], cusps[0])
    && Trisects(cusps[0], cusps[1], cusps[2], cusps[3])
    && Trisects(cusps[3], cusps[4], cusps[5], cusps[6])
    && Trisects(cusps[6], cusps[7], cusps[8], cusps[9])
  }

  /** Every cusp is the point opposite the cusp six houses away. */
  predicate OppositePairs(cusps: seq<real>)
    requires |cusps| == 12
  {
    forall i :: 0 <= i < 12 ==> Mirrors(cusps, i)
  }

  /** Slot i holds the point opposite the cusp six houses away. */
  predicate Mirrors(cusps: seq<real>, i: int)
    requires |cusps| == 12 && 0 <= i < 12
  {
    cusps[i] == DegNorm(cusps[(i + 6) % 12] + 180.0)
  }

  /** Cusps 4 to 9 (slots 3 to 8) are the points opposite cusps 10, 11, 12, 1, 2 and 3. */
  predicate LowerHalfOpposite(cusps: seq<real>)
    requires |cusps| == 12
  {
    cusps[3] == DegNorm(cusps[9] + 180.0) && cusps[4] == DegNorm(cusps[10] + 180.0)
    && cusps[5] == DegNorm(cusps[11] + 180.0) && cusps[6] == DegNorm(cusps[0] + 180.0)
    && cusps[7] == DegNorm(cusps[1] + 180.0) && cusps[8] == DegNorm(cusps[2] + 180.0)
  }

  predicate OnCircle(x: real) {
    0.0 <= x < 360.0
  }

  predicate AllOnCircle(cusps: seq<real>) {
    forall i :: 0 <= i < |cusps| ==> OnCircle(cusps[i])
  }

  /** When the upper-half cusps are normalised, mirroring them makes the whole chart symmetric. */
  lemma OppositeFromLowerHalf(cusps: seq<real>)
    requires |cusps| == 12 && LowerHalfOpposite(cusps)
    requires OnCircle(cusps[0]) && OnCircle(cusps[1]) && OnCircle(cusps[2])
    requires OnCircle(cusps[9]) && OnCircle(cusps[10]) && OnCircle(cusps[11])
    ensures AllOnCircle(cusps) && OppositePairs(cusps)
  {
    HalfTurnTwice(cusps[0]);
    HalfTurnTwice(cusps[1]);
    HalfTurnTwice(cusps[2]);
    HalfTurnTwice(cusps[9]);
    HalfTurnTwice(cusps[10]);
    HalfTurnTwice(cusps[11]);
    assert Mirrors(cusps, 0) && Mirrors(cusps, 1) && Mirrors(cusps, 2) && Mirrors(cusps, 3);
    assert Mirrors(cusps, 4) && Mirrors(cusps, 5) && Mirrors(cusps, 6) && Mirrors(cusps, 7);
    assert Mirrors(cusps, 8) && Mirrors(cusps, 9) && Mirrors(cusps, 10) && Mirrors(cusps, 11);
    forall i | 0 <= i < 12
      ensures OnCircle(cusps[i])
    {
      assert i == 0 || i == 1 || i == 2 || i == 3 || i == 4 || i == 5 || i == 6 || i == 7
        || i == 8 || i == 9 || i == 10 || i == 11;
    }
    forall i | 0 <= i < 12
      ensures Mirrors(cusps, i)
    {
      assert i == 0 || i == 1 || i == 2 || i == 3 || i == 4 || i == 5 || i == 6 || i == 7
        || i == 8 || i == 9 || i == 10 || i == 11;
    }
  }

  /** calculate_porphyry_houses: the four angles, then each quadrant split into thirds. */
  method PorphyryHouses(asc: real, mc: real) returns (cusps: seq<real>)
    ensures IsPorphyry(cusps, asc, mc)
    ensures OnCircle(asc) && OnCircle(mc) ==> AllOnCircle(cusps) && OppositePairs(cusps)
  {
    var a := new real[12];
    a[0] := asc;
    a[9] := mc;
    a[3] := DegNorm(mc + 180.0);
    a[6] := DegNorm(asc + 180.0);
    var t := Thirds(mc, asc);
    a[10], a[11] := t.0, t.1;
    t := Thirds(asc, a[3]);
    a[1], a[2] := t.0, t.1;
    t := Thirds(a[3], a[6]);
    a[4], a[5] := t.0, t.1;
    t := Thirds(a[6], mc);
    a[7], a[8] := t.0, t.1;
    cusps := a[..];
    if OnCircle(asc) && OnCircle(mc) {
      PorphyryOpposite(cusps, asc, mc);
    }
  }

  /** One quadrant of calculate_porphyry_houses: the points one and two thirds of the way round. */
  function Thirds(start: real, end: real): (r: (real, real))
    ensures Trisects(start, r.0, r.1, end)
  {
    var q := AngleDifference(start, end);
    (DegNorm(start + q / 3.0), DegNorm(start + 2.0 * q / 3.0))
  }

  /** Opposite quadrants have equal arcs, so a Porphyry chart is symmetric under a half turn. */
  lemma PorphyryOpposite(cusps: seq<real>, asc: real, mc: real)
    requires IsPorphyry(cusps, asc, mc) && OnCircle(asc) && OnCircle(mc)
    ensures AllOnCircle(cusps) && OppositePairs(cusps)
  {
    QuadrantArcs(asc, mc);
    MirroredThirds(cusps[9], cusps[10], cusps[11], cusps[0], cusps[3], cusps[4], cusps[5], cusps[6]);
    MirroredThirds(cusps[0], cusps[1], cusps[2], cusps[3], cusps[6], cusps[7], cusps[8], cusps[9]);
    OppositeFromLowerHalf(cusps);
  }

  /**
   * A quadrant starting half a turn after another, with the same arc, is cut at the points
   * opposite the other's cuts.
   */
  lemma MirroredThirds(start: real, c1: real, c2: real, end: real, start': real, d1: real, d2: real, end': real)
    requires Trisects(start, c1, c2, end) && Trisects(start', d1, d2, end')
    requires start' == DegNorm(start + 180.0) && AngleDifference(start', end') == AngleDifference(start, end)
    ensures d1 == DegNorm(c1 + 180.0) && d2 == DegNorm(c2 + 180.0)
  {
    var q := AngleDifference(start, end);
    OppositeOffset(start, q / 3.0);
    OppositeOffset(start, 2.0 * q / 3.0);
  }

  /**
   * With the ascendant and MC on the circle, the arc IC -> DSC equals the arc MC -> ASC and
   * the arc DSC -> MC equals the arc ASC -> IC.
   */
  lemma QuadrantArcs(asc: real, mc: real)
    requires OnCircle(asc) && OnCircle(mc)
    ensures AngleDifference(DegNorm(mc + 180.0), DegNorm(asc + 180.0)) == AngleDifference(mc, asc)
    ensures AngleDifference(DegNorm(asc + 180.0), mc) == AngleDifference(asc, DegNorm(mc + 180.0))
  {
    var ic := DegNorm(mc + 180.0);
    var dsc := DegNorm(asc + 180.0);
    var turnsA := (asc + 180.0 - dsc) / 360.0;
    var turnsB := (mc + 180.0 - ic) / 360.0;
    IntegralNeg(turnsA);
    IntegralSum(-turnsA, turnsB);
    assert (dsc - ic - (asc - mc)) / 360.0 == -turnsA + turnsB;
    DegNormCongruent(dsc - ic, asc - mc);
    IntegralSum(turnsA, turnsB);
    IntegralSum(turnsA + turnsB, -1.0);
    assert (mc - dsc - (ic - asc)) / 360.0 == turnsA + turnsB + -1.0;
    DegNormCongruent(mc - dsc, ic - asc);
  }

  /** Turning by d and then by half a turn lands where half a turn and then d does. */
  lemma OppositeOffset(x: real, d: real)
    ensures DegNorm(DegNorm(x + 180.0) + d) == DegNorm(DegNorm(x + d) + 180.0)
  {
    DegNormAbsorb(x + 180.0, d);
    DegNormAbsorb(x + d, 180.0);
    assert x + 180.0 + d == x + d + 180.0;
  }

  /** Two half turns from a normalised direction come back to it. */
  lemma HalfTurnTwice(x: real)
    requires OnCircle(x)
    ensures DegNorm(DegNorm(x + 180.0) + 180.0) == x
  {
    DegNormAbsorb(x + 180.0, 180.0);
    assert x + 180.0 + 180.0 == x + 360.0 * 1 as real;
    DegNormPeriodic(x, 1);
    DegNormUnique(x, x) by {
      assert (x - x) / 360.0 == 0.0;
    }
  }

  // ---------------------------------------------------------------------------
  // Placidus and Koch: the structure around the trigonometry
  // ---------------------------------------------------------------------------

  /**
   * The trigonometric results for one chart: the MC from armc_to_mc, the raw ascendant from
   * swe_asc1, and the four intermediate cusps (houses 11, 12, 2 and 3).
   */
  datatype SpaceCusps = SpaceCusps(mc: real, asc: real, house11: real, house12: real, house2: real, house3: real)

  predicate SpaceCuspsOnCircle(q: SpaceCusps) {
    OnCircle(q.mc) && OnCircle(q.asc) && OnCircle(q.house11) && OnCircle(q.house12)
    && OnCircle(q.house2) && OnCircle(q.house3)
  }

  /** Placidus and Koch are refused when |latitude| >= 90 - obliquity. */
  predicate WithinPolarCircle(lat: real, obliquity: real) {
    Abs(lat) >= 90.0 - obliquity
  }

  /**
   * The ascendant correction: when the raw ascendant lies up to half a turn before the MC
   * (a negative folded difference), the opposite point is used instead.
   */
  function EasternAscendant(asc: real, mc: real): (r: real)
    ensures Fold180(r - mc) >= 0.0
    ensures r == asc || r == DegNorm(asc + 180.0)
  {
    var acmc := Fold180(asc - mc);
    if acmc < 0.0 then
      var r := DegNorm(asc + 180.0);
      var turns := (asc + 180.0 - r) / 360.0;
      IntegralNeg(turns);
      assert (r - mc - (asc - mc + 180.0)) / 360.0 == -turns;
      FoldHalfTurn(asc - mc, r - mc);
      r
    else
      asc
  }

  /** The cusps calculate_placidus_houses_swe / calculate_koch_houses_swe return on success. */
  predicate IsSpaceHouses(cusps: seq<real>, q: SpaceCusps) {
    |cusps| == 12
    && cusps[9] == q.mc && cusps[0] == EasternAscendant(q.asc, q.mc)
    && cusps[10] == q.house11 && cusps[11] == q.house12
    && cusps[1] == q.house2 && cusps[2] == q.house3
    && LowerHalfOpposite(cusps)
  }

  /**
   * The body shared by the Placidus and Koch functions once their trigonometry is done:
   * the polar-circle rejection, the ascendant correction and the six opposite cusps.
   */
  method SpaceHouses(lat: real, obliquity: real, q: SpaceCusps, message: string)
    returns (r: Result<seq<real>>)
    ensures r.Err? <==> WithinPolarCircle(lat, obliquity)
    ensures r.Err? ==> r.message == message
    ensures r.Ok? ==> IsSpaceHouses(r.value, q)
    ensures r.Ok? && SpaceCuspsOnCircle(q) ==> AllOnCircle(r.value) && OppositePairs(r.value)
  {
    if Abs(lat) >= 90.0 - obliquity {
      return Err(message);
    }
    var a := new real[12];
    a[9] := q.mc;
    a[0] := q.asc;
    var acmc := DifDeg2n(a[0], a[9]);
    if acmc < 0.0 {
      a[0] := DegNorm(a[0] + 180.0);
    }
    assert a[0] == EasternAscendant(q.asc, q.mc);
    a[10] := q.house11;
    a[11] := q.house12;
    a[1] := q.house2;
    a[2] := q.house3;
    MirrorUpperHalf(a);
    var cusps := a[..];
    if SpaceCuspsOnCircle(q) {
      OppositeFromLowerHalf(cusps);
    }
    return Ok(cusps);
  }

  /**
   * The opposite-cusp mirroring of calculate_placidus_houses_swe: cusps 4 to 9 are set opposite
   * cusps 10, 11, 12, 1, 2 and 3.
   */
  method MirrorUpperHalf(a: array<real>)
    requires a.Length == 12
    modifies a
    ensures a[0] == old(a[0]) && a[1] == old(a[1]) && a[2] == old(a[2])
    ensures a[9] == old(a[9]) && a[10] == old(a[10]) && a[11] == old(a[11])
    ensures LowerHalfOpposite(a[..])
  {
    a[3] := DegNorm(a[9] + 180.0);
    a[4] := DegNorm(a[10] + 180.0);
    a[5] := DegNorm(a[11] + 180.0);
    a[6] := DegNorm(a[0] + 180.0);
    a[7] := DegNorm(a[1] + 180.0);
    a[8] := DegNorm(a[2] + 180.0);
  }

  const PLACIDUS_POLAR_MESSAGE: string := "within polar circle, Placidus not available"
  const KOCH_POLAR_MESSAGE: string := "within polar circle, Koch not available"

  /**
   * calculate_placidus_houses_swe: `placidus(armc, lat, obliquity, iterations)` stands for its
   * trigonometry (the ascendant, the MC and the intermediate-cusp iteration), which is not modelled.
   */
  method PlacidusHousesSwe(armc: real, lat: real, obliquity: real, iterationCount: int,
                           placidus: (real, real, real, int) -> SpaceCusps)
    returns (r: Result<seq<real>>)
    ensures r.Err? <==> WithinPolarCircle(lat, obliquity)
    ensures r.Err? ==> r.message == PLACIDUS_POLAR_MESSAGE
    ensures r.Ok? ==> IsSpaceHouses(r.value, placidus(armc, lat, obliquity, iterationCount))
  {
    r := SpaceHouses(lat, obliquity, placidus(armc, lat, obliquity, iterationCount), PLACIDUS_POLAR_MESSAGE);
  }

  /** calculate_koch_houses_swe, with `koch(armc, lat, obliquity)` standing for its trigonometry. */
  method KochHousesSwe(armc: real, lat: real, obliquity: real, koch: (real, real, real) -> SpaceCusps)
    returns (r: Result<seq<real>>)
    ensures r.Err? <==> WithinPolarCircle(lat, obliquity)
    ensures r.Err? ==> r.message == KOCH_POLAR_MESSAGE
    ensures r.Ok? ==> IsSpaceHouses(r.value, koch(armc, lat, obliquity))
  {
    r := SpaceHouses(lat, obliquity, koch(armc, lat, obliquity), KOCH_POLAR_MESSAGE);
  }

  /**
   * The ARMC the wrappers derive from the MC: `atan(tan(mc) * cos(obliquity))` (given as
   * `arctan`) moved into the MC's half of the circle, then normalised.
   */
  function ArmcOfMc(mc: real, obliquityDeg: real, arctan: (real, real) -> real): (armc: real)
    ensures OnCircle(armc)
  {
    var base := arctan(mc, obliquityDeg);
    var shifted := if mc > 90.0 && mc <= 270.0 then base + 180.0 else if mc > 270.0 then base + 360.0 else base;
    DegNorm(shifted)
  }

  /** calculate_placidus_houses: Placidus from the derived ARMC, or Porphyry inside the polar circle. */
  method PlacidusHouses(asc: real, mc: real, lat: real, obliquity: real,
                        arctan: (real, real) -> real, placidus: (real, real, real, int) -> SpaceCusps)
    returns (cusps: seq<real>)
    ensures WithinPolarCircle(lat, obliquity * RAD_TO_DEG) ==> IsPorphyry(cusps, asc, mc)
    ensures !WithinPolarCircle(lat, obliquity * RAD_TO_DEG) ==>
      IsSpaceHouses(cusps, placidus(ArmcOfMc(mc, obliquity * RAD_TO_DEG, arctan), lat, obliquity * RAD_TO_DEG, 2))
  {
    var obliquityDeg := obliquity * RAD_TO_DEG;
    var armc := ArmcOfMc(mc, obliquityDeg, arctan);
    var r := PlacidusHousesSwe(armc, lat, obliquityDeg, 2, placidus);
    match r {
      case Ok(c) => cusps := c;
      case Err(_) => cusps := PorphyryHouses(asc, mc);
    }
  }

  /** calculate_koch_houses: Koch from the derived ARMC, or Porphyry inside the polar circle. */
  method KochHouses(asc: real, mc: real, lat: real, obliquity: real,
                    arctan: (real, real) -> real, koch: (real, real, real) -> SpaceCusps)
    returns (cusps: seq<real>)
    ensures WithinPolarCircle(lat, obliquity * RAD_TO_DEG) ==> IsPorphyry(cusps, asc, mc)
    ensures !WithinPolarCircle(lat, obliquity * RAD_TO_DEG) ==>
      IsSpaceHouses(cusps, koch(ArmcOfMc(mc, obliquity * RAD_TO_DEG, arctan), lat, obliquity * RAD_TO_DEG))
  {
    var obliquityDeg := obliquity * RAD_TO_DEG;
    var armc := ArmcOfMc(mc, obliquityDeg, arctan);
    var r := KochHousesSwe(armc, lat, obliquityDeg, koch);
    match r {
      case Ok(c) => cusps := c;
      case Err(_) => cusps := PorphyryHouses(asc, mc);
    }
  }

  // ---------------------------------------------------------------------------
  // House lookup
  // ---------------------------------------------------------------------------

  /** The half-open arc [start, end), read across 0 degrees when start > end. */
  predicate InArc(lon: real, start: real, end: real) {
    if start <= end then start <= lon < end else start <= lon || lon < end
  }

  /** House i + 1 runs from cusp i to cusp i + 1 (cusp 0 after cusp 11). */
  predicate InHouse(lon: real, cusps: seq<real>, i: int)
    requires |cusps| == 12 && 0 <= i < 12
  {
    InArc(lon, cusps[i], cusps[(i + 1) % 12])
  }

  /** find_house: the first house whose arc holds the longitude, or house 1 when none does. */
  method FindHouse(lon: real, cusps: seq<real>) returns (house: int)
    requires |cusps| == 12
    ensures 1 <= house <= 12
    ensures forall j :: 0 <= j < house - 1 ==> !InHouse(lon, cusps, j)
    ensures InHouse(lon, cusps, house - 1) || (house == 1 && forall j :: 0 <= j < 12 ==> !InHouse(lon, cusps, j))
  {
    for i := 0 to 12
      invariant forall j :: 0 <= j < i ==> !InHouse(lon, cusps, j)
    {
      var next := (i + 1) % 12;
      var cuspStart := cusps[i];
      var cuspEnd := cusps[next];
      if cuspStart <= cuspEnd {
        if lon >= cuspStart && lon < cuspEnd {
          return i + 1;
        }
      } else {
        if lon >= cuspStart || lon < cuspEnd {
          return i + 1;
        }
      }
    }
    return 1;
  }

  /**
   * The fallback to house 1 is taken only for a degenerate chart: if no arc holds the
   * longitude then all twelve cusps coincide, and conversely.
   */
  lemma NoHouseIffCuspsCoincide(lon: real, cusps: seq<real>)
    requires |cusps| == 12
    ensures (forall j :: 0 <= j < 12 ==> !InHouse(lon, cusps, j)) <==> (forall i :: 0 <= i < 12 ==> cusps[i] == cusps[0])
  {
    if forall j :: 0 <= j < 12 ==> !InHouse(lon, cusps, j) {
      // Outside every arc, "cusp <= lon" carries over from each cusp to the next one.
      forall j | 0 <= j < 12
        ensures AscendingAt(cusps, j)
      {
        if cusps[j] > cusps[(j + 1) % 12] {
          assert !InHouse(lon, cusps, j);
          BelowCarriesOver(lon, cusps, (j + 1) % 12, 11);
          assert false;
        }
      }
      assert AscendingAt(cusps, 11);
      forall i | 0 <= i < 12
        ensures cusps[i] == cusps[0]
      {
        AscendingAround(cusps, i);
        if i < 11 {
          AscendingFrom(cusps, i, 11);
        }
      }
    }
  }

  predicate AscendingAt(cusps: seq<real>, j: int)
    requires |cusps| == 12 && 0 <= j < 12
  {
    cusps[j] <= cusps[(j + 1) % 12]
  }

  /** Outside every arc, a cusp at or below the longitude is followed by cusps at or below it. */
  lemma {:induction false} BelowCarriesOver(lon: real, cusps: seq<real>, start: int, steps: nat)
    requires |cusps| == 12 && 0 <= start < 12
    requires forall j :: 0 <= j < 12 ==> !InHouse(lon, cusps, j)
    requires cusps[start] <= lon
    ensures cusps[(start + steps) % 12] <= lon
  {
    if steps > 0 {
      BelowCarriesOver(lon, cusps, start, steps - 1);
      var j := (start + steps - 1) % 12;
      assert !InHouse(lon, cusps, j);
      NextSlot(start + steps - 1);
    }
  }

  /** The slot after slot n mod 12 is slot n + 1 mod 12. */
  lemma NextSlot(n: nat)
    ensures (n % 12 + 1) % 12 == (n + 1) % 12
  {
    var q, r := n / 12, n % 12;
    assert n == 12 * q + r;
    if r < 11 {
      assert n + 1 == 12 * q + (r + 1);
    } else {
      assert n + 1 == 12 * (q + 1) + 0;
    }
  }

  /** With every cusp at most its successor, cusps[0] is at most each cusps[n]. */
  lemma {:induction false} AscendingAround(cusps: seq<real>, n: nat)
    requires |cusps| == 12 && n < 12
    requires forall j :: 0 <= j < 12 ==> AscendingAt(cusps, j)
    ensures cusps[0] <= cusps[n]
  {
    if n > 0 {
      AscendingAround(cusps, n - 1);
      assert AscendingAt(cusps, n - 1);
    }
  }

  /** With every cusp at most its successor, cusps[i] is at most each later cusps[n]. */
  lemma {:induction false} AscendingFrom(cusps: seq<real>, i: nat, n: nat)
    requires |cusps| == 12 && i <= n < 12
    requires forall j :: 0 <= j < 12 ==> AscendingAt(cusps, j)
    ensures cusps[i] <= cusps[n]
  {
    if n > i {
      AscendingFrom(cusps, i, n - 1);
      assert AscendingAt(cusps, n - 1);
    }
  }
}
