/**
 * Influence and city scoring of the location scout (src/astro-core/src/scout.rs): distance
 * decay kernels, rating and aspect conversion, the contribution of one planetary line, and
 * the bounded city score built from the seven strongest contributions.
 * The Gaussian and exponential kernels and the square root are floating-point library calls;
 * they enter through `Numerics`.
 */
module Scoring {
  import opened Wrappers
  import opened Angles
  import opened Sorting
  import opened LineGeometry

  /** Rust's `u8`. */
  newtype u8 = x: int | 0 <= x < 256

  datatype AspectType = Conjunction | Trine | Sextile | Square | Quincunx | Opposition | Sesquisquare

  datatype KernelType = Linear | Gaussian | Exponential

  datatype ScoringConfig = ScoringConfig(kernelType: KernelType, kernelParameter: real,
                                         maxDistanceKm: real, volatilityPenalty: real)

  /** ScoringConfig::balanced, also `new` and `default`. */
  const BALANCED: ScoringConfig := ScoringConfig(Gaussian, 180.0, 500.0, 0.3)
  /** ScoringConfig::high_precision. */
  const HIGH_PRECISION: ScoringConfig := ScoringConfig(Gaussian, 120.0, 600.0, 0.4)
  /** ScoringConfig::relaxed. */
  const RELAXED: ScoringConfig := ScoringConfig(Linear, 500.0, 500.0, 0.2)

  /** The floating-point library functions the scoring calls. */
  datatype Numerics = Numerics(gaussian: (real, real) -> real, exponential: (real, real) -> real,
                               sqrt: real -> real)

  datatype Influence = Influence(planet: string, angle: string, rating: u8,
                                 aspect: Option<AspectType>, distanceKm: real)

  datatype InfluenceContribution = InfluenceContribution(benefit: real, intensity: real, volatility: real)

  datatype CityInfluenceSet = CityInfluenceSet(cityName: string, country: string, latitude: real,
                                               longitude: real, influences: seq<Influence>)

  datatype CityScore = CityScore(cityName: string, country: string, latitude: real, longitude: real,
                                 benefitScore: real, intensityScore: real, volatilityScore: real,
                                 mixedFlag: bool, influenceCount: nat, minDistanceKm: Distance)

  function Max(a: real, b: real): real
  {
    if a >= b then a else b
  }

  /** f64::clamp. */
  function Clamp(x: real, lo: real, hi: real): (r: real)
    requires lo <= hi
    ensures lo <= r <= hi
    ensures lo <= x <= hi ==> r == x
  {
    if x < lo then lo else if x > hi then hi else x
  }

  // ---------------------------------------------------------------------------
  // Distance decay kernels
  // ---------------------------------------------------------------------------

  /**
   * linear_kernel: 1 - d/b, floored at 0. With a zero bandwidth the f64 quotient is +inf
   * (or NaN at d = 0) and `max(0.0)` returns 0; a negative distance there would be +inf,
   * which no real stands for.
   */
  function LinearKernel(distanceKm: real, bandwidthKm: real): (k: real)
    requires bandwidthKm != 0.0 || distanceKm >= 0.0
    ensures k >= 0.0
    ensures bandwidthKm > 0.0 && distanceKm >= bandwidthKm ==> k == 0.0
    ensures bandwidthKm > 0.0 && distanceKm >= 0.0 ==> k <= 1.0
    ensures bandwidthKm != 0.0 && distanceKm == 0.0 ==> k == 1.0
  {
    if bandwidthKm == 0.0 then 0.0
    else
      assert bandwidthKm > 0.0 && distanceKm >= bandwidthKm ==> distanceKm / bandwidthKm >= 1.0 by {
        if bandwidthKm > 0.0 && distanceKm >= bandwidthKm {
          RatioAtLeastOne(distanceKm, bandwidthKm);
        }
      }
      assert bandwidthKm > 0.0 && distanceKm >= 0.0 ==> distanceKm / bandwidthKm >= 0.0 by {
        if bandwidthKm > 0.0 && distanceKm >= 0.0 {
          assert distanceKm / bandwidthKm * bandwidthKm == distanceKm;
        }
      }
      Max(1.0 - distanceKm / bandwidthKm, 0.0)
  }

  lemma RatioAtLeastOne(n: real, d: real)
    requires d > 0.0 && n >= d
    ensures n / d >= 1.0
  {
    assert n / d * d == n;
  }

  /** The values the kernel test checks: 1 at the line, 1/2 halfway, 0 at and past the bandwidth. */
  lemma LinearKernelExamples()
    ensures LinearKernel(0.0, 500.0) == 1.0
    ensures LinearKernel(250.0, 500.0) == 0.5
    ensures LinearKernel(500.0, 500.0) == 0.0
    ensures LinearKernel(600.0, 500.0) == 0.0
  {
  }

  /** apply_kernel: the kernel the configuration names, with its parameter. */
  function ApplyKernel(distanceKm: real, config: ScoringConfig, num: Numerics): (k: real)
    requires config.kernelParameter != 0.0 || distanceKm >= 0.0
    ensures config.kernelType == Linear ==> k >= 0.0
  {
    match config.kernelType
    case Linear => LinearKernel(distanceKm, config.kernelParameter)
    case Gaussian => num.gaussian(distanceKm, config.kernelParameter)
    case Exponential => num.exponential(distanceKm, config.kernelParameter)
  }

  // ---------------------------------------------------------------------------
  // Ratings and aspects
  // ---------------------------------------------------------------------------

  /** rating_to_benefit: ratings 1..5 become -2..+2 around the neutral 3. */
  function RatingToBenefit(rating: u8): (b: real)
    ensures b > 0.0 <==> rating > 3
    ensures b == 0.0 <==> rating == 3
    ensures 1 <= rating <= 5 ==> -2.0 <= b <= 2.0
  {
    rating as int as real - 3.0
  }

  /** rating_to_intensity: the distance of the rating from neutral. */
  function RatingToIntensity(rating: u8): (i: real)
    ensures i >= 0.0
    ensures i == 0.0 <==> rating == 3
    ensures 1 <= rating <= 5 ==> i <= 2.0
  {
    Abs(rating as int as real - 3.0)
  }

  /** Intensity is the magnitude of benefit; benefit has the sign of rating - 3. */
  lemma RatingConversions(rating: u8)
    ensures RatingToIntensity(rating) == Abs(RatingToBenefit(rating))
    ensures RatingToBenefit(rating) > 0.0 <==> rating > 3
    ensures RatingToBenefit(rating) == 0.0 <==> rating == 3
    ensures 1 <= rating <= 5 ==> -2.0 <= RatingToBenefit(rating) <= 2.0
  {
  }

  /** The mapping the rating test checks. */
  lemma RatingToBenefitExamples()
    ensures RatingToBenefit(5) == 2.0 && RatingToBenefit(4) == 1.0 && RatingToBenefit(3) == 0.0
    ensures RatingToBenefit(2) == -1.0 && RatingToBenefit(1) == -2.0
  {
  }

  /** aspect_benefit_multiplier. */
  function AspectBenefitMultiplier(aspect: AspectType): (m: real)
    ensures m < 0.0 <==> aspect.Square? || aspect.Opposition? || aspect.Sesquisquare?
    ensures -1.0 <= m <= 1.0
  {
    match aspect
    case Conjunction => 1.0
    case Trine => 0.7
    case Sextile => 0.7
    case Square => -0.6
    case Quincunx => 0.3
    case Opposition => -0.5
    case Sesquisquare => -0.4
  }

  /** aspect_intensity_multiplier. */
  function AspectIntensityMultiplier(aspect: AspectType): (m: real)
    ensures 0.0 < m <= 1.0
  {
    match aspect
    case Conjunction => 1.0
    case Trine => 0.6
    case Sextile => 0.6
    case Square => 0.85
    case Quincunx => 0.4
    case Opposition => 0.8
    case Sesquisquare => 0.7
  }

  /** The hard aspects are exactly the ones that flip benefit; every multiplier is at most 1 in size. */
  lemma AspectMultipliers(aspect: AspectType)
    ensures AspectBenefitMultiplier(aspect) < 0.0 <==> aspect in {Square, Opposition, Sesquisquare}
    ensures -1.0 <= AspectBenefitMultiplier(aspect) <= 1.0
    ensures 0.0 < AspectIntensityMultiplier(aspect) <= 1.0
  {
  }

  // ---------------------------------------------------------------------------
  // Influence contribution
  // ---------------------------------------------------------------------------

  function BenefitMultiplier(aspect: Option<AspectType>): real
  {
    if aspect.Some? then AspectBenefitMultiplier(aspect.value) else 1.0
  }

  function IntensityMultiplier(aspect: Option<AspectType>): real
  {
    if aspect.Some? then AspectIntensityMultiplier(aspect.value) else 1.0
  }

  /** Steps 2 to 5 of calculate_influence_contribution, for a given kernel value. */
  function ContributionAt(influence: Influence, kernel: real): (c: InfluenceContribution)
    ensures c.volatility != 0.0 ==>
              BenefitMultiplier(influence.aspect) < 0.0 && influence.rating != 3 && kernel != 0.0
    ensures BenefitMultiplier(influence.aspect) < 0.0 && influence.rating != 3 ==>
              c.volatility == Abs(RatingToBenefit(influence.rating)) * kernel
  {
    var baseBenefit := RatingToBenefit(influence.rating);
    var baseIntensity := RatingToIntensity(influence.rating);
    var benefitMult := BenefitMultiplier(influence.aspect);
    var intensityMult := IntensityMultiplier(influence.aspect);
    var volatility := if benefitMult < 0.0 && baseBenefit != 0.0 then Abs(baseBenefit) * kernel else 0.0;
    InfluenceContribution(baseBenefit * benefitMult * kernel, baseIntensity * intensityMult * kernel, volatility)
  }

  /**
   * calculate_influence_contribution: the kernel at the line's distance, then the rating and aspect.
   * A neutral rating contributes nothing, only a hard aspect makes a line volatile, and under the
   * linear kernel every part is at most 2 in size and vanishes beyond the bandwidth.
   */
  function CalculateInfluenceContribution(influence: Influence, config: ScoringConfig, num: Numerics)
    : (c: InfluenceContribution)
    requires config.kernelParameter != 0.0 || influence.distanceKm >= 0.0
    ensures influence.rating == 3 ==> c == InfluenceContribution(0.0, 0.0, 0.0)
    ensures c.volatility != 0.0 ==>
              influence.aspect.Some? && AspectBenefitMultiplier(influence.aspect.value) < 0.0 && influence.rating != 3
    ensures LinearWithin(influence, config) && 1 <= influence.rating <= 5 ==>
              Abs(c.benefit) <= 2.0 && 0.0 <= c.intensity <= 2.0 && 0.0 <= c.volatility <= 2.0
    ensures LinearWithin(influence, config) && influence.distanceKm >= config.kernelParameter ==>
              c == InfluenceContribution(0.0, 0.0, 0.0)
  {
    var kernel := ApplyKernel(influence.distanceKm, config, num);
    assert LinearWithin(influence, config) ==> 0.0 <= kernel <= 1.0;
    assert LinearWithin(influence, config) && 1 <= influence.rating <= 5 ==>
             var c := ContributionAt(influence, kernel);
             Abs(c.benefit) <= 2.0 && 0.0 <= c.intensity <= 2.0 && 0.0 <= c.volatility <= 2.0 by {
      if LinearWithin(influence, config) && 1 <= influence.rating <= 5 {
        ContributionBounds(influence, kernel);
      }
    }
    ContributionAt(influence, kernel)
  }

  /** The configuration uses the linear kernel with a positive bandwidth, at a non-negative distance. */
  predicate LinearWithin(influence: Influence, config: ScoringConfig)
  {
    config.kernelType == Linear && config.kernelParameter > 0.0 && influence.distanceKm >= 0.0
  }

  /**
   * For a rating of 1 to 5 and a kernel in [0, 1], each part of a contribution is at most 2
   * in size: the bound the city score's normalisation rests on.
   */
  lemma ContributionBounds(influence: Influence, kernel: real)
    requires 1 <= influence.rating <= 5 && 0.0 <= kernel <= 1.0
    ensures Abs(ContributionAt(influence, kernel).benefit) <= 2.0
    ensures 0.0 <= ContributionAt(influence, kernel).intensity <= 2.0
    ensures 0.0 <= ContributionAt(influence, kernel).volatility <= 2.0
  {
    var b := RatingToBenefit(influence.rating);
    var bm := BenefitMultiplier(influence.aspect);
    var im := IntensityMultiplier(influence.aspect);
    if influence.aspect.Some? {
      AspectMultipliers(influence.aspect.value);
    }
    ProductBound(b, bm, kernel);
    ProductBound(Abs(b), im, kernel);
    ProductBound(Abs(b), 1.0, kernel);
  }

  /** |x * m * k| <= 2 when |x| <= 2, |m| <= 1 and 0 <= k <= 1; the product is >= 0 when x and m are. */
  lemma ProductBound(x: real, m: real, k: real)
    requires -2.0 <= x <= 2.0 && -1.0 <= m <= 1.0 && 0.0 <= k <= 1.0
    ensures Abs(x * m * k) <= 2.0
    ensures x >= 0.0 && m >= 0.0 ==> x * m * k >= 0.0
  {
    ScaledBound(x, m, 2.0);
    ScaledBound(x * m, k, 2.0);
    if x >= 0.0 && m >= 0.0 {
      MulNonneg(x, m);
      MulNonneg(x * m, k);
    }
  }

  /** Scaling by a factor of size at most 1 keeps a bound on the size. */
  lemma ScaledBound(y: real, q: real, bound: real)
    requires Abs(y) <= bound && -1.0 <= q <= 1.0
    ensures Abs(y * q) <= bound
  {
    AbsMul(y, q);
    Shrink(Abs(y), Abs(q));
  }

  /** Scaling a non-negative number by a factor in [0, 1] keeps it in [0, p]. */
  lemma Shrink(p: real, q: real)
    requires p >= 0.0 && 0.0 <= q <= 1.0
    ensures 0.0 <= p * q <= p
  {
    assert p * q + p * (1.0 - q) == p;
  }

  lemma AbsMul(x: real, m: real)
    ensures Abs(x * m) == Abs(x) * Abs(m)
  {
    if x < 0.0 {
      assert x * m == -((-x) * m);
    }
    if m < 0.0 {
      assert x * m == -(x * (-m));
    }
  }

  lemma AbsScale(y: real, k: real)
    requires k >= 0.0
    ensures Abs(y * k) == Abs(y) * k
  {
    if y >= 0.0 {
      MulNonneg(y, k);
    } else {
      MulNonneg(-y, k);
      assert (-y) * k == -(y * k);
    }
  }

  /** A hard aspect flags volatility whichever way it flips the benefit. */
  lemma VolatilityBothDirections(kernel: real)
    requires kernel > 0.0
    ensures ContributionAt(Influence("Sun", "MC", 5, Some(Square), 0.0), kernel).volatility > 0.0
    ensures ContributionAt(Influence("Saturn", "MC", 1, Some(Square), 0.0), kernel).volatility > 0.0
    ensures ContributionAt(Influence("Sun", "MC", 5, Some(Square), 0.0), kernel).benefit < 0.0
    ensures ContributionAt(Influence("Saturn", "MC", 1, Some(Square), 0.0), kernel).benefit > 0.0
  {
  }

  // ---------------------------------------------------------------------------
  // City score
  // ---------------------------------------------------------------------------

  /** DIMINISHING_WEIGHTS: the weight of the k-th strongest influence. */
  const WEIGHTS: seq<real> := [1.0, 0.6, 0.35, 0.2, 0.1, 0.08, 0.05]
  const TOP_K: nat := 7

  /** A contribution paired with the distance of its line. */
  datatype Scored = Scored(contribution: InfluenceContribution, distanceKm: real)

  /** The sort key of calculate_city_score: the size of the benefit. */
  function BenefitMagnitude(s: Scored): real
  {
    Abs(s.contribution.benefit)
  }

  function BenefitOf(c: InfluenceContribution): real { c.benefit }
  function IntensityOf(c: InfluenceContribution): real { c.intensity }
  function PositivePart(c: InfluenceContribution): real { Max(c.benefit, 0.0) }
  function NegativePart(c: InfluenceContribution): real { Max(-c.benefit, 0.0) }

  /** The weighted sum of `part` over the first n contributions. */
  function WeightedPrefix(cs: seq<Scored>, part: InfluenceContribution -> real, n: nat): real
    requires n <= |cs| && n <= TOP_K
  {
    if n == 0 then 0.0
    else WeightedPrefix(cs, part, n - 1) + part(cs[n - 1].contribution) * WEIGHTS[n - 1]
  }

  /** `iter().take(7).enumerate().map(.. * DIMINISHING_WEIGHTS[i]).sum()`. */
  function WeightedSum(cs: seq<Scored>, part: InfluenceContribution -> real): real
  {
    WeightedPrefix(cs, part, if |cs| < TOP_K then |cs| else TOP_K)
  }

  /** `fold(f64::INFINITY, f64::min)` over the distances. */
  function MinDistance(cs: seq<Scored>): Distance
  {
    if |cs| == 0 then Infinite
    else
      var rest := MinDistance(cs[..|cs| - 1]);
      var d := cs[|cs| - 1].distanceKm;
      if rest.Infinite? || d < rest.km then Km(d) else rest
  }

  /** The score of a city without influences. */
  function EmptyScore(city: CityInfluenceSet): CityScore
  {
    CityScore(city.cityName, city.country, city.latitude, city.longitude, 50.0, 0.0, 0.0, false, 0, Infinite)
  }

  /** The normalisation of calculate_city_score, applied to contributions already sorted. */
  function ScoreSorted(city: CityInfluenceSet, sorted: seq<Scored>, sqrt: real -> real): CityScore
  {
    var benefitRaw := WeightedSum(sorted, BenefitOf);
    var intensityRaw := WeightedSum(sorted, IntensityOf);
    var positive := WeightedSum(sorted, PositivePart);
    var negative := WeightedSum(sorted, NegativePart);
    var volatilityRaw := sqrt(positive * negative);
    CityScore(city.cityName, city.country, city.latitude, city.longitude,
              Clamp(50.0 + benefitRaw * 10.5, 0.0, 100.0),
              Clamp(intensityRaw * 21.0, 0.0, 100.0),
              Clamp(volatilityRaw * 42.0, 0.0, 100.0),
              positive > 0.5 && negative > 0.5,
              |city.influences|,
              MinDistance(sorted))
  }

  /** Distances are what the kernel may be applied to. */
  ghost predicate KernelDefined(city: CityInfluenceSet, config: ScoringConfig)
  {
    forall i :: 0 <= i < |city.influences| ==>
      config.kernelParameter != 0.0 || city.influences[i].distanceKm >= 0.0
  }

  function ScoredOf(influence: Influence, config: ScoringConfig, num: Numerics): Scored
    requires config.kernelParameter != 0.0 || influence.distanceKm >= 0.0
  {
    Scored(CalculateInfluenceContribution(influence, config, num), influence.distanceKm)
  }

  /** Every influence's contribution with its distance, in input order. */
  function ScoredAll(city: CityInfluenceSet, config: ScoringConfig, num: Numerics): (cs: seq<Scored>)
    requires KernelDefined(city, config)
    ensures |cs| == |city.influences|
    ensures forall i :: 0 <= i < |cs| ==> cs[i].distanceKm == city.influences[i].distanceKm
  {
    seq(|city.influences|, i requires 0 <= i < |city.influences| => ScoredOf(city.influences[i], config, num))
  }

  /** Reference definition of calculate_city_score. */
  function CityScoreOf(city: CityInfluenceSet, config: ScoringConfig, num: Numerics): CityScore
    requires KernelDefined(city, config)
  {
    if |city.influences| == 0 then EmptyScore(city)
    else ScoreSorted(city, SortDescending(ScoredAll(city, config, num), BenefitMagnitude), num.sqrt)
  }

  /** calculate_city_score: contributions sorted in place by size of benefit, then normalised. */
  method CalculateCityScore(city: CityInfluenceSet, config: ScoringConfig, num: Numerics) returns (score: CityScore)
    requires KernelDefined(city, config)
    ensures score == CityScoreOf(city, config, num)
  {
    if |city.influences| == 0 {
      return EmptyScore(city);
    }
    var contributions := ScoredAll(city, config, num);
    var a := new Scored[|contributions|](i requires 0 <= i < |contributions| => contributions[i]);
    assert a[..] == contributions;
    SortInPlace(a, BenefitMagnitude);
    score := ScoreSorted(city, a[..], num.sqrt);
  }

  // ---------------------------------------------------------------------------
  // Properties of the city score
  // ---------------------------------------------------------------------------

  /** Without influences: benefit 50, no intensity or volatility, not mixed, count 0, infinite distance. */
  lemma EmptyCityScore(city: CityInfluenceSet, config: ScoringConfig, num: Numerics)
    requires |city.influences| == 0
    ensures var s := CityScoreOf(city, config, num);
      s.benefitScore == 50.0 && s.intensityScore == 0.0 && s.volatilityScore == 0.0
      && !s.mixedFlag && s.influenceCount == 0 && s.minDistanceKm == Infinite
  {
  }

  /** Every score lies in [0, 100], the count is the number of influences, and the city is kept. */
  lemma CityScoreBounds(city: CityInfluenceSet, config: ScoringConfig, num: Numerics)
    requires KernelDefined(city, config)
    ensures var s := CityScoreOf(city, config, num);
      0.0 <= s.benefitScore <= 100.0 && 0.0 <= s.intensityScore <= 100.0
      && 0.0 <= s.volatilityScore <= 100.0 && s.influenceCount == |city.influences|
      && s.cityName == city.cityName && s.country == city.country
  {
  }

  /** The contributions that get weighted are the seven largest in size, and none is lost or added. */
  lemma TopSevenAreLargest(city: CityInfluenceSet, config: ScoringConfig, num: Numerics, i: int, j: int)
    requires KernelDefined(city, config)
    requires 0 <= i < TOP_K <= j < |city.influences|
    ensures var sorted := SortDescending(ScoredAll(city, config, num), BenefitMagnitude);
      BenefitMagnitude(sorted[j]) <= BenefitMagnitude(sorted[i])
      && multiset(sorted) == multiset(ScoredAll(city, config, num))
  {
    SortDescendingOrders(ScoredAll(city, config, num), BenefitMagnitude);
    SortDescendingPermutes(ScoredAll(city, config, num), BenefitMagnitude);
  }

  /** The running minimum of the distances is the smallest distance. */
  lemma {:induction false} MinDistanceIsMin(cs: seq<Scored>)
    requires |cs| > 0
    ensures MinDistance(cs).Km?
    ensures forall j :: 0 <= j < |cs| ==> MinDistance(cs).km <= cs[j].distanceKm
    ensures exists j :: 0 <= j < |cs| && MinDistance(cs).km == cs[j].distanceKm
  {
    var init := cs[..|cs| - 1];
    if |init| > 0 {
      MinDistanceIsMin(init);
      var k :| 0 <= k < |init| && MinDistance(init).km == init[k].distanceKm;
      if cs[|cs| - 1].distanceKm >= MinDistance(init).km {
        assert cs[k] == init[k];
      }
    }
  }

  /** Reordering the distances does not change which one is the smallest. */
  lemma MinDistanceOfPermutation(sorted: seq<Scored>, all: seq<Scored>)
    requires |all| > 0 && multiset(sorted) == multiset(all)
    ensures MinDistance(sorted).Km?
    ensures forall i :: 0 <= i < |all| ==> MinDistance(sorted).km <= all[i].distanceKm
    ensures exists i :: 0 <= i < |all| && MinDistance(sorted).km == all[i].distanceKm
  {
    assert |sorted| == |all| by {
      assert |multiset(sorted)| == |multiset(all)|;
    }
    MinDistanceIsMin(sorted);
    var d := MinDistance(sorted).km;
    forall i | 0 <= i < |all|
      ensures d <= all[i].distanceKm
    {
      assert all[i] in multiset(sorted);
    }
    var j :| 0 <= j < |sorted| && d == sorted[j].distanceKm;
    assert sorted[j] in multiset(all);
  }

  /** min_distance_km is the distance of the nearest influencing line. */
  lemma CityMinDistance(city: CityInfluenceSet, config: ScoringConfig, num: Numerics)
    requires KernelDefined(city, config) && |city.influences| > 0
    ensures var s := CityScoreOf(city, config, num);
      s.minDistanceKm.Km?
      && (forall i :: 0 <= i < |city.influences| ==> s.minDistanceKm.km <= city.influences[i].distanceKm)
      && (exists i :: 0 <= i < |city.influences| && s.minDistanceKm.km == city.influences[i].distanceKm)
  {
    var all := ScoredAll(city, config, num);
    SortDescendingPermutes(all, BenefitMagnitude);
    MinDistanceOfPermutation(SortDescending(all, BenefitMagnitude), all);
  }

  /** The sum of the first n weights. */
  function WeightTotal(n: nat): real
    requires n <= TOP_K
  {
    if n == 0 then 0.0 else WeightTotal(n - 1) + WEIGHTS[n - 1]
  }

  /** The seven weights sum to 2.38, so every prefix sums to at most that. */
  lemma WeightTotalBound(n: nat)
    requires n <= TOP_K
    ensures 0.0 <= WeightTotal(n) <= 2.38
  {
    assert WeightTotal(7) == 2.38;
    assert n == 0 || n == 1 || n == 2 || n == 3 || n == 4 || n == 5 || n == 6 || n == 7;
  }

  /** Every contribution has a benefit of size at most 2 and an intensity in [0, 2]. */
  ghost predicate Bounded(cs: seq<Scored>)
  {
    forall j :: 0 <= j < |cs| ==>
      Abs(cs[j].contribution.benefit) <= 2.0 && 0.0 <= cs[j].contribution.intensity <= 2.0
  }

  lemma ScaleBound(b: real, w: real)
    requires Abs(b) <= 2.0 && w >= 0.0
    ensures Abs(b * w) <= 2.0 * w
  {
    AbsScale(b, w);
    MulNonneg(2.0 - Abs(b), w);
  }

  /** The weighted sums of bounded contributions are bounded by twice the weights used. */
  lemma WeightedPrefixBounds(cs: seq<Scored>, n: nat)
    requires Bounded(cs) && n <= |cs| && n <= TOP_K
    ensures Abs(WeightedPrefix(cs, BenefitOf, n)) <= 2.0 * WeightTotal(n)
    ensures 0.0 <= WeightedPrefix(cs, IntensityOf, n) <= 2.0 * WeightTotal(n)
    ensures 0.0 <= WeightedPrefix(cs, PositivePart, n) && 0.0 <= WeightedPrefix(cs, NegativePart, n)
    ensures WeightedPrefix(cs, PositivePart, n) + WeightedPrefix(cs, NegativePart, n) <= 2.0 * WeightTotal(n)
  {
    BenefitPrefixBound(cs, n);
    IntensityPrefixBound(cs, n);
    PartsPrefixBound(cs, n);
  }

  lemma WeightPositive(i: nat)
    requires i < TOP_K
    ensures WEIGHTS[i] > 0.0
  {
    assert i == 0 || i == 1 || i == 2 || i == 3 || i == 4 || i == 5 || i == 6;
  }

  /** One more term of a weighted prefix. */
  lemma PrefixStep(cs: seq<Scored>, part: InfluenceContribution -> real, n: nat)
    requires 0 < n <= |cs| && n <= TOP_K
    ensures WeightedPrefix(cs, part, n) == WeightedPrefix(cs, part, n - 1) + part(cs[n - 1].contribution) * WEIGHTS[n - 1]
  {
  }

  lemma AbsSumBound(x: real, y: real, z: real, a: real, b: real)
    requires z == x + y && Abs(x) <= a && Abs(y) <= b
    ensures Abs(z) <= a + b
  {
  }

  lemma {:induction false} BenefitPrefixBound(cs: seq<Scored>, n: nat)
    requires Bounded(cs) && n <= |cs| && n <= TOP_K
    ensures Abs(WeightedPrefix(cs, BenefitOf, n)) <= 2.0 * WeightTotal(n)
  {
    if n > 0 {
      var w := WEIGHTS[n - 1];
      var c := cs[n - 1].contribution;
      var x, y, z := WeightedPrefix(cs, BenefitOf, n - 1), BenefitOf(c) * w, WeightedPrefix(cs, BenefitOf, n);
      PrefixStep(cs, BenefitOf, n);
      assert z == x + y;
      BenefitPrefixBound(cs, n - 1);
      WeightPositive(n - 1);
      BenefitStep(c, w);
      AbsSumBound(x, y, z, 2.0 * WeightTotal(n - 1), 2.0 * w);
    }
  }

  lemma {:induction false} IntensityPrefixBound(cs: seq<Scored>, n: nat)
    requires Bounded(cs) && n <= |cs| && n <= TOP_K
    ensures 0.0 <= WeightedPrefix(cs, IntensityOf, n) <= 2.0 * WeightTotal(n)
  {
    if n > 0 {
      IntensityPrefixBound(cs, n - 1);
      WeightPositive(n - 1);
      IntensityStep(cs[n - 1].contribution, WEIGHTS[n - 1]);
    }
  }

  lemma {:induction false} PartsPrefixBound(cs: seq<Scored>, n: nat)
    requires Bounded(cs) && n <= |cs| && n <= TOP_K
    ensures 0.0 <= WeightedPrefix(cs, PositivePart, n) && 0.0 <= WeightedPrefix(cs, NegativePart, n)
    ensures WeightedPrefix(cs, PositivePart, n) + WeightedPrefix(cs, NegativePart, n) <= 2.0 * WeightTotal(n)
  {
    if n > 0 {
      PartsPrefixBound(cs, n - 1);
      WeightPositive(n - 1);
      PartsStep(cs[n - 1].contribution, WEIGHTS[n - 1]);
    }
  }

  /** One weighted contribution adds at most twice its weight to each sum. */
  lemma BenefitStep(c: InfluenceContribution, w: real)
    requires Abs(c.benefit) <= 2.0 && w > 0.0
    ensures Abs(BenefitOf(c) * w) <= 2.0 * w
  {
    ScaleBound(c.benefit, w);
  }

  lemma IntensityStep(c: InfluenceContribution, w: real)
    requires 0.0 <= c.intensity <= 2.0 && w > 0.0
    ensures 0.0 <= IntensityOf(c) * w <= 2.0 * w
  {
    ScaleBound(c.intensity, w);
    MulNonneg(c.intensity, w);
  }

  lemma PartsStep(c: InfluenceContribution, w: real)
    requires Abs(c.benefit) <= 2.0 && w > 0.0
    ensures 0.0 <= PositivePart(c) * w && 0.0 <= NegativePart(c) * w
    ensures PositivePart(c) * w + NegativePart(c) * w <= 2.0 * w
  {
    MulNonneg(Max(c.benefit, 0.0), w);
    MulNonneg(Max(-c.benefit, 0.0), w);
    assert Max(c.benefit, 0.0) * w + Max(-c.benefit, 0.0) * w == Abs(c.benefit) * w;
    ScaleBound(c.benefit, w);
    AbsScale(c.benefit, w);
  }

  lemma SquareBelow(s: real, b: real)
    requires 0.0 <= b < s
    ensures b * b < s * s
  {
    MulNonneg(s - b, s + b);
    assert (s - b) * (s + b) == s * s - b * b;
    assert (s - b) * (s + b) != 0.0 by {
      assert s - b > 0.0 && s + b > 0.0;
      MulPos(s - b, s + b);
    }
  }

  lemma MulPos(x: real, y: real)
    requires x > 0.0 && y > 0.0
    ensures x * y > 0.0
  {
  }

  /** Contributions from ratings 1 to 5 and kernels in [0, 1] stay bounded through the sort. */
  lemma SortedBounded(city: CityInfluenceSet, config: ScoringConfig, num: Numerics)
    requires KernelDefined(city, config)
    requires forall i :: 0 <= i < |city.influences| ==>
      1 <= city.influences[i].rating <= 5 && 0.0 <= ApplyKernel(city.influences[i].distanceKm, config, num) <= 1.0
    ensures Bounded(SortDescending(ScoredAll(city, config, num), BenefitMagnitude))
  {
    var all := ScoredAll(city, config, num);
    var sorted := SortDescending(all, BenefitMagnitude);
    forall i | 0 <= i < |all|
      ensures Abs(all[i].contribution.benefit) <= 2.0 && 0.0 <= all[i].contribution.intensity <= 2.0
    {
      ContributionBounds(city.influences[i], ApplyKernel(city.influences[i].distanceKm, config, num));
    }
    SortDescendingPermutes(all, BenefitMagnitude);
    forall j | 0 <= j < |sorted|
      ensures Abs(sorted[j].contribution.benefit) <= 2.0 && 0.0 <= sorted[j].contribution.intensity <= 2.0
    {
      assert sorted[j] in multiset(all);
      var i :| 0 <= i < |all| && all[i] == sorted[j];
    }
  }

  /** Two non-negative parts summing to at most 4.76 have a product of at most 2.38 squared. */
  lemma PartsProductBound(p: real, n: real)
    requires p >= 0.0 && n >= 0.0 && p + n <= 4.76
    ensures p * n <= 5.6644
  {
    if p >= n { MulNonneg(p - n, p - n); } else { MulNonneg(n - p, n - p); }
    assert (p + n) * (p + n) - 4.0 * (p * n) == (p - n) * (p - n);
    MulNonneg(4.76 - (p + n), 4.76 + (p + n));
    assert (4.76 - (p + n)) * (4.76 + (p + n)) == 4.76 * 4.76 - (p + n) * (p + n);
  }

  /** Bounded contributions give raw sums within the design range. */
  lemma RawSumsBounded(sorted: seq<Scored>)
    requires Bounded(sorted)
    ensures Abs(WeightedSum(sorted, BenefitOf)) <= 4.76
    ensures 0.0 <= WeightedSum(sorted, IntensityOf) <= 4.76
    ensures WeightedSum(sorted, PositivePart) * WeightedSum(sorted, NegativePart) <= 5.6644
  {
    var k := if |sorted| < TOP_K then |sorted| else TOP_K;
    var p, n := WeightedSum(sorted, PositivePart), WeightedSum(sorted, NegativePart);
    assert p == WeightedPrefix(sorted, PositivePart, k) && n == WeightedPrefix(sorted, NegativePart, k);
    WeightedPrefixBounds(sorted, k);
    WeightTotalBound(k);
    PartsProductBound(p, n);
  }

  /**
   * The score `s` of the sorted contributions is their raw normalisation, unclamped: benefit
   * 50 + raw * 10.5, intensity raw * 21, and, when `sqrt` returns the square root of P * N,
   * volatility that root times 42, with P * N small enough to keep it at most 100.
   */
  ghost predicate Unclamped(s: CityScore, sorted: seq<Scored>, sqrt: real -> real)
  {
    var p := WeightedSum(sorted, PositivePart);
    var n := WeightedSum(sorted, NegativePart);
    s.benefitScore == 50.0 + WeightedSum(sorted, BenefitOf) * 10.5
    && s.intensityScore == WeightedSum(sorted, IntensityOf) * 21.0
    && p * n * 42.0 * 42.0 < 100.0 * 100.0
    && (sqrt(p * n) >= 0.0 && sqrt(p * n) * sqrt(p * n) == p * n ==> s.volatilityScore == sqrt(p * n) * 42.0)
  }

  /** With bounded contributions no clamp of the normalisation acts (given a true square root). */
  lemma ScoreSortedUnclamped(city: CityInfluenceSet, sorted: seq<Scored>, sqrt: real -> real)
    requires Bounded(sorted)
    ensures Unclamped(ScoreSorted(city, sorted, sqrt), sorted, sqrt)
  {
    RawSumsBounded(sorted);
    var p := WeightedSum(sorted, PositivePart);
    var n := WeightedSum(sorted, NegativePart);
    var r := sqrt(p * n);
    if r >= 0.0 && r * r == p * n && r > 2.38 {
      SquareBelow(r, 2.38);
    }
  }

  /**
   * The design bound behind the normalisation: for ratings 1 to 5 and kernels in [0, 1], the
   * raw benefit stays within +-4.76 and the raw intensity within 4.76, so neither clamp ever
   * acts; and P * N <= 2.38 squared, so with a true square root the volatility clamp never acts
   * either.
   */
  lemma NormalisationNeverClamps(city: CityInfluenceSet, config: ScoringConfig, num: Numerics)
    requires KernelDefined(city, config) && |city.influences| > 0
    requires forall i :: 0 <= i < |city.influences| ==>
      1 <= city.influences[i].rating <= 5 && 0.0 <= ApplyKernel(city.influences[i].distanceKm, config, num) <= 1.0
    ensures Unclamped(CityScoreOf(city, config, num),
                      SortDescending(ScoredAll(city, config, num), BenefitMagnitude), num.sqrt)
  {
    SortedBounded(city, config, num);
    ScoreSortedUnclamped(city, SortDescending(ScoredAll(city, config, num), BenefitMagnitude), num.sqrt);
  }

  /** A positive (negative) part sum needs a positive (negative) benefit among the summed. */
  lemma {:induction false} PartNeedsSign(cs: seq<Scored>, n: nat)
    requires n <= |cs| && n <= TOP_K
    ensures WeightedPrefix(cs, PositivePart, n) > 0.0 ==> exists i :: 0 <= i < n && cs[i].contribution.benefit > 0.0
    ensures WeightedPrefix(cs, NegativePart, n) > 0.0 ==> exists i :: 0 <= i < n && cs[i].contribution.benefit < 0.0
  {
    if n > 0 {
      PartNeedsSign(cs, n - 1);
      var b := cs[n - 1].contribution.benefit;
      if b <= 0.0 {
        assert PositivePart(cs[n - 1].contribution) == 0.0;
      }
      if b >= 0.0 {
        assert NegativePart(cs[n - 1].contribution) == 0.0;
      }
    }
  }

  /** Among the first seven contributions there is a favourable and an unfavourable one. */
  ghost predicate BothSignsInTop(sorted: seq<Scored>)
  {
    (exists i :: 0 <= i < TOP_K && i < |sorted| && sorted[i].contribution.benefit > 0.0)
    && (exists i :: 0 <= i < TOP_K && i < |sorted| && sorted[i].contribution.benefit < 0.0)
  }

  lemma MixedSortedBothSigns(city: CityInfluenceSet, sorted: seq<Scored>, sqrt: real -> real)
    requires ScoreSorted(city, sorted, sqrt).mixedFlag
    ensures BothSignsInTop(sorted)
  {
    var k := if |sorted| < TOP_K then |sorted| else TOP_K;
    PartNeedsSign(sorted, k);
    var i :| 0 <= i < k && sorted[i].contribution.benefit > 0.0;
    var j :| 0 <= j < k && sorted[j].contribution.benefit < 0.0;
    assert 0 <= i < TOP_K && i < |sorted| && sorted[i].contribution.benefit > 0.0;
    assert 0 <= j < TOP_K && j < |sorted| && sorted[j].contribution.benefit < 0.0;
  }

  /**
   * A city is flagged mixed only when its seven strongest influences include both a favourable
   * and an unfavourable one.
   */
  lemma MixedMeansBothSigns(city: CityInfluenceSet, config: ScoringConfig, num: Numerics)
    requires KernelDefined(city, config)
    requires CityScoreOf(city, config, num).mixedFlag
    ensures BothSignsInTop(SortDescending(ScoredAll(city, config, num), BenefitMagnitude))
  {
    MixedSortedBothSigns(city, SortDescending(ScoredAll(city, config, num), BenefitMagnitude), num.sqrt);
  }

  /** The weighted sum over seven contributions, written out. */
  lemma WeightedSumOfSeven(cs: seq<Scored>, part: InfluenceContribution -> real)
    requires |cs| == 7
    ensures WeightedSum(cs, part) ==
      part(cs[0].contribution) * 1.0 + part(cs[1].contribution) * 0.6 + part(cs[2].contribution) * 0.35
      + part(cs[3].contribution) * 0.2 + part(cs[4].contribution) * 0.1 + part(cs[5].contribution) * 0.08
      + part(cs[6].contribution) * 0.05
  {
    assert WeightedPrefix(cs, part, 1) == part(cs[0].contribution) * 1.0;
    assert WeightedPrefix(cs, part, 2) == WeightedPrefix(cs, part, 1) + part(cs[1].contribution) * 0.6;
    assert WeightedPrefix(cs, part, 3) == WeightedPrefix(cs, part, 2) + part(cs[2].contribution) * 0.35;
    assert WeightedPrefix(cs, part, 4) == WeightedPrefix(cs, part, 3) + part(cs[3].contribution) * 0.2;
    assert WeightedPrefix(cs, part, 5) == WeightedPrefix(cs, part, 4) + part(cs[4].contribution) * 0.1;
    assert WeightedPrefix(cs, part, 6) == WeightedPrefix(cs, part, 5) + part(cs[5].contribution) * 0.08;
  }

  /** The alternating city of the mixed-volatility test: four rating-5 and three rating-1 lines on the city. */
  function AlternatingCity(): CityInfluenceSet
  {
    CityInfluenceSet("Test", "Test", 0.0, 0.0,
      [Influence("Sun", "MC", 5, None, 0.0), Influence("Saturn", "MC", 1, None, 0.0),
       Influence("Jupiter", "MC", 5, None, 0.0), Influence("Neptune", "MC", 1, None, 0.0),
       Influence("Venus", "MC", 5, None, 0.0), Influence("Pluto", "MC", 1, None, 0.0),
       Influence("Mars", "MC", 5, None, 0.0)])
  }

  /** An unaspected rating-5 or rating-1 line through the city, with the Gaussian kernel at 1 there. */
  lemma OnLineUnaspected(influence: Influence, num: Numerics)
    requires influence.aspect == None && influence.distanceKm == 0.0 && num.gaussian(0.0, 180.0) == 1.0
    requires influence.rating == 5 || influence.rating == 1
    ensures ScoredOf(influence, BALANCED, num).distanceKm == 0.0
    ensures var c := ScoredOf(influence, BALANCED, num).contribution;
      c.intensity == 2.0 && c.volatility == 0.0 && c.benefit == if influence.rating == 5 then 2.0 else -2.0
  {
  }

  /** The alternating city's contributions: +2 and -2 in turn, each of intensity 2, all on the city. */
  function AlternatingScored(): seq<Scored>
  {
    var up := Scored(InfluenceContribution(2.0, 2.0, 0.0), 0.0);
    var down := Scored(InfluenceContribution(-2.0, 2.0, 0.0), 0.0);
    [up, down, up, down, up, down, up]
  }

  /** All seven contributions have the same size, so sorting leaves them in input order. */
  lemma AlternatingSorted(num: Numerics)
    requires num.gaussian(0.0, 180.0) == 1.0
    ensures SortDescending(ScoredAll(AlternatingCity(), BALANCED, num), BenefitMagnitude) == AlternatingScored()
  {
    var city := AlternatingCity();
    var all := ScoredAll(city, BALANCED, num);
    forall i | 0 <= i < 7
      ensures all[i] == AlternatingScored()[i]
    {
      OnLineUnaspected(city.influences[i], num);
    }
    SameElements(all, AlternatingScored());
    forall i | 0 <= i < |all|
      ensures BenefitMagnitude(all[i]) == 2.0
    {
    }
    EqualKeysNonIncreasing(all, BenefitMagnitude, 2.0);
    SortDescendingFixesOrdered(all, BenefitMagnitude);
  }

  lemma SameElements<T>(a: seq<T>, b: seq<T>)
    requires |a| == |b| && forall i :: 0 <= i < |a| ==> a[i] == b[i]
    ensures a == b
  {
  }

  lemma EqualKeysNonIncreasing<T>(s: seq<T>, key: T -> real, v: real)
    requires forall i :: 0 <= i < |s| ==> key(s[i]) == v
    ensures NonIncreasing(s, key)
  {
  }

  /** P = 2 * (1 + 0.35 + 0.1 + 0.05) = 3, N = 2 * (0.6 + 0.2 + 0.08) = 1.76, and their difference 1.24. */
  lemma AlternatingSums()
    ensures WeightedSum(AlternatingScored(), PositivePart) == 3.0
    ensures WeightedSum(AlternatingScored(), NegativePart) == 1.76
    ensures WeightedSum(AlternatingScored(), BenefitOf) == 1.24
    ensures WeightedSum(AlternatingScored(), IntensityOf) == 4.76
  {
    var cs := AlternatingScored();
    WeightedSumOfSeven(cs, PositivePart);
    WeightedSumOfSeven(cs, NegativePart);
    WeightedSumOfSeven(cs, BenefitOf);
    WeightedSumOfSeven(cs, IntensityOf);
  }

  /**
   * With the Gaussian kernel at 1 on the line, the alternating city is flagged mixed: P = 3 and
   * N = 1.76 both exceed 0.5, and the benefit score is 50 + 1.24 * 10.5.
   */
  lemma AlternatingCityIsMixed(num: Numerics)
    requires num.gaussian(0.0, 180.0) == 1.0
    ensures var s := CityScoreOf(AlternatingCity(), BALANCED, num);
      s.mixedFlag && s.benefitScore == 63.02 && s.intensityScore == 99.96 && s.influenceCount == 7
  {
    AlternatingSorted(num);
    AlternatingSums();
  }
}
