# Astrocartography core: a Dafny model

This project models the parts of an astrocartography engine that carry checkable logic, and
proves properties of them. It has three components.

**The chart engine** (`src/astro-core/src/lib.rs`):
- angle normalisation;
- the calendar to Julian Date conversion and its inverse;
- the MC and IC line longitudes;
- house-cusp construction: equal, whole sign and Porphyry, plus the structure of Placidus and
  Koch;
- the house lookup;
- the compass and zodiac-sign tables.

**The location scout** (`src/astro-core/src/scout.rs`):
- line bounding boxes;
- longitude unwrapping and the dateline crossing;
- the minimum distance from a city to a polyline;
- distance kernels, rating and aspect conversion, and the contribution of one line;
- the bounded city score;
- the per-category line tables and filter;
- the city ranking and the grouping by country;
- Douglas-Peucker simplification.

**The ZIP-boundary uploader** (`upload_zips.py`):
- reading the stored codes;
- preparing the batch;
- the chunked, conflict-ignoring inserts with commit and rollback.

Modelling choices:
- Floating-point values are exact `real`s.
- Rust's truncating `%` is modelled explicitly (`Angles.FMod`, `Angles.Trunc`). So is Rust's
  `rem_euclid` (`Angles.RemEuclid`).
- Trigonometry, `exp`, `sqrt` and the great-circle, equirectangular and perpendicular
  distances are function-typed parameters. Every property is proved for all such functions.
- The database is a map from ZIP code to stored geometry text.
- The GeoJSON serialiser is a parameter that may fail (`None`).
- Whether the database accepts an insert is a parameter, `accepts`.

Code that works by mutation is written as methods with loops. Most of these methods are proved
equal to a reference function, and the properties are proved about that function:
- the whole-sign and Porphyry house arrays and the wrap loops;
- the polyline minimum;
- the stable sorts;
- the ranking and grouping loops;
- the farthest-point scan;
- the batch preparation and the chunk loop.

The others state their property directly in their `ensures` clauses, with no reference function:
- `Houses.EqualHouses`: each cusp is on the circle, congruent to asc + 30·i, and 30° after the
  previous one;
- `LineGeometry.BoxFromPoints`: the box encloses every point, and each edge is reached by a point;
- `Houses.FindHouse`: the house is the first arc that holds the longitude, or 1 when none does.

The uploader's connection is a class. Its committed and pending tables are fields that its
methods update.

Modules:
- `Wrappers`
- `Angles`
- `Julian`
- `Tables`
- `Houses`
- `Sorting`
- `LineGeometry`
- `Scoring`
- `Categories`
- `Ranking`
- `Simplify`
- `Upload`

## Model

| member | source | states |
|---|---|---|
| Angles.DegNorm | src/astro-core/src/lib.rs:92-94 | swe_degnorm lies in [0, 360) and differs from its input by a whole number of turns |
| Angles.DegNormIsRemEuclid | src/astro-core/src/lib.rs:92-94 | the model equals `x.rem_euclid(360.0)` written out with truncation (fmod, plus 360 when negative) |
| Angles.DegNormUnique | src/astro-core/src/lib.rs:92-94 | the normalised angle is the only value in [0, 360) congruent to the input |
| Angles.DegNormPeriodic | src/astro-core/src/lib.rs:92-94 | adding whole turns to the input does not change swe_degnorm |
| Angles.DegNormCongruent | src/astro-core/src/lib.rs:92-94 | congruent inputs normalise to the same angle |
| Angles.DegNormAbsorb | src/astro-core/src/lib.rs:92-94 | normalising before adding an offset gives the same result as normalising after |
| Angles.NormalizeAngle | src/astro-core/src/lib.rs:788-791 | normalize_angle, with truncating `%` twice, lies in [0, 2π) and is congruent to the input mod 2π |
| Angles.NormalizeAngleUnique | src/astro-core/src/lib.rs:788-791 | the result is the only value in [0, 2π) congruent to the input |
| Angles.NormalizeAngleMatchesDegNorm | src/astro-core/src/lib.rs:788-791 | normalising in radians, then converting to degrees, equals swe_degnorm of the angle in degrees |
| Angles.NormalizeAngleExamples | src/astro-core/src/lib.rs:3961-3968 | 3π becomes π, −π becomes π, 2π becomes 0, and 0 stays 0 |
| Angles.Fold180 | src/astro-core/src/lib.rs:98-103 | the folded difference lies in [−180, 180] and is congruent to the raw difference; it is 180 only when the input is at least 180, and −180 only when the input is at most −180 |
| Angles.Fold180Unique | src/astro-core/src/lib.rs:98-103 | the folded value is the only one with those properties |
| Angles.Fold180Negate | src/astro-core/src/lib.rs:98-103 | swapping the two angles negates the difference |
| Angles.WrapDelta | src/astro-core/src/lib.rs:98-103 | the two while loops terminate with the folded difference; an input already in [−180, 180] is returned unchanged |
| Angles.DifDeg2n | src/astro-core/src/lib.rs:98-103 | swe_difdeg2n(p1, p2) is the folded p1 − p2 |
| Angles.ShortestAngularDistance | src/astro-core/src/lib.rs:3866-3871 | shortest_angular_distance(from, to) is the folded to − from |
| Angles.AngleDifference | src/astro-core/src/lib.rs:3316-3319 | the result is to − from, or that plus 360; for angles in [0, 360) it is swe_degnorm(to − from) |
| Angles.McLongitude | src/astro-core/src/lib.rs:1509-1516 | the MC line longitude lies in (−180, 180] and is congruent to (RA − GMST) in degrees |
| Angles.IcLongitude | src/astro-core/src/lib.rs:1520-1527 | the IC line longitude lies in (−180, 180] and is congruent to (RA − GMST) in degrees plus 180 |
| Angles.LineLongitude | src/astro-core/src/lib.rs:1509-1527 | the shared tail of calculate_mc_longitude and calculate_ic_longitude: the normalised angle in degrees, shifted down by 360 when above 180, lies in (−180, 180] and is congruent to the input angle in degrees |
| Angles.McIcOpposite | src/astro-core/src/lib.rs:1509-1527 | for every RA and GMST the IC longitude is the MC longitude plus 180 when the MC is at most 0, and minus 180 otherwise |
| Angles.McLongitudeExamples | src/astro-core/src/lib.rs:3988-4020 | MC at RA = GMST is 0; 45° of RA past GMST gives 45; the IC at RA = GMST is 180 |
| Julian.ToJulianDateIsDayNumber | src/astro-core/src/lib.rs:805-823 | to_julian_date (`Julian.ToJulianDate`) equals an integer day number minus one half plus the day fraction of the time |
| Julian.JdToCalendarIsCalendarOfDay | src/astro-core/src/lib.rs:847-880 | jd_to_calendar's (`Julian.JdToCalendar`) float floors equal integer divisions on the day number |
| Julian.CalendarOfDayNumber | src/astro-core/src/lib.rs:847-880 | on every Gregorian date, the inverse algorithm maps the day number back to that date |
| Julian.RoundTrip | src/astro-core/src/lib.rs:805-880 | for every Gregorian date and time from 1582-10-15 on, jd_to_calendar(to_julian_date(...)) returns the same year, month and day |
| Julian.DayNumberAfterReform | src/astro-core/src/lib.rs:853-858 | every date from 1582-10-15 on has a day number at or past 2299161, so jd_to_calendar takes its Gregorian branch |
| Julian.JulianDateExamples | src/astro-core/src/lib.rs:3886-3907 | 2000-01-01 12:00 is 2451545.0; 1999-12-31 00:00 is 2451543.5; 2024-01-01 00:00 is 2460310.5 |
| Julian.CalendarExample | src/astro-core/src/lib.rs:841-846 | the documented example: the Julian Date 2451545.0 converts to 2000-01-01 |
| Tables.AzimuthToDirection | src/astro-core/src/lib.rs:2771-2781 | the label is always one of the eight compass points |
| Tables.AzimuthNormalization | src/astro-core/src/lib.rs:2772 | the double-`%` normalisation equals swe_degnorm |
| Tables.AzimuthToDirectionIsSector | src/astro-core/src/lib.rs:2771-2781 | the label is the compass point of the 45° sector centred on it that holds the normalised azimuth |
| Tables.NorthSector | src/astro-core/src/lib.rs:2773 | "N" is returned exactly when the normalised azimuth is in [337.5, 360) or [0, 22.5) |
| Tables.AzimuthToDirectionPeriodic | src/astro-core/src/lib.rs:2771-2781 | whole turns added to the azimuth do not change the label |
| Tables.SignName | src/astro-core/src/lib.rs:3462-3478 | indices 0..11 name the twelve signs in order; every other u8 gives "Unknown" |
| Tables.SignNameKnownIff | src/astro-core/src/lib.rs:3462-3478 | a name is known exactly below 12, and the twelve names are distinct |
| Houses.EqualHouses | src/astro-core/src/lib.rs:3100-3106 | twelve cusps in [0, 360); cusp i is congruent to asc + 30·i; each cusp is 30° after the one before it, mod 360 |
| Houses.FirstSign | src/astro-core/src/lib.rs:3111 | the sign index of the ascendant: for asc ≥ 0, 30 × index ≤ asc < 30 × index + 30; for a negative asc, 0, the lower end of Rust's saturating float-to-usize cast |
| Houses.WholeSignHouses | src/astro-core/src/lib.rs:3109-3119 | cusp i is 30·((first sign + i) mod 12), so each cusp is a multiple of 30 in [0, 360) and 30° after the previous one; for asc in [0, 360), cusp 0 ≤ asc < cusp 0 + 30; a negative asc starts at Aries |
| Houses.PorphyryHouses | src/astro-core/src/lib.rs:3284-3313 | cusps 0, 9, 3 and 6 are asc, mc, degnorm(mc + 180) and degnorm(asc + 180); each quadrant is trisected; for asc and mc in [0, 360), all cusps lie on the circle and opposite cusps are 180° apart |
| Houses.PorphyryOpposite | src/astro-core/src/lib.rs:3284-3313 | every Porphyry cusp array from angles on the circle has opposite cusps exactly half a turn apart |
| Houses.QuadrantArcs | src/astro-core/src/lib.rs:3296-3311 | opposite quadrants of the Porphyry construction span equal arcs |
| Houses.EasternAscendant | src/astro-core/src/lib.rs:3153-3157 | after the correction, the ascendant is not behind the MC (its folded difference is ≥ 0), and it is the raw ascendant or its opposite point |
| Houses.SpaceHouses | src/astro-core/src/lib.rs:3241-3248 | `Err` with the given message exactly when abs(lat) ≥ 90 − obliquity; otherwise cusp 0 is the corrected ascendant, cusps 9–11, 1 and 2 are the computed ones, cusps 3–8 are degnorm of the opposite cusp plus 180, and every pair of opposite cusps is half a turn apart when the computed cusps lie on the circle |
| Houses.MirrorUpperHalf | src/astro-core/src/lib.rs:3241-3246 | fills cusps 3–8 from their opposite cusps and changes nothing else |
| Houses.PlacidusHousesSwe | src/astro-core/src/lib.rs:3132-3249 | returns the Placidus polar-circle error exactly when abs(lat) ≥ 90 − obliquity; otherwise returns the structured cusp array |
| Houses.KochHousesSwe | src/astro-core/src/lib.rs:3331-3391 | returns the Koch polar-circle error exactly when abs(lat) ≥ 90 − obliquity; otherwise returns the structured cusp array |
| Houses.ArmcOfMc | src/astro-core/src/lib.rs:3258-3272 | the quadrant-adjusted ARMC lies in [0, 360) |
| Houses.PlacidusHouses | src/astro-core/src/lib.rs:3254-3282 | inside the polar circle the result is the Porphyry array; outside, it is the Placidus array for the derived ARMC with 2 iterations |
| Houses.KochHouses | src/astro-core/src/lib.rs:3396-3419 | inside the polar circle the result is the Porphyry array; outside, it is the Koch array for the derived ARMC |
| Houses.FindHouse | src/astro-core/src/lib.rs:3481-3500 | the house is in 1..12; it is i + 1 for the first arc i that holds the longitude (wrap-aware); it is 1 when no arc holds it |
| Houses.NoHouseIffCuspsCoincide | src/astro-core/src/lib.rs:3481-3500 | no arc holds the longitude exactly when all twelve cusps are equal, so the default of 1 is reached only then |
| Sorting.SortDescendingPermutes | src/astro-core/src/scout.rs:714-720 | the sort is a permutation of its input |
| Sorting.SortDescendingOrders | src/astro-core/src/scout.rs:714-720 | the sorted keys never increase |
| Sorting.SortDescendingStable | src/astro-core/src/scout.rs:714-720 | elements with equal keys keep their input order, as Rust's stable `sort_by` does |
| Sorting.SortDescendingFixesOrdered | src/astro-core/src/scout.rs:714-720 | an input already in non-increasing order is returned unchanged |
| Sorting.SortInPlace | src/astro-core/src/scout.rs:714-720 | the in-place insertion sort leaves the array equal to the reference stable sort of its old contents |
| Sorting.SortedCopy | src/astro-core/src/scout.rs:1054-1081 | the copy sorted in an array equals the reference stable sort |
| LineGeometry.BoxFromPoints | src/astro-core/src/scout.rs:327-361 | with no points, the whole globe with no buffer; otherwise min ≤ max on both axes, every point inside, each edge reached by some point, and the buffer is km / 111.32 |
| LineGeometry.MightContain | src/astro-core/src/scout.rs:367-387 | true only within the buffered latitude band; for a box with min lon ≤ max lon, true exactly inside the buffered rectangle |
| LineGeometry.MightContainOwnPoints | src/astro-core/src/scout.rs:327-387 | the box built from points admits every one of those points |
| LineGeometry.WholeGlobeContainsAll | src/astro-core/src/scout.rs:328-335 | the empty-line box admits every valid coordinate |
| LineGeometry.UnwrapLongitude | src/astro-core/src/scout.rs:507-512 | the result is ref + δ with δ in [−180, 180], congruent to lon |
| LineGeometry.DatelineCrossing | src/astro-core/src/scout.rs:516-529 | the crossing longitude is exactly 180 or −180 |
| LineGeometry.InterpolateDatelineCrossing | src/astro-core/src/scout.rs:516-529 | the method, with its unwrapping loop, computes the reference crossing |
| LineGeometry.DatelineCrossingBetween | src/astro-core/src/scout.rs:486-490 | for a segment spanning more than 180°, the crossing latitude is undefined only for a segment from −180 to +180 or from +180 to −180; otherwise it lies between the endpoint latitudes, on the meridian the short way round |
| LineGeometry.SegmentMinIsMin | src/astro-core/src/scout.rs:562-570 | the running minimum is at most every segment distance so far and equals one of them |
| LineGeometry.PolylineDistance | src/astro-core/src/scout.rs:553-571 | for two or more points, the distance is at most every segment's distance and equals one of them |
| LineGeometry.DistanceToPolyline | src/astro-core/src/scout.rs:553-571 | the segment loop computes the reference polyline distance, whose minimality over the segments is stated by `PolylineDistance` |
| LineGeometry.FastDistanceToPolyline | src/astro-core/src/scout.rs:1692-1741 | `Some(d)` only when d ≤ threshold and d is the exact polyline distance; `None` outside the box and for fewer than two points; `Some` only if some vertex estimate is within 1.2 × threshold |
| Scoring.Clamp | src/astro-core/src/scout.rs:800-802 | `f64::clamp` stays in [lo, hi] and keeps any value already inside |
| Scoring.LinearKernel | src/astro-core/src/scout.rs:578-580 | the kernel is ≥ 0; it is 1 at distance 0 and 0 at or beyond the bandwidth; it is at most 1 for a positive bandwidth |
| Scoring.LinearKernelExamples | src/astro-core/src/scout.rs:2178-2183 | the kernel at 0, 250, 500 and 600 km with a 500 km bandwidth is 1, 0.5, 0 and 0 |
| Scoring.ApplyKernel | src/astro-core/src/scout.rs:594-600 | the linear choice is never negative |
| Scoring.RatingToBenefit | src/astro-core/src/scout.rs:608-610 | the benefit is positive exactly above rating 3 and zero exactly at 3; ratings 1..5 give benefits in [−2, 2] |
| Scoring.RatingToIntensity | src/astro-core/src/scout.rs:613-615 | the intensity is never negative, is zero exactly at rating 3, and is at most 2 for ratings 1..5 |
| Scoring.RatingConversions | src/astro-core/src/scout.rs:608-615 | intensity is the absolute benefit; benefit is positive exactly above rating 3 and zero exactly at 3; ratings 1..5 give benefits in [−2, 2] |
| Scoring.RatingToBenefitExamples | src/astro-core/src/scout.rs:2195-2201 | ratings 5, 4, 3, 2, 1 map to 2, 1, 0, −1, −2 |
| Scoring.AspectBenefitMultiplier | src/astro-core/src/scout.rs:619-629 | the multiplier is negative exactly for square, opposition and sesquisquare, and lies in [−1, 1] |
| Scoring.AspectIntensityMultiplier | src/astro-core/src/scout.rs:632-642 | the multiplier lies in (0, 1] |
| Scoring.AspectMultipliers | src/astro-core/src/scout.rs:619-641 | the benefit multiplier is negative exactly for square, opposition and sesquisquare, and lies in [−1, 1]; the intensity multiplier lies in (0, 1] |
| Scoring.CalculateInfluenceContribution | src/astro-core/src/scout.rs:649-693 | a rating of 3 contributes nothing; a volatile contribution needs a hard aspect and a rating other than 3; under the linear kernel with a positive bandwidth and ratings 1..5, abs(benefit), intensity and volatility are at most 2, intensity and volatility are at least 0, and a line at or beyond the bandwidth contributes nothing |
| Scoring.ContributionAt | src/astro-core/src/scout.rs:666-693 | volatility is non-zero only for a negative benefit multiplier, a rating other than 3 and a non-zero kernel; in that case it is abs(rating − 3) × kernel |
| Scoring.ContributionBounds | src/astro-core/src/scout.rs:666-693 | with rating 1..5 and kernel in [0, 1], abs(benefit), intensity and volatility are at most 2, and intensity and volatility are at least 0 |
| Scoring.VolatilityBothDirections | src/astro-core/src/scout.rs:2354-2379 | a square flips Sun/MC 5 to a negative benefit and Saturn/MC 1 to a positive one, and both are flagged volatile |
| Scoring.CalculateCityScore | src/astro-core/src/scout.rs:696-823 | the method, which sorts the contributions in an array, computes the reference city score |
| Scoring.EmptyCityScore | src/astro-core/src/scout.rs:697-710 | with no influences the score is benefit 50, intensity 0, volatility 0, not mixed, count 0, infinite distance |
| Scoring.CityScoreBounds | src/astro-core/src/scout.rs:785-823 | all three scores lie in [0, 100]; the count is the number of influences; the name and country are copied |
| Scoring.TopSevenAreLargest | src/astro-core/src/scout.rs:713-737 | the sort is a permutation of the contributions, and each of the first seven (weighted) contributions has abs(benefit) at least that of every later (unweighted) one |
| Scoring.MinDistanceIsMin | src/astro-core/src/scout.rs:806-809 | the folded minimum distance is finite, at most every distance, and equal to one of them |
| Scoring.CityMinDistance | src/astro-core/src/scout.rs:806-809 | a city's minimum distance is at most every influence's distance and equals one of them |
| Scoring.WeightTotalBound | src/astro-core/src/scout.rs:35 | every prefix of the diminishing weights sums to at most 2.38 |
| Scoring.WeightedPrefixBounds | src/astro-core/src/scout.rs:739-766 | with contributions bounded by 2, the weighted benefit is at most 2W in absolute value, the weighted intensity is in [0, 2W], and the positive and negative parts sum to at most 2W |
| Scoring.RawSumsBounded | src/astro-core/src/scout.rs:768-799 | the raw benefit and intensity are at most 4.76 in absolute value, and positive × negative is at most 2.38² |
| Scoring.ScoreSortedUnclamped | src/astro-core/src/scout.rs:768-803 | on bounded contributions, none of the three clamps changes its value |
| Scoring.NormalisationNeverClamps | src/astro-core/src/scout.rs:768-803 | for ratings 1..5 and kernels in [0, 1], the mapped scores already lie in [0, 100], as the derivation in the source claims |
| Scoring.PartNeedsSign | src/astro-core/src/scout.rs:752-764 | a positive weighted positive part needs a positive contribution among the weighted ones, and likewise for the negative part |
| Scoring.MixedMeansBothSigns | src/astro-core/src/scout.rs:765 | a mixed city has both a beneficial and a challenging contribution among its seven strongest |
| Scoring.AlternatingCityIsMixed | src/astro-core/src/scout.rs:2321-2352 | the seven alternating 5/1 lines at distance 0 under the balanced configuration are mixed, with benefit 63.02, intensity 99.96 and count 7 |
| Categories.IsBeneficialForCategory | src/astro-core/src/scout.rs:831-913 | every favourable line of every category lies on ASC, DSC, MC or IC |
| Categories.IsChallengingForCategory | src/astro-core/src/scout.rs:915-965 | every challenging line lies on ASC, DSC, MC or IC, and none belongs to the Sun, Jupiter, Venus or Mercury |
| Categories.GetLineNature | src/astro-core/src/scout.rs:967-975 | beneficial exactly when in the beneficial table; challenging exactly when only in the challenging table; `None` exactly when in neither |
| Categories.FilterInfluencesByCategory | src/astro-core/src/scout.rs:978-990 | no longer than the input, and every kept influence is relevant |
| Categories.RelevantIffNature | src/astro-core/src/scout.rs:967-990 | an influence is kept by the filter's test exactly when its line has a nature |
| Categories.FilterMembership | src/astro-core/src/scout.rs:978-990 | an influence is kept exactly when it is in the input and relevant |
| Categories.FilterAppend | src/astro-core/src/scout.rs:978-990 | the filter distributes over concatenation, so it preserves order |
| Categories.FilterIdempotent | src/astro-core/src/scout.rs:978-990 | filtering twice is filtering once |
| Categories.PlutoMcIsCareer | src/astro-core/src/scout.rs:2411-2417 | Pluto/MC is beneficial and not challenging for Career |
| Categories.SaturnIcHomeIsBeneficial | src/astro-core/src/scout.rs:967-975 | Saturn/IC is in both Home tables, and the beneficial reading wins |
| Categories.TablesOverlapOnlyAtSaturnIc | src/astro-core/src/scout.rs:831-965 | the only line in both tables of a category is Saturn/IC for Home |
| Ranking.OverallNatureRule | src/astro-core/src/scout.rs:1025-1033 | "beneficial" exactly when not mixed and benefit > 52; "challenging" exactly when not mixed and benefit < 48; "mixed" otherwise |
| Ranking.TopInfluences | src/astro-core/src/scout.rs:1035-1039 | min(3, n) entries: the planet, angle and distance of the first filtered influences |
| Ranking.FilteredKernelDefined | src/astro-core/src/scout.rs:1007-1019 | the filtered city still has every kernel defined |
| Ranking.RankingOf | src/astro-core/src/scout.rs:1003-1052 | a city is dropped exactly when none of its influences is relevant to the category |
| Ranking.NoneRelevant | src/astro-core/src/scout.rs:1007-1010 | the filtered list is empty exactly when no influence is relevant |
| Ranking.RankingOfFacts | src/astro-core/src/scout.rs:1003-1052 | a kept ranking copies name and country, has at most 3 top influences, all from the category's tables, has a benefit in [0, 100], and has a nature consistent with the rule |
| Ranking.SomesMembership | src/astro-core/src/scout.rs:1001-1053 | `filter_map` keeps exactly the present results |
| Ranking.CollectedMembership | src/astro-core/src/scout.rs:1001-1053 | a ranking is collected exactly when some input city produces it |
| Ranking.RankCitiesByCategory | src/astro-core/src/scout.rs:997-1083 | the collect-then-sort method computes the reference ranking |
| Ranking.CollectRankings | src/astro-core/src/scout.rs:1001-1053 | the `filter_map` loop collects the reference rankings: the present results of the cities, in city order |
| Ranking.RankCity | src/astro-core/src/scout.rs:1005-1052 | the per-city closure method returns the reference result for the city: nothing when its filtered influences are empty, otherwise the city scored on them |
| Ranking.RankedCitiesSpec | src/astro-core/src/scout.rs:997-1083 | the output holds exactly the rankings of the cities with a relevant influence, as a permutation, in non-increasing order of the sort mode's key (benefit, intensity, or benefit − volatility × penalty) |
| Ranking.CountryOrder | src/astro-core/src/scout.rs:1213-1219 | each country appears once |
| Ranking.CountryOrderMembership | src/astro-core/src/scout.rs:1213-1219 | a country is listed exactly when some ranking has it |
| Ranking.CitiesOfMembership | src/astro-core/src/scout.rs:1213-1219 | a country's list holds exactly the rankings with that country |
| Ranking.CountNatureSorted | src/astro-core/src/scout.rs:1225-1229 | sorting does not change the counts by nature |
| Ranking.GroupOfSpec | src/astro-core/src/scout.rs:1222-1238 | a group holds exactly its country's cities, as a permutation, in non-increasing benefit order, with the beneficial and challenging counts of those cities |
| Ranking.GroupsInOrderDistinct | src/astro-core/src/scout.rs:1222-1239 | no group is built twice |
| Ranking.SortedGroupsCoverCities | src/astro-core/src/scout.rs:1204-1248 | every input city's country group is in the output |
| Ranking.SortedGroupsDistinct | src/astro-core/src/scout.rs:1204-1248 | no two output groups share a country |
| Ranking.GroupedCountriesSpec | src/astro-core/src/scout.rs:1204-1248 | empty input gives empty output; one group per country; each group is its country's group; every city's group is present; groups are in non-increasing order of their first city's benefit |
| Ranking.GroupByCountry | src/astro-core/src/scout.rs:1213-1219 | the grouping loop yields the countries in first-appearance order and maps each to its cities in input order |
| Ranking.BuildGroups | src/astro-core/src/scout.rs:1222-1239 | the group-building loop computes the reference groups |
| Ranking.GroupAndRankCountries | src/astro-core/src/scout.rs:1204-1248 | the method computes the reference grouping |
| Ranking.CitiesOfAbsent | src/astro-core/src/scout.rs:1213-1219 | a country that is not listed has no cities |
| Simplify.FarthestUpTo | src/astro-core/src/scout.rs:1603-1615 | the scan's index is 0 (with distance 0) or an index already scanned |
| Simplify.FarthestUpToSpec | src/astro-core/src/scout.rs:1603-1615 | the scan finds the first interior point of greatest distance, or index 0 and distance 0 when none is farther than 0 |
| Simplify.FindFarthest | src/astro-core/src/scout.rs:1603-1615 | the loop computes the reference scan |
| Simplify.SimplifyPolyline | src/astro-core/src/scout.rs:1598-1631 | inputs of at most 2 points are returned unchanged; otherwise the output has 2 to n points and keeps the first and last |
| Simplify.SimplifySplits | src/astro-core/src/scout.rs:1617-1625 | a split happens at an interior point, and the result joins the halves without the duplicate |
| Simplify.JoinSubsequences | src/astro-core/src/scout.rs:1620-1625 | joining the two simplified halves at the split point gives a subsequence of the whole |
| Simplify.SimplifyIsSubsequence | src/astro-core/src/scout.rs:1598-1631 | for tolerance ≥ 0, the output is the input at strictly increasing indices from the first point to the last |
| Simplify.SimplifyToChordIff | src/astro-core/src/scout.rs:1617-1630 | on more than two points, the output is just the endpoints exactly when every interior point lies within the tolerance |
| Upload.InsertAll | upload_zips.py:219-237 | the stored codes after the inserts are the old codes plus the inserted ones |
| Upload.CodesMembership | upload_zips.py:219-237 | every inserted row's code is among the inserted codes |
| Upload.InsertAllKeepsStored | upload_zips.py:234 | ON CONFLICT DO NOTHING: a stored row is never changed by later inserts |
| Upload.InsertAllAppend | upload_zips.py:215-240 | inserting two slices one after the other is inserting their concatenation |
| Upload.InsertAllPresent | upload_zips.py:234 | inserting rows whose codes are all stored changes nothing |
| Upload.InsertAllIdempotent | upload_zips.py:219-237 | repeating the same inserts changes nothing |
| Upload.Connection.ExistingZips | upload_zips.py:167-175 | the set of codes currently stored in the committed table |
| Upload.Connection.Insert | upload_zips.py:223-237 | one conflict-ignoring insert into the open transaction; the committed table is unchanged |
| Upload.Connection.Commit | upload_zips.py:239 | the open transaction becomes the committed table |
| Upload.Connection.Rollback | upload_zips.py:265 | the open transaction is discarded |
| Upload.Connection.Close | upload_zips.py:268 | the connection is closed and uncommitted inserts are lost |
| Upload.Strip | upload_zips.py:183 | stripping never lengthens the code |
| Upload.StripIsInfix | upload_zips.py:183 | the stripped code is a contiguous part of the raw code with only whitespace outside it |
| Upload.StripEnds | upload_zips.py:183 | a non-empty stripped code neither starts nor ends with whitespace |
| Upload.PrepareBatch | upload_zips.py:179-196 | the loop computes the reference batch and the number of skipped rows |
| Upload.BatchAccounting | upload_zips.py:182-196 | skipped + failed + len(batch) = number of rows, and no batch code is in the existing set |
| Upload.BatchMembership | upload_zips.py:182-196 | a prepared row is in the batch exactly when some row's stripped code is new and its geometry serialises to it |
| Upload.AllStoredMeansEmptyBatch | upload_zips.py:182-204 | when every row's code is stored, all rows are skipped and the batch is empty |
| Upload.ChunkStep | upload_zips.py:215-240 | committing the next slice extends both the stored rows and the committed slices by it |
| Upload.FlattenAppend | upload_zips.py:215-216 | the committed slices concatenate in order |
| Upload.InsertChunk | upload_zips.py:219-237 | either every row of the slice is accepted and inserted into the open transaction, or the first rejected row rolls it back; the committed table is untouched |
| Upload.UploadChunks | upload_zips.py:213-268 | slices of at most 1000 rows that cover the batch in order; on success, uploaded = len(batch) and the table has every batch row inserted; the upload succeeds exactly when the database accepts every row of the batch; on failure, the rows of the whole slices before the failing one are all accepted and are the only ones committed, and the failing slice holds a rejected row |
| Upload.UploadZipBoundaries | upload_zips.py:167-268 | nothing is uploaded exactly when the batch is empty; the connection is closed on every path; after success the count is len(batch) and the stored table is the old one with the whole batch inserted; the upload succeeds exactly when the batch is non-empty and the database accepts all of it; after a failure fewer than len(batch) rows are reported, every reported row was accepted, the next slice of up to 1000 rows holds a rejected one, and the stored table has exactly that prefix of the batch inserted |
| Upload.SecondRunUploadsNothing | upload_zips.py:167-204 | after a successful run, a second run over the same rows prepares an empty batch |

## Left out

- Ephemeris, nutation, Delta-T, timezone lookup, and the WASM and JSON entry points are
  floating-point series, foreign calls or glue. They are not part of this model.
- The trigonometry of Placidus and Koch is left out: `swe_asc1`, `armc_to_mc` and the
  intermediate-cusp iterations. They enter as function parameters that produce the six
  computed cusps, and the model checks the structure around them.
- Trigonometric and numeric library calls are function parameters: `sin`, `cos`, `atan`,
  `exp`, `sqrt`, and the haversine, cross-track, equirectangular and perpendicular distances.
  Properties that depend on their values (for example, that a Gaussian kernel lies in [0, 1])
  appear as preconditions.
- IEEE-754 rounding, NaN and infinities are not modelled; values are exact reals. π is the
  decimal constant `3.141592653589793`. An `f64::INFINITY` distance is a separate `Infinite`
  case.
- LineGeometry.DatelineCrossing: when the unwrapped second longitude equals the first (the two
  longitudes differ by a whole number of turns), the source divides by zero. The model returns
  `None` for the latitude in every such case. For a segment from −180 to +180 the crossing
  meridian is −180, so t = 0/0 and the latitude is NaN. For a segment from +180 to −180, t is
  −360/0 = −∞, so the latitude is −∞ when lat2 > lat1, +∞ when lat2 < lat1, and NaN when they are
  equal.
- Julian.JdToCalendar: integers are unbounded. The source casts `c - 4716` (or `c - 4715`) from
  i64 to i32, and `as` wraps. Beyond about ±2³¹ years the source's year wraps and the model's
  does not. For example, jd = 1.0e12 gives c ≈ 2.738e9: the source returns a year near −1.56e9,
  and the model returns c − 4716. The f64-to-i64 casts of the floors saturate in the source;
  the model's floors do not.
- Julian.ToJulianDate: the year is unbounded. In the source, `year - 1` overflows i32 for
  year = i32::MIN with month ≤ 2. The model computes the ordinary predecessor.
- Houses.FirstSign: only the lower end of the saturating `as usize` cast is modelled (a negative
  quotient gives 0). The upper saturation at usize::MAX (2³² − 1 on wasm32, 2⁶⁴ − 1 natively) is
  not: the model's sign index is unbounded. Houses.WholeSignHouses inherits the difference, so
  for asc ≥ 30 · 2³² on wasm32 (30 · 2⁶⁴ natively) its cusps differ from the source's. The
  callers pass an ascendant in [0, 360), far below either bound.
- LineGeometry.MightContain: the box constructor never makes min lon > max lon. The
  dateline branch of the containment test is modelled but unreachable from `from_points`.
- Ranking.GroupedCountries: the source groups through a `HashMap`, whose iteration order is
  unspecified. The model takes countries in first-appearance order before the stable sort,
  so the order of groups whose best cities tie is one of the possible orders.
- Simplify.SimplifyPolyline: the model requires tolerance ≥ 0. With a negative tolerance the
  source can recurse on the same points forever. Its caller only simplifies with a positive
  tolerance.
- Scoring.LinearKernel: requires a non-zero bandwidth or a non-negative distance. With a zero
  bandwidth and a negative distance the source returns +∞ (1 − (−∞)), which no real stands for.
  The same requirement carries over to `Scoring.ApplyKernel` and `Scoring.CalculateInfluenceContribution`.
- Scoring.ApplyKernel: only the linear kernel is modelled exactly. The Gaussian and
  exponential kernels are parameters, so their range is not stated.
- Upload: reading the shapefile, the `ogr2ogr` conversion, the table DDL, the connection
  setup, the progress bars, the logging and the verification queries after the upload are I/O.
  They are not modelled.
- Upload.UploadChunks: the re-raised exception is modelled as the `Aborted` outcome. Which
  insert fails is decided by the `accepts` parameter, which stands for the database.
- Upload.Connection: the table is a map from code to GeoJSON text. The PostGIS conversion to
  a geography value is not modelled.
