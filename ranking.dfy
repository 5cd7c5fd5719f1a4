/**
 * City ranking and country grouping (src/astro-core/src/scout.rs, "City Ranking" and
 * group_and_rank_countries). A city is ranked for a category on the influences that matter to
 * that category; cities without any are dropped, and the rankings are sorted by the key the sort
 * mode names. Rankings are then grouped by country, each group's cities sorted by benefit and
 * counted by nature, and the groups ordered by their best city.
 */
module Ranking {
  import opened Sorting
  import opened Wrappers
  import opened Scoring
  import opened Categories

  datatype SortMode = BenefitFirst | IntensityFirst | BalancedBenefit

  datatype CityRanking = CityRanking(cityName: string, country: string, latitude: real, longitude: real,
                                     benefitScore: real, intensityScore: real, volatilityScore: real,
                                     mixedFlag: bool, topInfluences: seq<(string, string, real)>,
                                     nature: string)

  datatype RankedCountry = RankedCountry(country: string, cities: seq<CityRanking>,
                                         beneficialCount: nat, challengingCount: nat)

  // ---------------------------------------------------------------------------
  // One city
  // ---------------------------------------------------------------------------

  /** The overall nature of a ranked city, read from its aggregated benefit. */
  function OverallNature(mixedFlag: bool, benefitScore: real): (r: string)
    ensures r == "mixed" || r == "beneficial" || r == "challenging"
  {
    if mixedFlag then "mixed"
    else if benefitScore > 52.0 then "beneficial"
    else if benefitScore < 48.0 then "challenging"
    else "mixed"
  }

  /** Beneficial and challenging need an unmixed city well away from the neutral 50. */
  lemma OverallNatureRule(mixedFlag: bool, benefitScore: real)
    ensures OverallNature(mixedFlag, benefitScore) == "beneficial" <==> !mixedFlag && benefitScore > 52.0
    ensures OverallNature(mixedFlag, benefitScore) == "challenging" <==> !mixedFlag && benefitScore < 48.0
    ensures OverallNature(mixedFlag, benefitScore) == "mixed" <==>
              mixedFlag || 48.0 <= benefitScore <= 52.0
  {
  }

  /** `take(3)` of the influences, as (planet, angle, distance). */
  function TopInfluences(influences: seq<Influence>): (r: seq<(string, string, real)>)
    ensures |r| == if |influences| < 3 then |influences| else 3
    ensures forall j :: 0 <= j < |r| ==>
              r[j] == (influences[j].planet, influences[j].angle, influences[j].distanceKm)
  {
    var n := if |influences| < 3 then |influences| else 3;
    seq(n, j requires 0 <= j < n => (influences[j].planet, influences[j].angle, influences[j].distanceKm))
  }

  /** The city with only the influences that matter to the category. */
  function FilteredCity(city: CityInfluenceSet, category: LifeCategory): CityInfluenceSet
  {
    CityInfluenceSet(city.cityName, city.country, city.latitude, city.longitude,
                     FilterInfluencesByCategory(city.influences, category))
  }

  lemma FilteredKernelDefined(city: CityInfluenceSet, category: LifeCategory, config: ScoringConfig)
    requires KernelDefined(city, config)
    ensures KernelDefined(FilteredCity(city, category), config)
  {
    var filtered := FilteredCity(city, category).influences;
    forall j | 0 <= j < |filtered|
      ensures config.kernelParameter != 0.0 || filtered[j].distanceKm >= 0.0
    {
      FilterMembership(city.influences, category, filtered[j]);
    }
  }

  /** The ranking entry built from a city's score on its filtered influences. */
  function Ranked(city: CityInfluenceSet, filtered: seq<Influence>, score: CityScore): CityRanking
  {
    CityRanking(score.cityName, score.country, score.latitude, score.longitude,
                score.benefitScore, score.intensityScore, score.volatilityScore, score.mixedFlag,
                TopInfluences(filtered), OverallNature(score.mixedFlag, score.benefitScore))
  }

  /** The `filter_map` closure of rank_cities_by_category: no ranking without a relevant influence. */
  function RankingOf(city: CityInfluenceSet, category: LifeCategory, config: ScoringConfig, num: Numerics)
    : (r: Option<CityRanking>)
    requires KernelDefined(city, config)
    ensures r.None? <==> forall j :: 0 <= j < |city.influences| ==> !Relevant(city.influences[j], category)
  {
    var filtered := FilterInfluencesByCategory(city.influences, category);
    NoneRelevant(city.influences, category);
    if |filtered| == 0 then
      None
    else
      FilteredKernelDefined(city, category, config);
      Some(Ranked(city, filtered, CityScoreOf(FilteredCity(city, category), config, num)))
  }

  /** The filter comes back empty exactly when no influence is relevant. */
  lemma NoneRelevant(influences: seq<Influence>, category: LifeCategory)
    ensures |FilterInfluencesByCategory(influences, category)| == 0 <==>
              forall j :: 0 <= j < |influences| ==> !Relevant(influences[j], category)
  {
    var filtered := FilterInfluencesByCategory(influences, category);
    if |filtered| == 0 {
      forall j | 0 <= j < |influences|
        ensures !Relevant(influences[j], category)
      {
        FilterMembership(influences, category, influences[j]);
      }
    } else {
      FilterMembership(influences, category, filtered[0]);
    }
  }

  /** What a ranking entry promises about the city it came from. */
  lemma RankingOfFacts(city: CityInfluenceSet, category: LifeCategory, config: ScoringConfig, num: Numerics)
    requires KernelDefined(city, config)
    requires RankingOf(city, category, config, num).Some?
    ensures var x := RankingOf(city, category, config, num).value;
      x.cityName == city.cityName && x.country == city.country
      && |x.topInfluences| <= 3
      && (forall j :: 0 <= j < |x.topInfluences| ==>
            (x.topInfluences[j].0, x.topInfluences[j].1) in BeneficialLines(category) + ChallengingLines(category))
      && (x.nature == "beneficial" ==> !x.mixedFlag && x.benefitScore > 52.0)
      && (x.nature == "challenging" ==> !x.mixedFlag && x.benefitScore < 48.0)
      && 0.0 <= x.benefitScore <= 100.0
  {
    var filtered := FilterInfluencesByCategory(city.influences, category);
    FilteredKernelDefined(city, category, config);
    CityScoreBounds(FilteredCity(city, category), config, num);
    var x := RankingOf(city, category, config, num).value;
    OverallNatureRule(x.mixedFlag, x.benefitScore);
    forall j | 0 <= j < |x.topInfluences|
      ensures (x.topInfluences[j].0, x.topInfluences[j].1) in BeneficialLines(category) + ChallengingLines(category)
    {
      assert Relevant(filtered[j], category);
    }
  }

  // ---------------------------------------------------------------------------
  // All cities
  // ---------------------------------------------------------------------------

  ghost predicate AllKernelDefined(cities: seq<CityInfluenceSet>, config: ScoringConfig)
  {
    forall i :: 0 <= i < |cities| ==> KernelDefined(cities[i], config)
  }

  /** The entries an optional value contributes to a collection. */
  function AsSeq<T(!new)>(o: Option<T>): (r: seq<T>)
    ensures forall x :: x in r <==> o == Some(x)
  {
    if o.Some? then [o.value] else []
  }

  /** The present values, in order: what `filter_map` collects. */
  function Somes<T(!new)>(os: seq<Option<T>>): (r: seq<T>)
    ensures |r| <= |os|
  {
    if |os| == 0 then [] else Somes(os[..|os| - 1]) + AsSeq(os[|os| - 1])
  }

  /** Collecting one more optional value appends what it holds. */
  lemma SomesStep<T(!new)>(os: seq<Option<T>>, i: nat)
    requires i < |os|
    ensures Somes(os[..i + 1]) == Somes(os[..i]) + AsSeq(os[i])
  {
    assert os[..i + 1][..i] == os[..i];
  }

  lemma {:induction false} SomesMembership<T(!new)>(os: seq<Option<T>>, x: T)
    ensures x in Somes(os) <==> exists i :: 0 <= i < |os| && os[i] == Some(x)
    decreases |os|
  {
    if |os| > 0 {
      var init := os[..|os| - 1];
      SomesMembership(init, x);
      if exists i :: 0 <= i < |os| && os[i] == Some(x) {
        var i :| 0 <= i < |os| && os[i] == Some(x);
        if i < |init| {
          assert init[i] == os[i];
        }
      }
      if exists i :: 0 <= i < |init| && init[i] == Some(x) {
        var i :| 0 <= i < |init| && init[i] == Some(x);
        assert os[i] == init[i];
      }
    }
  }

  /** The closure's result for every city, in order. */
  function RankingsOf(cities: seq<CityInfluenceSet>, category: LifeCategory, config: ScoringConfig, num: Numerics)
    : (r: seq<Option<CityRanking>>)
    requires AllKernelDefined(cities, config)
    ensures |r| == |cities|
  {
    seq(|cities|, i requires 0 <= i < |cities| => RankingOf(cities[i], category, config, num))
  }

  /** The rankings `filter_map` collects, in the order of the cities. */
  function Collected(cities: seq<CityInfluenceSet>, category: LifeCategory, config: ScoringConfig, num: Numerics)
    : seq<CityRanking>
    requires AllKernelDefined(cities, config)
  {
    Somes(RankingsOf(cities, category, config, num))
  }

  function BenefitKey(c: CityRanking): real { c.benefitScore }

  function IntensityKey(c: CityRanking): real { c.intensityScore }

  /** The key each sort mode orders by, largest first. */
  function RankKey(mode: SortMode, volatilityPenalty: real): CityRanking -> real
  {
    match mode
    case BenefitFirst => BenefitKey
    case IntensityFirst => IntensityKey
    case BalancedBenefit => (c: CityRanking) => c.benefitScore - c.volatilityScore * volatilityPenalty
  }

  /** Reference definition of rank_cities_by_category. */
  function RankedCities(cities: seq<CityInfluenceSet>, category: LifeCategory, config: ScoringConfig,
                        num: Numerics, mode: SortMode): seq<CityRanking>
    requires AllKernelDefined(cities, config)
  {
    SortDescending(Collected(cities, category, config, num), RankKey(mode, config.volatilityPenalty))
  }

  /** rank_cities_by_category: score each city on its relevant influences, then sort by the mode's key. */
  method RankCitiesByCategory(cities: seq<CityInfluenceSet>, category: LifeCategory, config: ScoringConfig,
                              num: Numerics, mode: SortMode) returns (rankings: seq<CityRanking>)
    requires AllKernelDefined(cities, config)
    ensures rankings == RankedCities(cities, category, config, num, mode)
  {
    var collected := CollectRankings(cities, category, config, num);
    rankings := SortedCopy(collected, RankKey(mode, config.volatilityPenalty));
  }

  /** The `filter_map(...).collect()` loop: the rankings of the cities that have one, in city order. */
  method CollectRankings(cities: seq<CityInfluenceSet>, category: LifeCategory, config: ScoringConfig,
                         num: Numerics) returns (collected: seq<CityRanking>)
    requires AllKernelDefined(cities, config)
    ensures collected == Collected(cities, category, config, num)
  {
    ghost var options := RankingsOf(cities, category, config, num);
    collected := [];
    for i := 0 to |cities|
      invariant collected == Somes(options[..i])
    {
      var ranking := RankCity(cities[i], category, config, num);
      assert ranking == options[i];
      SomesStep(options, i);
      collected := collected + AsSeq(ranking);
    }
    assert options[..|cities|] == options;
  }

  /** The `filter_map` closure: filter the city's influences, and score the city on them if any remain. */
  method RankCity(city: CityInfluenceSet, category: LifeCategory, config: ScoringConfig, num: Numerics)
    returns (ranking: Option<CityRanking>)
    requires KernelDefined(city, config)
    ensures ranking == RankingOf(city, category, config, num)
  {
    var filtered := FilterInfluencesByCategory(city.influences, category);
    if |filtered| == 0 {
      return None;
    }
    var filteredCity := FilteredCity(city, category);
    FilteredKernelDefined(city, category, config);
    var score := CalculateCityScore(filteredCity, config, num);
    return Some(Ranked(city, filtered, score));
  }

  /** A city is ranked exactly when one of its influences matters to the category. */
  lemma CollectedMembership(cities: seq<CityInfluenceSet>, category: LifeCategory,
                            config: ScoringConfig, num: Numerics, x: CityRanking)
    requires AllKernelDefined(cities, config)
    ensures x in Collected(cities, category, config, num) <==>
              exists i :: 0 <= i < |cities| && RankingOf(cities[i], category, config, num) == Some(x)
  {
    var options := RankingsOf(cities, category, config, num);
    SomesMembership(options, x);
    if exists i :: 0 <= i < |cities| && RankingOf(cities[i], category, config, num) == Some(x) {
      var i :| 0 <= i < |cities| && RankingOf(cities[i], category, config, num) == Some(x);
      assert options[i] == Some(x);
    }
  }

  /**
   * The output holds one entry per city with a relevant influence, no other, and is ordered by
   * the mode's key, largest first.
   */
  lemma RankedCitiesSpec(cities: seq<CityInfluenceSet>, category: LifeCategory, config: ScoringConfig,
                         num: Numerics, mode: SortMode, x: CityRanking)
    requires AllKernelDefined(cities, config)
    ensures var r := RankedCities(cities, category, config, num, mode);
      (x in r <==> exists i :: 0 <= i < |cities| && RankingOf(cities[i], category, config, num) == Some(x))
      && NonIncreasing(r, RankKey(mode, config.volatilityPenalty))
      && multiset(r) == multiset(Collected(cities, category, config, num))
  {
    var collected := Collected(cities, category, config, num);
    var key := RankKey(mode, config.volatilityPenalty);
    SortDescendingPermutes(collected, key);
    SortDescendingOrders(collected, key);
    CollectedMembership(cities, category, config, num, x);
    SortDescendingMembers(collected, key, x);
  }

  // ---------------------------------------------------------------------------
  // Countries
  // ---------------------------------------------------------------------------

  /** The countries of the rankings, each once, in order of first appearance. */
  function CountryOrder(rs: seq<CityRanking>): (r: seq<string>)
    ensures forall j, k :: 0 <= j < k < |r| ==> r[j] != r[k]
  {
    if |rs| == 0 then []
    else
      var rest := CountryOrder(rs[..|rs| - 1]);
      if rs[|rs| - 1].country in rest then rest else rest + [rs[|rs| - 1].country]
  }

  /** The rankings of one country, in their input order. */
  function CitiesOf(rs: seq<CityRanking>, country: string): (r: seq<CityRanking>)
    ensures |r| <= |rs|
  {
    if |rs| == 0 then []
    else CitiesOf(rs[..|rs| - 1], country) + (if rs[|rs| - 1].country == country then [rs[|rs| - 1]] else [])
  }

  /** The number of rankings with the given nature. */
  function CountNature(cs: seq<CityRanking>, nature: string): (n: nat)
    ensures n <= |cs|
  {
    if |cs| == 0 then 0
    else CountNature(cs[..|cs| - 1], nature) + (if cs[|cs| - 1].nature == nature then 1 else 0)
  }

  /** One country's group: its cities by benefit, largest first, and the counts by nature. */
  function GroupOf(rs: seq<CityRanking>, country: string): RankedCountry
  {
    var cities := SortDescending(CitiesOf(rs, country), BenefitKey);
    RankedCountry(country, cities, CountNature(cities, "beneficial"), CountNature(cities, "challenging"))
  }

  /** The benefit of a group's first city, 0 for an empty group. */
  function TopBenefit(g: RankedCountry): real
  {
    if |g.cities| > 0 then g.cities[0].benefitScore else 0.0
  }

  /** The groups in order of first appearance of their country. */
  function GroupsInOrder(rs: seq<CityRanking>): (r: seq<RankedCountry>)
    ensures |r| == |CountryOrder(rs)|
  {
    var order := CountryOrder(rs);
    seq(|order|, j requires 0 <= j < |order| => GroupOf(rs, order[j]))
  }

  /** Reference definition of group_and_rank_countries. */
  function GroupedCountries(rs: seq<CityRanking>): seq<RankedCountry>
  {
    if |rs| == 0 then [] else SortDescending(GroupsInOrder(rs), TopBenefit)
  }

  lemma {:induction false} CountryOrderMembership(rs: seq<CityRanking>, country: string)
    ensures country in CountryOrder(rs) <==> exists i :: 0 <= i < |rs| && rs[i].country == country
    decreases |rs|
  {
    if |rs| > 0 {
      var init := rs[..|rs| - 1];
      CountryOrderMembership(init, country);
      if exists i :: 0 <= i < |init| && init[i].country == country {
        var i :| 0 <= i < |init| && init[i].country == country;
        assert rs[i] == init[i];
      }
      if exists i :: 0 <= i < |rs| && rs[i].country == country {
        var i :| 0 <= i < |rs| && rs[i].country == country;
        if i < |init| {
          assert init[i] == rs[i];
        }
      }
    }
  }

  /** A country's cities are exactly the rankings of that country. */
  lemma {:induction false} CitiesOfMembership(rs: seq<CityRanking>, country: string, x: CityRanking)
    ensures x in CitiesOf(rs, country) <==> x in rs && x.country == country
    decreases |rs|
  {
    if |rs| > 0 {
      var init := rs[..|rs| - 1];
      CitiesOfMembership(init, country, x);
      assert rs == init + [rs[|rs| - 1]];
    }
  }

  lemma {:induction false} CountNatureInsert(s: seq<CityRanking>, x: CityRanking, key: CityRanking -> real,
                                            nature: string)
    ensures CountNature(Insert(s, x, key), nature) == CountNature(s, nature) + (if x.nature == nature then 1 else 0)
    decreases |s|
  {
    if |s| == 0 || key(s[|s| - 1]) >= key(x) {
      assert (s + [x])[..|s|] == s;
    } else {
      var init := s[..|s| - 1];
      CountNatureInsert(init, x, key, nature);
      assert (Insert(init, x, key) + [s[|s| - 1]])[..|s|] == Insert(init, x, key);
    }
  }

  /** Sorting does not change how many cities have a given nature. */
  lemma {:induction false} CountNatureSorted(s: seq<CityRanking>, key: CityRanking -> real, nature: string)
    ensures CountNature(SortDescending(s, key), nature) == CountNature(s, nature)
    decreases |s|
  {
    if |s| > 0 {
      CountNatureSorted(s[..|s| - 1], key, nature);
      CountNatureInsert(SortDescending(s[..|s| - 1], key), s[|s| - 1], key, nature);
    }
  }

  /**
   * A country's group holds exactly that country's cities, sorted by benefit largest first, and
   * counts its beneficial and challenging cities.
   */
  lemma GroupOfSpec(rs: seq<CityRanking>, country: string, x: CityRanking)
    ensures var g := GroupOf(rs, country);
      g.country == country
      && (x in g.cities <==> x in rs && x.country == country)
      && NonIncreasing(g.cities, BenefitKey)
      && multiset(g.cities) == multiset(CitiesOf(rs, country))
      && g.beneficialCount == CountNature(CitiesOf(rs, country), "beneficial")
      && g.challengingCount == CountNature(CitiesOf(rs, country), "challenging")
  {
    var cities := CitiesOf(rs, country);
    SortDescendingPermutes(cities, BenefitKey);
    SortDescendingOrders(cities, BenefitKey);
    CountNatureSorted(cities, BenefitKey, "beneficial");
    CountNatureSorted(cities, BenefitKey, "challenging");
    CitiesOfMembership(rs, country, x);
    SortDescendingMembers(cities, BenefitKey, x);
  }

  lemma {:induction false} DistinctCountAtMostOne<T>(s: seq<T>, x: T)
    requires forall j, k :: 0 <= j < k < |s| ==> s[j] != s[k]
    ensures multiset(s)[x] <= 1
    decreases |s|
  {
    if |s| > 0 {
      var init := s[..|s| - 1];
      DistinctCountAtMostOne(init, x);
      assert s == init + [s[|s| - 1]];
      if s[|s| - 1] == x {
        assert x !in init;
      }
    }
  }

  lemma RepeatCountsTwice<T>(s: seq<T>, j: int, k: int)
    requires 0 <= j < k < |s| && s[j] == s[k]
    ensures multiset(s)[s[j]] >= 2
  {
    assert s == s[..k] + [s[k]] + s[k + 1..];
    assert s[j] in s[..k];
  }

  /** The groups in order of first appearance differ pairwise, since their countries do. */
  lemma GroupsInOrderDistinct(rs: seq<CityRanking>)
    ensures forall a, b :: 0 <= a < b < |GroupsInOrder(rs)| ==> GroupsInOrder(rs)[a] != GroupsInOrder(rs)[b]
  {
    var groups := GroupsInOrder(rs);
    var order := CountryOrder(rs);
    forall a, b | 0 <= a < b < |groups|
      ensures groups[a] != groups[b]
    {
      assert groups[a].country == order[a] && groups[b].country == order[b];
    }
  }

  /** Every group of the sorted list is the group of its country, a country of the input. */
  lemma SortedGroupsAreGroups(rs: seq<CityRanking>, g: RankedCountry)
    requires g in SortDescending(GroupsInOrder(rs), TopBenefit)
    ensures g == GroupOf(rs, g.country) && g.country in CountryOrder(rs)
  {
    var groups := GroupsInOrder(rs);
    SortDescendingMembers(groups, TopBenefit, g);
    var j :| 0 <= j < |groups| && groups[j] == g;
  }

  /** Every city's country has its group in the sorted list. */
  lemma SortedGroupsCoverCities(rs: seq<CityRanking>, i: int)
    requires 0 <= i < |rs|
    ensures GroupOf(rs, rs[i].country) in SortDescending(GroupsInOrder(rs), TopBenefit)
  {
    var groups := GroupsInOrder(rs);
    var order := CountryOrder(rs);
    CountryOrderMembership(rs, rs[i].country);
    var j :| 0 <= j < |order| && order[j] == rs[i].country;
    SortDescendingMembers(groups, TopBenefit, groups[j]);
  }

  /** No country has two groups in the sorted list. */
  lemma SortedGroupsDistinct(rs: seq<CityRanking>, j: int, k: int)
    requires 0 <= j < k < |SortDescending(GroupsInOrder(rs), TopBenefit)|
    ensures SortDescending(GroupsInOrder(rs), TopBenefit)[j].country
         != SortDescending(GroupsInOrder(rs), TopBenefit)[k].country
  {
    var groups := GroupsInOrder(rs);
    var r := SortDescending(groups, TopBenefit);
    SortDescendingPermutes(groups, TopBenefit);
    GroupsInOrderDistinct(rs);
    PermutationKeepsDistinct(groups, r, j, k);
    SortedGroupsAreGroups(rs, r[j]);
    SortedGroupsAreGroups(rs, r[k]);
  }

  /** A rearrangement of pairwise distinct elements is pairwise distinct. */
  lemma PermutationKeepsDistinct<T>(s: seq<T>, t: seq<T>, j: int, k: int)
    requires multiset(s) == multiset(t) && 0 <= j < k < |t|
    requires forall a, b :: 0 <= a < b < |s| ==> s[a] != s[b]
    ensures t[j] != t[k]
  {
    if t[j] == t[k] {
      RepeatCountsTwice(t, j, k);
      DistinctCountAtMostOne(s, t[j]);
      assert false;
    }
  }

  /**
   * group_and_rank_countries: nothing from nothing; one group per country, each the group of its
   * country; every city lands in its country's group; groups ordered by their best city.
   */
  lemma GroupedCountriesSpec(rs: seq<CityRanking>)
    ensures |rs| == 0 ==> GroupedCountries(rs) == []
    ensures |GroupedCountries(rs)| == |CountryOrder(rs)|
    ensures NonIncreasing(GroupedCountries(rs), TopBenefit)
    ensures forall g :: g in GroupedCountries(rs) ==> g == GroupOf(rs, g.country) && g.country in CountryOrder(rs)
    ensures forall i :: 0 <= i < |rs| ==> GroupOf(rs, rs[i].country) in GroupedCountries(rs)
    ensures forall j, k :: 0 <= j < k < |GroupedCountries(rs)| ==>
              GroupedCountries(rs)[j].country != GroupedCountries(rs)[k].country
  {
    if |rs| > 0 {
      var r := GroupedCountries(rs);
      SortDescendingOrders(GroupsInOrder(rs), TopBenefit);
      forall g | g in r
        ensures g == GroupOf(rs, g.country) && g.country in CountryOrder(rs)
      {
        SortedGroupsAreGroups(rs, g);
      }
      forall i | 0 <= i < |rs|
        ensures GroupOf(rs, rs[i].country) in r
      {
        SortedGroupsCoverCities(rs, i);
      }
      forall j, k | 0 <= j < k < |r|
        ensures r[j].country != r[k].country
      {
        SortedGroupsDistinct(rs, j, k);
      }
    }
  }

  /** The grouping loop: the country map, with the order in which its keys first appeared. */
  method GroupByCountry(rankings: seq<CityRanking>) returns (order: seq<string>, groups: map<string, seq<CityRanking>>)
    ensures order == CountryOrder(rankings)
    ensures forall c :: c in groups <==> c in order
    ensures forall c :: c in groups ==> groups[c] == CitiesOf(rankings, c)
  {
    order := [];
    groups := map[];
    for i := 0 to |rankings|
      invariant order == CountryOrder(rankings[..i])
      invariant forall c :: c in groups <==> c in order
      invariant forall c :: c in groups ==> groups[c] == CitiesOf(rankings[..i], c)
    {
      assert rankings[..i + 1][..i] == rankings[..i];
      var city := rankings[i];
      if city.country in groups {
        groups := groups[city.country := groups[city.country] + [city]];
      } else {
        CitiesOfAbsent(rankings[..i], city.country);
        order := order + [city.country];
        groups := groups[city.country := [city]];
      }
    }
    assert rankings[..|rankings|] == rankings;
  }

  /** The `map` over the country map: each group's cities sorted by benefit and counted by nature. */
  method BuildGroups(rankings: seq<CityRanking>, order: seq<string>, groups: map<string, seq<CityRanking>>)
    returns (built: seq<RankedCountry>)
    requires order == CountryOrder(rankings)
    requires forall c :: c in groups <==> c in order
    requires forall c :: c in groups ==> groups[c] == CitiesOf(rankings, c)
    ensures built == GroupsInOrder(rankings)
  {
    built := [];
    ghost var expected := GroupsInOrder(rankings);
    for k := 0 to |order|
      invariant built == expected[..k]
    {
      var cities := SortedCopy(groups[order[k]], BenefitKey);
      var g := RankedCountry(order[k], cities, CountNature(cities, "beneficial"), CountNature(cities, "challenging"));
      GroupsPrefixStep(rankings, k);
      built := built + [g];
    }
    assert expected[..|order|] == expected;
  }

  lemma GroupsPrefixStep(rs: seq<CityRanking>, k: nat)
    requires k < |CountryOrder(rs)|
    ensures GroupsInOrder(rs)[..k + 1] == GroupsInOrder(rs)[..k] + [GroupOf(rs, CountryOrder(rs)[k])]
  {
    var groups := GroupsInOrder(rs);
    assert groups[..k + 1] == groups[..k] + [groups[k]];
  }

  /** group_and_rank_countries: group by country, sort and count each group, then order the groups. */
  method GroupAndRankCountries(rankings: seq<CityRanking>) returns (r: seq<RankedCountry>)
    ensures r == GroupedCountries(rankings)
  {
    if |rankings| == 0 {
      return [];
    }
    var order, groups := GroupByCountry(rankings);
    var built := BuildGroups(rankings, order, groups);
    r := SortedCopy(built, TopBenefit);
  }

  lemma {:induction false} CitiesOfAbsent(rs: seq<CityRanking>, country: string)
    requires country !in CountryOrder(rs)
    ensures CitiesOf(rs, country) == []
    decreases |rs|
  {
    if |rs| > 0 {
      CitiesOfAbsent(rs[..|rs| - 1], country);
    }
  }
}
