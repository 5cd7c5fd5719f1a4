/**
 * Category-specific filtering (src/astro-core/src/scout.rs, "Category-Specific Filtering"). Each
 * life category has a table of (planet, angle) lines that favour it and a table of lines that
 * challenge it; a line's nature looks in the favourable table first, and the filter keeps the
 * influences whose line appears in either table.
 */
module Categories {
  import opened Wrappers
  import opened Scoring

  datatype LifeCategory = Career | Love | Health | Home | Wellbeing | Wealth

  /** The two natures `get_line_nature` can report ("beneficial", "challenging"). */
  datatype Nature = Beneficial | Challenging

  /** The lines of is_beneficial_for_category, category by category. */
  function BeneficialLines(category: LifeCategory): set<(string, string)>
  {
    match category
    case Career => {("Sun", "MC"), ("Jupiter", "MC"), ("Mercury", "MC"), ("Venus", "MC"), ("Mars", "MC"),
                     ("Saturn", "MC"), ("Pluto", "MC"), ("Sun", "ASC"), ("Mars", "ASC"), ("Jupiter", "ASC"),
                     ("Mercury", "ASC")}
    case Love => {("Venus", "DSC"), ("Sun", "DSC"), ("Jupiter", "DSC"), ("Moon", "DSC"), ("Venus", "ASC"),
                   ("Sun", "ASC"), ("Mars", "ASC"), ("Jupiter", "ASC")}
    case Health => {("Sun", "ASC"), ("Jupiter", "ASC"), ("Moon", "ASC"), ("Mars", "ASC"), ("Venus", "IC"),
                     ("Jupiter", "MC"), ("Venus", "MC"), ("Sun", "IC"), ("Moon", "IC")}
    case Home => {("Venus", "IC"), ("Moon", "IC"), ("Jupiter", "IC"), ("Sun", "IC"), ("Saturn", "IC"),
                   ("Venus", "ASC"), ("Moon", "ASC"), ("Jupiter", "ASC"), ("Mercury", "IC")}
    case Wellbeing => {("Venus", "ASC"), ("Venus", "IC"), ("Venus", "DSC"), ("Jupiter", "ASC"), ("Jupiter", "MC"),
                        ("Jupiter", "IC"), ("Jupiter", "DSC"), ("Moon", "IC"), ("Moon", "ASC"), ("Sun", "ASC"),
                        ("Sun", "IC"), ("Neptune", "ASC")}
    case Wealth => {("Jupiter", "MC"), ("Jupiter", "IC"), ("Jupiter", "ASC"), ("Jupiter", "DSC"), ("Venus", "MC"),
                     ("Venus", "ASC"), ("Sun", "MC"), ("Sun", "ASC"), ("Mercury", "MC"), ("Mercury", "ASC"),
                     ("Pluto", "MC")}
  }

  /** The lines of is_challenging_for_category, category by category. */
  function ChallengingLines(category: LifeCategory): set<(string, string)>
  {
    match category
    case Career => {("Neptune", "MC"), ("Uranus", "MC"), ("Moon", "MC")}
    case Love => {("Saturn", "DSC"), ("Pluto", "DSC"), ("Mars", "DSC"), ("Uranus", "DSC"), ("Neptune", "DSC")}
    case Health => {("Saturn", "ASC"), ("Saturn", "MC"), ("Neptune", "ASC"), ("Pluto", "ASC"), ("Uranus", "ASC")}
    case Home => {("Uranus", "IC"), ("Neptune", "IC"), ("Pluto", "IC"), ("Saturn", "IC"), ("Mars", "IC")}
    case Wellbeing => {("Saturn", "ASC"), ("Saturn", "MC"), ("Neptune", "MC"), ("Pluto", "ASC"), ("Pluto", "MC"),
                        ("Mars", "ASC")}
    case Wealth => {("Neptune", "MC"), ("Neptune", "IC"), ("Uranus", "MC"), ("Uranus", "IC"), ("Saturn", "ASC")}
  }

  /** The four angular lines a table entry can name. */
  predicate IsAngle(angle: string)
  {
    angle == "ASC" || angle == "DSC" || angle == "MC" || angle == "IC"
  }

  /** is_beneficial_for_category: every favourable line lies on one of the four angles. */
  predicate IsBeneficialForCategory(planet: string, angle: string, category: LifeCategory)
    ensures IsBeneficialForCategory(planet, angle, category) ==> IsAngle(angle)
  {
    (planet, angle) in BeneficialLines(category)
  }

  /**
   * is_challenging_for_category: every challenging line lies on one of the four angles, and none
   * belongs to the Sun, Jupiter, Venus or Mercury.
   */
  predicate IsChallengingForCategory(planet: string, angle: string, category: LifeCategory)
    ensures IsChallengingForCategory(planet, angle, category) ==>
              IsAngle(angle) && planet != "Sun" && planet != "Jupiter" && planet != "Venus" && planet != "Mercury"
  {
    (planet, angle) in ChallengingLines(category)
  }

  /** get_line_nature: the favourable table is consulted first. */
  function GetLineNature(planet: string, angle: string, category: LifeCategory): (r: Option<Nature>)
    ensures r == Some(Beneficial) <==> IsBeneficialForCategory(planet, angle, category)
    ensures r == Some(Challenging) <==>
              !IsBeneficialForCategory(planet, angle, category) && IsChallengingForCategory(planet, angle, category)
    ensures r == None <==>
              !IsBeneficialForCategory(planet, angle, category) && !IsChallengingForCategory(planet, angle, category)
  {
    if IsBeneficialForCategory(planet, angle, category) then Some(Beneficial)
    else if IsChallengingForCategory(planet, angle, category) then Some(Challenging)
    else None
  }

  /** The influence's line matters to the category. */
  predicate Relevant(influence: Influence, category: LifeCategory)
  {
    IsBeneficialForCategory(influence.planet, influence.angle, category)
    || IsChallengingForCategory(influence.planet, influence.angle, category)
  }

  /** filter_influences_by_category: the relevant influences, in their original order. */
  function FilterInfluencesByCategory(influences: seq<Influence>, category: LifeCategory): (r: seq<Influence>)
    ensures |r| <= |influences|
    ensures forall j :: 0 <= j < |r| ==> Relevant(r[j], category)
  {
    if |influences| == 0 then []
    else
      var rest := FilterInfluencesByCategory(influences[..|influences| - 1], category);
      var last := influences[|influences| - 1];
      if Relevant(last, category) then rest + [last] else rest
  }

  /** A line is relevant exactly when it has a nature. */
  lemma RelevantIffNature(influence: Influence, category: LifeCategory)
    ensures Relevant(influence, category) <==> GetLineNature(influence.planet, influence.angle, category).Some?
  {
  }

  /** The filter distributes over concatenation, so it keeps the relative order of what it keeps. */
  lemma {:induction false} FilterAppend(s: seq<Influence>, t: seq<Influence>, category: LifeCategory)
    ensures FilterInfluencesByCategory(s + t, category)
         == FilterInfluencesByCategory(s, category) + FilterInfluencesByCategory(t, category)
    decreases |t|
  {
    if |t| == 0 {
      assert s + t == s;
    } else {
      assert (s + t)[..|s + t| - 1] == s + t[..|t| - 1];
      FilterAppend(s, t[..|t| - 1], category);
    }
  }

  /** The filter keeps an influence exactly when it is relevant. */
  lemma {:induction false} FilterMembership(influences: seq<Influence>, category: LifeCategory, x: Influence)
    ensures x in FilterInfluencesByCategory(influences, category) <==> x in influences && Relevant(x, category)
    decreases |influences|
  {
    if |influences| > 0 {
      var init := influences[..|influences| - 1];
      FilterMembership(init, category, x);
      assert influences == init + [influences[|influences| - 1]];
    }
  }

  /** Applying the filter twice is the same as once. */
  lemma {:induction false} FilterIdempotent(influences: seq<Influence>, category: LifeCategory)
    ensures FilterInfluencesByCategory(FilterInfluencesByCategory(influences, category), category)
         == FilterInfluencesByCategory(influences, category)
    decreases |influences|
  {
    if |influences| > 0 {
      var init := influences[..|influences| - 1];
      var last := influences[|influences| - 1];
      FilterIdempotent(init, category);
      var rest := FilterInfluencesByCategory(init, category);
      if Relevant(last, category) {
        FilterAppend(rest, [last], category);
        assert [last][..0] == [];
      }
    }
  }

  /** Pluto on the MC favours a career and does not challenge it. */
  lemma PlutoMcIsCareer()
    ensures IsBeneficialForCategory("Pluto", "MC", Career)
    ensures !IsChallengingForCategory("Pluto", "MC", Career)
    ensures GetLineNature("Pluto", "MC", Career) == Some(Beneficial)
  {
    assert ("Pluto", "MC") != ("Neptune", "MC");
    assert ("Pluto", "MC") != ("Uranus", "MC");
    assert ("Pluto", "MC") != ("Moon", "MC");
  }

  /** Saturn on the IC sits in both Home tables, and the favourable reading wins. */
  lemma SaturnIcHomeIsBeneficial()
    ensures IsBeneficialForCategory("Saturn", "IC", Home) && IsChallengingForCategory("Saturn", "IC", Home)
    ensures GetLineNature("Saturn", "IC", Home) == Some(Beneficial)
  {
  }

  /** The two tables of a category overlap only in Saturn on the IC for Home. */
  lemma TablesOverlapOnlyAtSaturnIc(planet: string, angle: string, category: LifeCategory)
    ensures IsBeneficialForCategory(planet, angle, category) && IsChallengingForCategory(planet, angle, category)
            <==> category == Home && planet == "Saturn" && angle == "IC"
  {
    if IsBeneficialForCategory(planet, angle, category) && IsChallengingForCategory(planet, angle, category) {
      CommonLines(category);
      assert (planet, angle) in BeneficialLines(category) * ChallengingLines(category);
    }
  }

  /** The lines the two tables of a category share. */
  lemma CommonLines(category: LifeCategory)
    ensures BeneficialLines(category) * ChallengingLines(category) ==
            (if category == Home then {("Saturn", "IC")} else {})
  {
    match category
    case Career => CareerLines();
    case Love => LoveLines();
    case Health => HealthLines();
    case Home => HomeLines();
    case Wellbeing => WellbeingLines();
    case Wealth => WealthLines();
  }

  lemma CareerLines() ensures BeneficialLines(Career) * ChallengingLines(Career) == {} {}
  lemma LoveLines() ensures BeneficialLines(Love) * ChallengingLines(Love) == {} {}
  lemma HealthLines() ensures BeneficialLines(Health) * ChallengingLines(Health) == {} {}
  lemma HomeLines() ensures BeneficialLines(Home) * ChallengingLines(Home) == {("Saturn", "IC")} {}
  lemma WellbeingLines() ensures BeneficialLines(Wellbeing) * ChallengingLines(Wellbeing) == {} {}
  lemma WealthLines() ensures BeneficialLines(Wealth) * ChallengingLines(Wealth) == {} {}
}
