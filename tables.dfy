/**
 * The two lookup tables of the chart engine (src/astro-core/src/lib.rs): compass labels for
 * local-space azimuths and zodiac sign names.
 */
module Tables {
  import opened Angles

  /** The eight compass labels, clockwise from north. */
  const COMPASS: seq<string> := ["N", "NE", "E", "SE", "S", "SW", "W", "NW"]

  /** The twelve signs in zodiac order from Aries. */
  const SIGNS: seq<string> := ["Aries", "Taurus", "Gemini", "Cancer", "Leo", "Virgo",
                               "Libra", "Scorpio", "Sagittarius", "Capricorn", "Aquarius", "Pisces"]

  /** azimuth_to_direction: the normalised azimuth, then the 45-degree sector centred on each label. */
  function AzimuthToDirection(azimuth: real): (compass: string)
    ensures compass in COMPASS
  {
    var normalized := PositiveFMod(azimuth, 360.0);
    if normalized >= 337.5 || normalized < 22.5 then "N"
    else if normalized >= 22.5 && normalized < 67.5 then "NE"
    else if normalized >= 67.5 && normalized < 112.5 then "E"
    else if normalized >= 112.5 && normalized < 157.5 then "SE"
    else if normalized >= 157.5 && normalized < 202.5 then "S"
    else if normalized >= 202.5 && normalized < 247.5 then "SW"
    else if normalized >= 247.5 && normalized < 292.5 then "W"
    else "NW"
  }

  /** Reference definition: the label whose sector, 45 degrees wide and centred on it, holds the direction. */
  function CompassSector(direction: real): (k: int)
    requires 0.0 <= direction < 360.0
    ensures 0 <= k < 8
    ensures 45.0 * k as real - 22.5 <= direction < 45.0 * k as real + 22.5
      || (k == 0 && 337.5 <= direction)
  {
    ((direction + 22.5) / 45.0).Floor % 8
  }

  /** The double-remainder normalisation of an azimuth agrees with swe_degnorm. */
  lemma AzimuthNormalization(azimuth: real)
    ensures PositiveFMod(azimuth, 360.0) == DegNorm(azimuth)
  {
    DegNormUnique(azimuth, PositiveFMod(azimuth, 360.0));
  }

  /** azimuth_to_direction picks the label of the 45-degree sector that holds the azimuth. */
  lemma AzimuthToDirectionIsSector(azimuth: real)
    ensures AzimuthToDirection(azimuth) == COMPASS[CompassSector(DegNorm(azimuth))]
  {
    AzimuthNormalization(azimuth);
    var n := DegNorm(azimuth);
    var k := CompassSector(n);
    if 337.5 <= n {
      assert k == 0;
    } else {
      assert 45.0 * k as real - 22.5 <= n < 45.0 * k as real + 22.5;
      assert k == 0 || k == 1 || k == 2 || k == 3 || k == 4 || k == 5 || k == 6 || k == 7;
    }
  }

  /** "N" exactly for directions within 22.5 degrees of north. */
  lemma NorthSector(azimuth: real)
    ensures AzimuthToDirection(azimuth) == "N" <==> (DegNorm(azimuth) >= 337.5 || DegNorm(azimuth) < 22.5)
  {
    AzimuthNormalization(azimuth);
  }

  /** Turning the azimuth by whole turns does not change the label. */
  lemma AzimuthToDirectionPeriodic(azimuth: real, k: int)
    ensures AzimuthToDirection(azimuth + 360.0 * k as real) == AzimuthToDirection(azimuth)
  {
    AzimuthNormalization(azimuth);
    AzimuthNormalization(azimuth + 360.0 * k as real);
    DegNormPeriodic(azimuth, k);
  }

  /** get_sign_name: the sign for indices 0 to 11, "Unknown" for any other `u8`. */
  function SignName(index: nat): (name: string)
    requires index < 256
    ensures index < 12 ==> name == SIGNS[index]
    ensures index >= 12 ==> name == "Unknown"
  {
    match index
    case 0 => "Aries"
    case 1 => "Taurus"
    case 2 => "Gemini"
    case 3 => "Cancer"
    case 4 => "Leo"
    case 5 => "Virgo"
    case 6 => "Libra"
    case 7 => "Scorpio"
    case 8 => "Sagittarius"
    case 9 => "Capricorn"
    case 10 => "Aquarius"
    case 11 => "Pisces"
    case _ => "Unknown"
  }

  /** A name is "Unknown" exactly for indices past Pisces, and the twelve signs are told apart. */
  lemma SignNameKnownIff(i: nat, j: nat)
    requires i < 256 && j < 256
    ensures SignName(i) != "Unknown" <==> i < 12
    ensures i < 12 && j < 12 && SignName(i) == SignName(j) ==> i == j
  {
    if i < 12 && j < 12 && i != j {
      assert SIGNS[i] != SIGNS[j] by {
        assert |SIGNS[i]| != |SIGNS[j]| || SIGNS[i][0] != SIGNS[j][0] || SIGNS[i][1] != SIGNS[j][1];
      }
    }
    if i < 12 {
      assert SIGNS[i] != "Unknown" by {
        assert |SIGNS[i]| != 7 || SIGNS[i][0] != 'U';
      }
    }
  }
}
