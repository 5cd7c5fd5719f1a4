/**
 * Calendar <-> Julian Date conversion of the chart engine (src/astro-core/src/lib.rs),
 * after Meeus, "Astronomical Algorithms", chapter 7. The floating-point floors are modelled
 * with exact reals; on whole-day values they reduce to integer divisions, which is how the
 * round trip is proved.
 */
module Julian {

  datatype CalendarDate = CalendarDate(year: int, month: int, day: int)

  /** Gregorian leap-year rule. */
  predicate IsLeapYear(y: int) {
    y % 4 == 0 && (y % 100 != 0 || y % 400 == 0)
  }

  function DaysInMonth(y: int, m: int): (n: int)
    requires 1 <= m <= 12
    ensures 28 <= n <= 31
  {
    if m == 2 then (if IsLeapYear(y) then 29 else 28)
    else if m == 4 || m == 6 || m == 9 || m == 11 then 30
    else 31
  }

  /** On or after 1582-10-15, the first day of the Gregorian calendar. */
  predicate OnOrAfterReform(y: int, m: int, d: int) {
    y > 1582 || (y == 1582 && (m > 10 || (m == 10 && d >= 15)))
  }

  /** The inputs for which to_julian_date and jd_to_calendar are inverse to each other. */
  predicate IsGregorianDateTime(year: int, month: nat, day: nat, hour: nat, minute: nat, second: nat) {
    && 1 <= month <= 12
    && 1 <= day <= DaysInMonth(year, month)
    && OnOrAfterReform(year, month, day)
    && hour <= 23 && minute <= 59 && second <= 59
  }

  /** Universal time of day in hours. */
  function UtHours(hour: nat, minute: nat, second: nat): real {
    hour as real + minute as real / 60.0 + second as real / 3600.0
  }

  /** to_julian_date: the Julian Date of a civil date and UT time (exact reals, no rounding). */
  function ToJulianDate(year: int, month: nat, day: nat, hour: nat, minute: nat, second: nat): real {
    var ut := UtHours(hour, minute, second);
    var y := if month <= 2 then year - 1 else year;
    var m := if month <= 2 then month + 12 else month;
    var a := (y as real / 100.0).Floor as real;
    var b := 2.0 - a + (a / 4.0).Floor as real;
    (365.25 * (y as real + 4716.0)).Floor as real
      + (30.6001 * (m as real + 1.0)).Floor as real
      + day as real
      + ut / 24.0
      + b
      - 1524.5
  }

  /** Rust's `/` on i64: the quotient is truncated toward zero. */
  function TruncDiv(a: int, b: int): int
    requires b > 0
  {
    if a >= 0 then a / b else -((-a) / b)
  }

  /** jd_to_calendar: the civil date (year, month, day) containing a Julian Date. */
  function JdToCalendar(jd: real): CalendarDate {
    var jdPlus := jd + 0.5;
    var z := jdPlus.Floor;
    var a :=
      if z < 2299161 then z
      else
        var alpha := ((z as real - 1867216.25) / 36524.25).Floor;
        z + 1 + alpha - TruncDiv(alpha, 4);
    CalendarOfShiftedDay(a + 1524)
  }

  /** The second half of jd_to_calendar, from b = A + 1524 onwards. */
  function CalendarOfShiftedDay(b: int): CalendarDate {
    var c := ((b as real - 122.1) / 365.25).Floor;
    var d := (365.25 * c as real).Floor;
    var e := ((b - d) as real / 30.6001).Floor;
    var day := b - d - (30.6001 * e as real).Floor;
    var month := if e < 14 then e - 1 else e - 13;
    var year := if month > 2 then c - 4716 else c - 4715;
    CalendarDate(year, month, day)
  }

  // ---------------------------------------------------------------------------
  // The same computations on whole days, with integer division.
  // ---------------------------------------------------------------------------

  /** Meeus' year counted from March: January and February belong to the previous year. */
  function MarchYear(year: int, month: int): int {
    if month <= 2 then year - 1 else year
  }

  /** Meeus' month counted from March: 3..14. */
  function MarchMonth(month: int): int {
    if month <= 2 then month + 12 else month
  }

  /** The Julian Day Number (the Julian Date at noon) of a civil date. */
  function DayNumber(year: int, month: int, day: int): int {
    var y := MarchYear(year, month);
    var m := MarchMonth(month);
    var a := y / 100;
    (1461 * (y + 4716)) / 4 + (306001 * (m + 1)) / 10000 + day + 2 - a + a / 4 - 1524
  }

  /** jd_to_calendar on a Julian Day Number. */
  function CalendarOfDay(z: int): CalendarDate {
    var a :=
      if z < 2299161 then z
      else
        var alpha := (4 * z - 7468865) / 146097;
        z + 1 + alpha - TruncDiv(alpha, 4);
    ShiftedDayToDate(a + 1524)
  }

  /** CalendarOfShiftedDay with integer division. */
  function ShiftedDayToDate(b: int): CalendarDate {
    var c := (100 * b - 12210) / 36525;
    var d := (1461 * c) / 4;
    var e := (10000 * (b - d)) / 306001;
    var day := b - d - (306001 * e) / 10000;
    var month := if e < 14 then e - 1 else e - 13;
    var year := if month > 2 then c - 4716 else c - 4715;
    CalendarDate(year, month, day)
  }

  /** The denominators that occur once the decimal constants are cleared. */
  predicate IsDenominator(q: int) {
    q == 4 || q == 100 || q == 10000 || q == 36525 || q == 146097 || q == 306001
  }

  lemma FloorIs(x: real, k: int)
    requires k as real <= x < k as real + 1.0
    ensures x.Floor == k
  {
  }

  /** A real quotient of integers floors to the integer quotient. */
  lemma FloorOfQuotient(p: int, q: int)
    requires IsDenominator(q)
    ensures (p as real / q as real).Floor == p / q
  {
    var k := p / q;
    assert k * q <= p < k * q + q;
    assert k as real <= p as real / q as real < k as real + 1.0;
    FloorIs(p as real / q as real, k);
  }

  /** to_julian_date is the day number, minus half a day, plus the fraction of the day elapsed. */
  lemma ToJulianDateIsDayNumber(year: int, month: nat, day: nat, hour: nat, minute: nat, second: nat)
    ensures ToJulianDate(year, month, day, hour, minute, second)
         == DayNumber(year, month, day) as real - 0.5 + UtHours(hour, minute, second) / 24.0
  {
    var y := MarchYear(year, month);
    var m := MarchMonth(month);
    FloorOfQuotient(y, 100);
    assert y as real / 100.0 == y as real / 100 as real;
    var a := y / 100;
    FloorOfQuotient(a, 4);
    assert a as real / 4.0 == a as real / 4 as real;
    FloorOfQuotient(1461 * (y + 4716), 4);
    QuarterDays(y + 4716);
    FloorOfQuotient(306001 * (m + 1), 10000);
    MonthDays(m + 1);
  }

  /** 365.25 days per year, with the decimal cleared. */
  lemma QuarterDays(n: int)
    ensures 365.25 * n as real == (1461 * n) as real / 4 as real
  {
  }

  /** 30.6001 days per month, with the decimal cleared. */
  lemma MonthDays(n: int)
    ensures 30.6001 * n as real == (306001 * n) as real / 10000 as real
  {
  }

  /** 36524.25 days per century, with the decimals cleared. */
  lemma CenturyDays(z: int)
    ensures (z as real - 1867216.25) / 36524.25 == (4 * z - 7468865) as real / 146097 as real
  {
  }

  /** jd_to_calendar depends only on the day number floor(jd + 0.5). */
  lemma JdToCalendarIsCalendarOfDay(jd: real)
    ensures JdToCalendar(jd) == CalendarOfDay((jd + 0.5).Floor)
  {
    var z := (jd + 0.5).Floor;
    if z < 2299161 {
      ShiftedDayAgrees(z + 1524);
    } else {
      FloorOfQuotient(4 * z - 7468865, 146097);
      CenturyDays(z);
      var alpha := (4 * z - 7468865) / 146097;
      ShiftedDayAgrees(z + 1 + alpha - TruncDiv(alpha, 4) + 1524);
    }
  }

  lemma ShiftedDayAgrees(b: int)
    ensures CalendarOfShiftedDay(b) == ShiftedDayToDate(b)
  {
    FloorOfQuotient(100 * b - 12210, 36525);
    assert (b as real - 122.1) / 365.25 == (100 * b - 12210) as real / 36525 as real;
    var c := (100 * b - 12210) / 36525;
    FloorOfQuotient(1461 * c, 4);
    QuarterDays(c);
    var d := (1461 * c) / 4;
    FloorOfQuotient(10000 * (b - d), 306001);
    assert (b - d) as real / 30.6001 == (10000 * (b - d)) as real / 306001 as real;
    var e := (10000 * (b - d)) / 306001;
    FloorOfQuotient(306001 * e, 10000);
    MonthDays(e);
  }

  /** floor(30.6001 * (m + 1)) for the March-based months 3..14. */
  function MonthOffset(m: int): int
    requires 3 <= m <= 14
  {
    (306001 * (m + 1)) / 10000
  }

  /** Days before the month m (3..14) in the March-based year, plus 122. */
  lemma MonthOffsetValues(m: int)
    requires 3 <= m <= 14
    ensures MonthOffset(m) == [122, 153, 183, 214, 244, 275, 306, 336, 367, 397, 428, 459][m - 3]
  {
  }

  /** Step of the round trip: the month index e recovers m, and then the day. */
  lemma MonthRecovered(m: int, d: int, len: int)
    requires 3 <= m <= 14 && 1 <= d <= len
    requires len == (if m == 14 then 29 else if m == 4 || m == 6 || m == 9 || m == 11 then 30 else 31)
    ensures (10000 * (MonthOffset(m) + d)) / 306001 == m + 1
  {
    MonthOffsetValues(m);
    MonthOffsetValues(if m < 14 then m + 1 else m);
    var e := m + 1;
    assert 306001 * e <= 10000 * (MonthOffset(m) + d) < 306001 * (e + 1);
  }

  /** The day number of every Gregorian date is at least that of 1582-10-15. */
  lemma DayNumberAfterReform(year: int, month: int, day: int)
    requires 1 <= month <= 12 && 1 <= day && OnOrAfterReform(year, month, day)
    ensures DayNumber(year, month, day) >= 2299161
  {
    var y := MarchYear(year, month);
    var m := MarchMonth(month);
    var a := y / 100;
    MonthOffsetValues(m);
    assert 100 * a <= y;
    assert 4 * (a / 4) > a - 4;
    assert 4 * ((1461 * (y + 4716)) / 4) > 1461 * (y + 4716) - 4;
    if y == 1582 {
      assert m >= 10;
    } else {
      assert y >= 1583;
    }
  }

  /** The day number, scaled by 4 and measured from the start of the 400-year cycle of century a - 4. */
  lemma DayNumberExcess(year: int, month: int, day: int)
    requires 1 <= month <= 12
    ensures var y := MarchYear(year, month);
            var a := y / 100;
            4 * DayNumber(year, month, day) - 7468865 - 146097 * (a - 4)
              == -(a % 4) + 1461 * (y % 100) - (y + 4716) % 4 + 4 * (MonthOffset(MarchMonth(month)) + day) - 489
  {
    var y := MarchYear(year, month);
    var a := y / 100;
    var yy := y + 4716;
    QuarterOf1461(yy);
    QuarterSplit(a);
    CenturySplit(y);
    ScaledExcess(a, a / 4, a % 4, y % 100, yy % 4, (1461 * yy) / 4, MonthOffset(MarchMonth(month)) + day);
  }

  /** floor(1461 n / 4), scaled back by 4, loses n mod 4. */
  lemma QuarterOf1461(n: int)
    ensures 4 * ((1461 * n) / 4) == 1461 * n - n % 4
  {
    var k := n / 4;
    var r := n % 4;
    assert 1461 * n == 4 * (1461 * k + 365 * r) + r;
  }

  lemma QuarterSplit(a: int)
    ensures 4 * (a / 4) == a - a % 4
  {
  }

  lemma CenturySplit(y: int)
    ensures y == 100 * (y / 100) + y % 100
  {
  }

  /** The arithmetic of DayNumberExcess, on plain integers. */
  lemma ScaledExcess(a: int, a4q: int, a4r: int, s: int, r: int, q: int, t: int)
    requires 4 * a4q == a - a4r
    requires 4 * q == 1461 * (100 * a + s + 4716) - r
    ensures 4 * (q + t + 2 - a + a4q - 1524) - 7468865 - 146097 * (a - 4) == -a4r + 1461 * s - r + 4 * t - 489
  {
  }

  /** The excess of DayNumberExcess stays within one 400-year cycle. */
  lemma ExcessBounds(a4: int, s: int, r: int, t: int)
    requires 0 <= a4 < 4 && 0 <= s < 100 && r == s % 4 && 123 <= t <= 488
    requires t == 488 ==> r == 3 && (s == 99 ==> a4 == 3)
    ensures 0 <= -a4 + 1461 * s - r + 4 * t - 489 < 146097
  {
  }

  /** Division by the 146097 days of a 400-year cycle is determined by the bracketing multiples. */
  lemma CycleQuotient(n: int, k: int)
    requires 146097 * k <= n < 146097 * k + 146097
    ensures n / 146097 == k
  {
  }

  /** The day offset of a March-based date: at most the 29th of the leap February. */
  lemma DayOffsetRange(year: int, month: int, day: int)
    requires 1 <= month <= 12 && 1 <= day <= DaysInMonth(year, month)
    ensures 123 <= MonthOffset(MarchMonth(month)) + day <= 488
    ensures MonthOffset(MarchMonth(month)) + day == 488 ==> month == 2 && IsLeapYear(year)
  {
    MonthOffsetValues(MarchMonth(month));
  }

  /** (y + 4716) mod 4 depends only on the last two digits of y. */
  lemma ResidueOfYear(y: int)
    ensures (y + 4716) % 4 == (y % 100) % 4
  {
    assert y + 4716 == 4 * (25 * (y / 100) + 1179) + y % 100;
  }

  /** The year before a leap year ends in 3 mod 4, and in a century of the form 4k + 3 when it ends in 99. */
  lemma BeforeLeapYear(y: int)
    requires IsLeapYear(y + 1)
    ensures (y % 100) % 4 == 3
    ensures y % 100 == 99 ==> (y / 100) % 4 == 3
  {
    assert y == 100 * (y / 100) + y % 100;
    if y % 100 == 99 {
      assert y + 1 == 100 * (y / 100 + 1);
    }
  }

  /** Step of the round trip: alpha == (March year div 100) - 4 for every Gregorian date. */
  lemma AlphaIsCentury(year: int, month: int, day: int)
    requires 1 <= month <= 12 && 1 <= day <= DaysInMonth(year, month)
    ensures (4 * DayNumber(year, month, day) - 7468865) / 146097 == MarchYear(year, month) / 100 - 4
  {
    var y := MarchYear(year, month);
    var a := y / 100;
    var t := MonthOffset(MarchMonth(month)) + day;
    DayOffsetRange(year, month, day);
    ResidueOfYear(y);
    if t == 488 {
      BeforeLeapYear(y);
    }
    ExcessBounds(a % 4, y % 100, (y + 4716) % 4, t);
    DayNumberExcess(year, month, day);
    CycleQuotient(4 * DayNumber(year, month, day) - 7468865, a - 4);
  }

  /** Step of the round trip: the Gregorian correction undoes the century term of the day number. */
  lemma CorrectionRemoved(year: int, month: int, day: int)
    requires 1 <= month <= 12 && 1 <= day <= DaysInMonth(year, month)
    requires OnOrAfterReform(year, month, day)
    ensures var z := DayNumber(year, month, day);
            var alpha := (4 * z - 7468865) / 146097;
            z >= 2299161 &&
            z + 1 + alpha - TruncDiv(alpha, 4) + 1524
              == (1461 * (MarchYear(year, month) + 4716)) / 4 + MonthOffset(MarchMonth(month)) + day
  {
    var y := MarchYear(year, month);
    var a0 := y / 100;
    var z := DayNumber(year, month, day);
    DayNumberAfterReform(year, month, day);
    AlphaIsCentury(year, month, day);
    var alpha := (4 * z - 7468865) / 146097;
    assert alpha == a0 - 4 && alpha >= 11;
    assert TruncDiv(alpha, 4) == a0 / 4 - 1;
  }

  /** The year count c of jd_to_calendar is recovered from floor(365.25 yy) plus a day offset in one March year. */
  lemma CenturyRecovered(yy: int, s: int)
    requires 123 <= s <= 488 && (s == 488 ==> yy % 4 == 3)
    ensures (100 * ((1461 * yy) / 4 + s) - 12210) / 36525 == yy
  {
    var r := yy % 4;
    assert 4 * ((1461 * yy) / 4) == 1461 * yy - r;
    var b := (1461 * yy) / 4 + s;
    assert 36525 * yy <= 100 * b - 12210 < 36525 * (yy + 1);
  }

  /** Step of the round trip: from b = floor(365.25 yy) + offset + day, the tail recovers the date. */
  lemma ShiftedDayRecovered(year: int, month: int, day: int)
    requires 1 <= month <= 12 && 1 <= day <= DaysInMonth(year, month)
    ensures var yy := MarchYear(year, month) + 4716;
            ShiftedDayToDate((1461 * yy) / 4 + MonthOffset(MarchMonth(month)) + day)
              == CalendarDate(year, month, day)
  {
    var y := MarchYear(year, month);
    var m := MarchMonth(month);
    var yy := y + 4716;
    var t := MonthOffset(m) + day;
    DayOffsetRange(year, month, day);
    if t == 488 {
      BeforeLeapYear(y);
      ResidueOfYear(y);
    }
    CenturyRecovered(yy, t);
    var len := if m == 14 then 29 else if m == 4 || m == 6 || m == 9 || m == 11 then 30 else 31;
    MonthRecovered(m, day, len);
    var b := (1461 * yy) / 4 + t;
    var c := (100 * b - 12210) / 36525;
    assert c == yy;
    var d := (1461 * c) / 4;
    var e := (10000 * (b - d)) / 306001;
    assert e == m + 1;
    assert b - d - (306001 * e) / 10000 == day;
    MonthAndYearRecovered(year, month, c, e);
  }

  /** The month and year jd_to_calendar reads off its month index e and year count c. */
  lemma MonthAndYearRecovered(year: int, month: int, c: int, e: int)
    requires 1 <= month <= 12 && e == MarchMonth(month) + 1 && c == MarchYear(year, month) + 4716
    ensures var mo := if e < 14 then e - 1 else e - 13;
            mo == month && (if mo > 2 then c - 4716 else c - 4715) == year
  {
  }

  /** Integer round trip: jd_to_calendar undoes the day number of every Gregorian date. */
  lemma CalendarOfDayNumber(year: int, month: int, day: int)
    requires 1 <= month <= 12 && 1 <= day <= DaysInMonth(year, month)
    requires OnOrAfterReform(year, month, day)
    ensures CalendarOfDay(DayNumber(year, month, day)) == CalendarDate(year, month, day)
  {
    CorrectionRemoved(year, month, day);
    ShiftedDayRecovered(year, month, day);
  }

  /**
   * The documented inverse relationship: for every Gregorian date and time of day,
   * jd_to_calendar(to_julian_date(y, m, d, h, mi, s)) == (y, m, d).
   */
  lemma RoundTrip(year: int, month: nat, day: nat, hour: nat, minute: nat, second: nat)
    requires IsGregorianDateTime(year, month, day, hour, minute, second)
    ensures JdToCalendar(ToJulianDate(year, month, day, hour, minute, second)) == CalendarDate(year, month, day)
  {
    var jd := ToJulianDate(year, month, day, hour, minute, second);
    ToJulianDateIsDayNumber(year, month, day, hour, minute, second);
    var z := DayNumber(year, month, day);
    var frac := UtHours(hour, minute, second) / 24.0;
    assert 0.0 <= frac < 1.0;
    assert jd + 0.5 == z as real + frac;
    FloorIs(jd + 0.5, z);
    JdToCalendarIsCalendarOfDay(jd);
    CalendarOfDayNumber(year, month, day);
  }

  /** The unit-test anchors: J2000, 1999-12-31 00:00 and 2024-01-01 00:00. */
  lemma JulianDateExamples()
    ensures ToJulianDate(2000, 1, 1, 12, 0, 0) == 2451545.0
    ensures ToJulianDate(1999, 12, 31, 0, 0, 0) == 2451543.5
    ensures ToJulianDate(2024, 1, 1, 0, 0, 0) == 2460310.5
  {
    JulianDateOfDay(2000, 1, 1, 12, 0, 0, 2451545);
    JulianDateOfDay(1999, 12, 31, 0, 0, 0, 2451544);
    JulianDateOfDay(2024, 1, 1, 0, 0, 0, 2460311);
  }

  /** ToJulianDateIsDayNumber for a date whose day number is known. */
  lemma JulianDateOfDay(year: int, month: nat, day: nat, hour: nat, minute: nat, second: nat, z: int)
    requires DayNumber(year, month, day) == z
    ensures ToJulianDate(year, month, day, hour, minute, second) == z as real - 0.5 + UtHours(hour, minute, second) / 24.0
  {
    ToJulianDateIsDayNumber(year, month, day, hour, minute, second);
  }

  /** The documented example: the Julian Date 2451545.0 is 2000-01-01. */
  lemma CalendarExample()
    ensures JdToCalendar(2451545.0) == CalendarDate(2000, 1, 1)
  {
    JulianDateExamples();
    RoundTrip(2000, 1, 1, 12, 0, 0);
  }
}
