/** The packer's timestamp conversion against a day-by-day Gregorian calendar: leap years as
    in Appendix C of RFC 3339, field ranges as in section 5.7, text as in section 5.6. */
module Calendar {
  import opened Core

  datatype Date = Date(year: nat, month: nat, day: nat)

  datatype Moment = Moment(date: Date, hour: nat, minute: nat, second: nat)

  // ----- the reference calendar

  predicate IsLeap(y: nat) {
    y % 4 == 0 && (y % 100 != 0 || y % 400 == 0)
  }

  function Leap(y: nat): nat {
    if IsLeap(y) then 1 else 0
  }

  function DaysInMonth(y: nat, m: nat): nat {
    if m == 2 then 28 + Leap(y)
    else if m == 4 || m == 6 || m == 9 || m == 11 then 30
    else 31
  }

  /** Days from January 1st of year 0 to January 1st of year `y`. */
  function DaysBeforeYear(y: nat): nat {
    if y == 0 then 0 else DaysBeforeYear(y - 1) + 365 + Leap(y - 1)
  }

  /** Days from January 1st to the first of month `m`. */
  function DaysBeforeMonth(y: nat, m: nat): nat {
    if m <= 1 then 0 else DaysBeforeMonth(y, m - 1) + DaysInMonth(y, m - 1)
  }

  predicate ValidDate(d: Date) {
    1 <= d.month <= 12 && 1 <= d.day <= DaysInMonth(d.year, d.month)
  }

  function DayNumber(d: Date): nat
    requires d.day >= 1
  {
    DaysBeforeYear(d.year) + DaysBeforeMonth(d.year, d.month) + d.day - 1
  }

  const EPOCH: Date := Date(1970, 1, 1)

  predicate ValidMoment(m: Moment) {
    ValidDate(m.date) && m.hour <= 23 && m.minute <= 59 && m.second <= 59
  }

  // ----- the conversion

  /** Year within the 400-year era that starts on March 1st, from the day of the era. */
  function YearOfEra(doe: nat): nat
    requires doe <= 146_096
  {
    (doe - doe / 1460 + doe / 36_524 - doe / 146_096) / 365
  }

  /** Every difference is taken of natural numbers, so none of the subtractions underflows. */
  function CivilFromDays(days: nat): Date {
    var z := days + 719_468;
    var era := z / 146_097;
    var doe: nat := z - era * 146_097;
    var yoe: nat := YearOfEra(doe);
    var y := yoe + era * 400;
    YearOfEraBounds(doe);
    DateFromMarch(y, doe - (365 * yoe + yoe / 4 - yoe / 100))
  }

  /** Day `doy` of the year that begins in March of year `y`. */
  function DateFromMarch(y: nat, doy: nat): Date
    requires doy <= 365
  {
    var mp := (5 * doy + 2) / 153;
    MonthBounds(doy);
    var day: nat := doy - (153 * mp + 2) / 5 + 1;
    if mp < 10 then Date(y, mp + 3, day) else Date(y + 1, mp - 9, day)
  }

  function Civil(ms: U64): Moment {
    var secs := ms / 1000;
    var rest := secs % 86_400;
    Moment(CivilFromDays(secs / 86_400), rest / 3600, (rest / 60) % 60, rest % 60)
  }

  /** A day of the era as centuries, four-year cycles, years and days; only the last year of
      a cycle has a day 365, and of the last cycle of a century only in the last century. */
  ghost predicate EraParts(doe: nat, c: nat, a: nat, b: nat, f: nat) {
    && c <= 3 && a <= 24 && b <= 3 && f <= 365
    && doe == 36_524 * c + 1461 * a + 365 * b + f
    && (f == 365 ==> b == 3 && (a < 24 || c == 3))
  }

  lemma SplitEra(doe: nat) returns (c: nat, a: nat, b: nat, f: nat)
    requires doe <= 146_096
    ensures EraParts(doe, c, a, b, f)
  {
    c := if doe == 146_096 then 3 else doe / 36_524;
    var e := doe - 36_524 * c;
    a := e / 1461;
    var g := e - 1461 * a;
    b := if g == 1460 then 3 else g / 365;
    f := g - 365 * b;
  }

  lemma YearOfParts(doe: nat, c: nat, a: nat, b: nat, f: nat)
    requires doe <= 146_096 && EraParts(doe, c, a, b, f)
    ensures YearOfEra(doe) == 100 * c + 4 * a + b
  {
    var t := (24 * c + a + 365 * b + f) / 1460;
    assert doe / 1460 == 25 * c + a + t;
    var last := if doe == 146_096 then 1 else 0;
    assert doe / 146_096 == last;
    assert doe / 36_524 == c + last;
  }

  lemma PartsBounds(doe: nat, c: nat, a: nat, b: nat, f: nat, y: nat)
    requires EraParts(doe, c, a, b, f) && y == 100 * c + 4 * a + b
    ensures y <= 399 && y / 4 == 25 * c + a && y / 100 == c
    ensures 365 * y + y / 4 - y / 100 + f == doe
  {
  }

  /** The last day of a leap year is the 366th of a year that began in March before it. */
  lemma LeapAtCycleEnd(c: nat, a: nat)
    requires c <= 3 && a <= 24 && (a < 24 || c == 3)
    ensures IsLeap(100 * c + 4 * a + 4)
  {
    assert (100 * c + 4 * a + 4) % 4 == 0;
    if a < 24 {
      assert (100 * c + (4 * a + 4)) % 100 == 4 * a + 4;
    }
  }

  lemma YearOfEraBounds(doe: nat)
    requires doe <= 146_096
    ensures YearOfEra(doe) <= 399
    ensures 0 <= 365 * YearOfEra(doe) + YearOfEra(doe) / 4 - YearOfEra(doe) / 100 <= doe
    ensures doe - (365 * YearOfEra(doe) + YearOfEra(doe) / 4 - YearOfEra(doe) / 100) <= 365
    ensures doe - (365 * YearOfEra(doe) + YearOfEra(doe) / 4 - YearOfEra(doe) / 100) == 365
      ==> IsLeap(YearOfEra(doe) + 1)
  {
    var c, a, b, f := SplitEra(doe);
    var y: nat := YearOfEra(doe);
    YearOfParts(doe, c, a, b, f);
    PartsBounds(doe, c, a, b, f, y);
    if f == 365 {
      LeapAtCycleEnd(c, a);
    }
  }

  /** Days from March 1st to the first of the `mp`-th month after March. */
  function DaysBeforeMarchMonth(mp: nat): nat {
    (153 * mp + 2) / 5
  }

  lemma MonthBounds(doy: nat)
    requires doy <= 365
    ensures var mp := (5 * doy + 2) / 153;
      mp <= 11 && DaysBeforeMarchMonth(mp) <= doy && (mp < 11 ==> doy < DaysBeforeMarchMonth(mp + 1))
  {
  }

  // ----- against the reference

  /** Days from March 1st of year 0 to March 1st of year `y`. */
  function DaysBeforeMarch(y: nat): nat {
    365 * y + y / 4 - y / 100 + y / 400
  }

  lemma NextQuarter(y: nat)
    ensures (y + 1) / 4 == y / 4 + if (y + 1) % 4 == 0 then 1 else 0
  {
  }

  lemma NextCentury(y: nat)
    ensures (y + 1) / 100 == y / 100 + if (y + 1) % 100 == 0 then 1 else 0
  {
  }

  lemma NextEra(y: nat)
    ensures (y + 1) / 400 == y / 400 + if (y + 1) % 400 == 0 then 1 else 0
  {
  }

  lemma CenturyIsQuarter(y: nat)
    ensures (y % 100 == 0 ==> y % 4 == 0) && (y % 400 == 0 ==> y % 100 == 0)
  {
    if y % 100 == 0 {
      assert y == 4 * (25 * (y / 100));
    }
    if y % 400 == 0 {
      assert y == 100 * (4 * (y / 400));
    }
  }

  lemma MarchStep(y: nat)
    ensures DaysBeforeMarch(y + 1) == DaysBeforeMarch(y) + 365 + Leap(y + 1)
  {
    NextQuarter(y);
    NextCentury(y);
    NextEra(y);
    CenturyIsQuarter(y + 1);
  }

  lemma {:induction false} YearsInClosedForm(y: nat)
    ensures DaysBeforeYear(y) + Leap(y) == DaysBeforeMarch(y) + 1
  {
    if y > 0 {
      YearsInClosedForm(y - 1);
      MarchStep(y - 1);
    }
  }

  lemma EraQuarters(era: nat, y: nat)
    ensures (y + era * 400) / 4 == y / 4 + 100 * era && (y + era * 400) % 4 == y % 4
  {
  }

  lemma EraCenturies(era: nat, y: nat)
    ensures (y + era * 400) / 100 == y / 100 + 4 * era && (y + era * 400) % 100 == y % 100
  {
  }

  lemma EraEras(era: nat, y: nat)
    ensures (y + era * 400) / 400 == y / 400 + era && (y + era * 400) % 400 == y % 400
  {
  }

  lemma EraMultiples(era: nat, yoe: nat)
    requires yoe <= 399
    ensures DaysBeforeMarch(yoe + era * 400) == 146_097 * era + 365 * yoe + yoe / 4 - yoe / 100
    ensures IsLeap(yoe + era * 400 + 1) <==> IsLeap(yoe + 1)
  {
    EraQuarters(era, yoe);
    EraCenturies(era, yoe);
    EraEras(era, yoe);
    EraQuarters(era, yoe + 1);
    EraCenturies(era, yoe + 1);
    EraEras(era, yoe + 1);
    assert yoe + era * 400 + 1 == yoe + 1 + era * 400;
  }

  lemma MonthsFromMarch(y: nat, mp: nat)
    requires mp <= 11
    ensures mp < 10 ==> DaysBeforeMonth(y, mp + 3) == 59 + Leap(y) + DaysBeforeMarchMonth(mp)
    ensures mp >= 10 ==> DaysBeforeMonth(y, mp - 9) == DaysBeforeMarchMonth(mp) - 306
  {
    assert DaysBeforeMonth(y, 2) == 31;
    assert DaysBeforeMonth(y, 3) == 59 + Leap(y);
    assert DaysBeforeMonth(y, 4) == 90 + Leap(y);
    assert DaysBeforeMonth(y, 5) == 120 + Leap(y);
    assert DaysBeforeMonth(y, 6) == 151 + Leap(y);
    assert DaysBeforeMonth(y, 7) == 181 + Leap(y);
    assert DaysBeforeMonth(y, 8) == 212 + Leap(y);
    assert DaysBeforeMonth(y, 9) == 243 + Leap(y);
    assert DaysBeforeMonth(y, 10) == 273 + Leap(y);
    assert DaysBeforeMonth(y, 11) == 304 + Leap(y);
    assert DaysBeforeMonth(y, 12) == 334 + Leap(y);
  }

  lemma YearAndDay(era: nat, doe: nat) returns (y: nat, doy: nat)
    requires doe <= 146_096
    ensures var yoe := YearOfEra(doe);
      y == yoe + era * 400 && doy == doe - (365 * yoe + yoe / 4 - yoe / 100)
    ensures doy <= 365 && DaysBeforeMarch(y) + doy == 146_097 * era + doe && (doy == 365 ==> IsLeap(y + 1))
  {
    var yoe := YearOfEra(doe);
    YearOfEraBounds(doe);
    EraMultiples(era, yoe);
    y, doy := yoe + era * 400, doe - (365 * yoe + yoe / 4 - yoe / 100);
  }

  /** The parts of the conversion, named. */
  lemma CivilParts(days: nat) returns (y: nat, doy: nat, mp: nat)
    ensures doy <= 365 && mp == (5 * doy + 2) / 153 && mp <= 11
    ensures DaysBeforeMarch(y) + doy == days + 719_468
    ensures doy == 365 ==> IsLeap(y + 1)
    ensures var day := doy - DaysBeforeMarchMonth(mp) + 1;
      day >= 1 && CivilFromDays(days) == if mp < 10 then Date(y, mp + 3, day) else Date(y + 1, mp - 9, day)
  {
    var z := days + 719_468;
    var era := z / 146_097;
    y, doy := YearAndDay(era, z - era * 146_097);
    assert CivilFromDays(days) == DateFromMarch(y, doy);
    mp := (5 * doy + 2) / 153;
    MonthBounds(doy);
  }

  lemma NumberFromMarch(y: nat, doy: nat, mp: nat)
    requires mp <= 11 && DaysBeforeMarchMonth(mp) <= doy
    ensures var day := doy - DaysBeforeMarchMonth(mp) + 1;
      DayNumber(if mp < 10 then Date(y, mp + 3, day) else Date(y + 1, mp - 9, day)) == DaysBeforeMarch(y) + 60 + doy
  {
    YearsInClosedForm(y);
    if mp < 10 {
      MonthsFromMarch(y, mp);
    } else {
      assert DaysBeforeYear(y + 1) == DaysBeforeYear(y) + 365 + Leap(y);
      MonthsFromMarch(y + 1, mp);
    }
  }

  /** The date is a calendar date, and counting days from January 1st 1970 to it gives back
      exactly the day count it was made from. */
  lemma CivilCountsBack(days: nat)
    ensures ValidDate(CivilFromDays(days))
    ensures DayNumber(CivilFromDays(days)) - DayNumber(EPOCH) == days
  {
    var y, doy, mp := CivilParts(days);
    MonthBounds(doy);
    NumberFromMarch(y, doy, mp);
    DateIsValid(y, doy, mp);
    EpochDay();
  }

  lemma DateIsValid(y: nat, doy: nat, mp: nat)
    requires doy <= 365 && mp == (5 * doy + 2) / 153 && mp <= 11 && (doy == 365 ==> IsLeap(y + 1))
    ensures var day := doy - DaysBeforeMarchMonth(mp) + 1;
      day >= 1 && ValidDate(if mp < 10 then Date(y, mp + 3, day) else Date(y + 1, mp - 9, day))
  {
    MonthBounds(doy);
  }

  lemma EpochDay()
    ensures DayNumber(EPOCH) == 719_528
  {
    YearsInClosedForm(1970);
    assert DaysBeforeMonth(1970, 1) == 0;
  }

  lemma DivideTwice(ms: nat)
    ensures ms / 1000 / 86_400 == ms / 86_400_000
  {
  }

  lemma ClockSplits(rest: nat)
    requires rest < 86_400
    ensures rest / 3600 <= 23 && rest / 60 % 60 <= 59 && rest % 60 <= 59
    ensures (rest / 3600) * 3600 + (rest / 60 % 60) * 60 + rest % 60 == rest
  {
    assert rest == (rest / 60) * 60 + rest % 60;
    assert rest / 60 == (rest / 3600) * 60 + rest / 60 % 60;
  }

  /** For every 64-bit millisecond count: valid fields, the right day, and the right second of
      that day. */
  lemma CivilIsCorrect(ms: U64)
    ensures ValidMoment(Civil(ms))
    ensures DayNumber(Civil(ms).date) - DayNumber(EPOCH) == ms / 86_400_000
    ensures var m := Civil(ms); m.hour * 3600 + m.minute * 60 + m.second == (ms / 1000) % 86_400
  {
    var secs := ms / 1000;
    CivilCountsBack(secs / 86_400);
    DivideTwice(ms);
    ClockSplits(secs % 86_400);
  }

  // ----- the date is the only one

  lemma {:induction false} MonthFitsYear(y: nat, m: nat)
    requires 1 <= m <= 12
    ensures DaysBeforeMonth(y, m) + DaysInMonth(y, m) <= 365 + Leap(y)
    decreases 12 - m
  {
    if m < 12 {
      MonthFitsYear(y, m + 1);
    } else {
      MonthsFromMarch(y, 9);
    }
  }

  lemma {:induction false} LaterYear(y: nat, z: nat)
    requires y < z
    ensures DaysBeforeYear(y) + 365 + Leap(y) <= DaysBeforeYear(z)
  {
    if y + 1 < z {
      LaterYear(y, z - 1);
    }
  }

  lemma {:induction false} LaterMonth(y: nat, m: nat, n: nat)
    requires 1 <= m < n
    ensures DaysBeforeMonth(y, m) + DaysInMonth(y, m) <= DaysBeforeMonth(y, n)
  {
    if m + 1 < n {
      LaterMonth(y, m, n - 1);
    }
  }

  predicate Earlier(a: Date, b: Date) {
    a.year < b.year || (a.year == b.year && (a.month < b.month || (a.month == b.month && a.day < b.day)))
  }

  lemma EarlierHasSmallerNumber(a: Date, b: Date)
    requires ValidDate(a) && ValidDate(b) && Earlier(a, b)
    ensures DayNumber(a) < DayNumber(b)
  {
    MonthFitsYear(a.year, a.month);
    if a.year < b.year {
      LaterYear(a.year, b.year);
    } else if a.month < b.month {
      LaterMonth(a.year, a.month, b.month);
    }
  }

  /** No other calendar date has the same day number. */
  lemma DateIsUnique(a: Date, b: Date)
    requires ValidDate(a) && ValidDate(b) && DayNumber(a) == DayNumber(b)
    ensures a == b
  {
    if Earlier(a, b) {
      EarlierHasSmallerNumber(a, b);
    } else if Earlier(b, a) {
      EarlierHasSmallerNumber(b, a);
    }
  }
}
