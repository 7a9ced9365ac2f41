/** The text of a timestamp. It can be read back, and has the shape of section 5.6 of RFC 3339
    exactly up to the year 9999. */
module Timestamps {
  import opened Core
  import opened Digits
  import opened Calendar

  function DigitChar(d: nat): char
    requires d < 10
  {
    "0123456789"[d]
  }

  predicate IsDigit(c: char) {
    '0' <= c <= '9'
  }

  function DigitValue(c: char): nat
    requires IsDigit(c)
  {
    c as nat - '0' as nat
  }

  lemma DigitRoundTrip(d: nat)
    requires d < 10
    ensures IsDigit(DigitChar(d)) && DigitValue(DigitChar(d)) == d
  {
    assert d == 0 || d == 1 || d == 2 || d == 3 || d == 4 || d == 5 || d == 6 || d == 7 || d == 8 || d == 9;
  }

  /** At least four digits, as many as the year needs. */
  function YearWidth(n: nat): (width: nat)
    ensures width >= 4 && (width == 4 <==> n < 10_000) && n < Pow(10, width)
  {
    if n < 10_000 then
      assert Pow(10, 2) == 100 && Pow(10, 4) == 10_000;
      4
    else
      OneMoreDigit(n, Pow(10, YearWidth(n / 10)));
      YearWidth(n / 10) + 1
  }

  lemma OneMoreDigit(n: nat, p: nat)
    requires n / 10 < p
    ensures n < 10 * p
  {
  }

  function YearText(n: nat): string {
    var ds := Encode(10, n, YearWidth(n));
    seq(|ds|, i requires 0 <= i < |ds| => DigitChar(ds[i]))
  }

  function Two(n: nat): string
    requires n < 100
  {
    [DigitChar(n / 10), DigitChar(n % 10)]
  }

  /** Everything after the year. */
  function Tail(m: Moment): string
    requires ValidMoment(m)
  {
    "-" + Two(m.date.month) + "-" + Two(m.date.day)
    + "T" + Two(m.hour) + ":" + Two(m.minute) + ":" + Two(m.second) + "Z"
  }

  function FormatUtc(ms: U64): string {
    CivilIsCorrect(ms);
    YearText(Civil(ms).date.year) + Tail(Civil(ms))
  }

  // ----- reading a timestamp

  function ReadNumber(s: string): Option<nat> {
    if forall i :: 0 <= i < |s| ==> IsDigit(s[i]) then
      Some(Value(10, seq(|s|, i requires 0 <= i < |s| => DigitValue(s[i]))))
    else None
  }

  function ReadTwo(a: char, b: char): Option<nat> {
    if IsDigit(a) && IsDigit(b) then Some(10 * DigitValue(a) + DigitValue(b)) else None
  }

  predicate Punctuated(t: string)
    requires |t| == 16
  {
    t[0] == '-' && t[3] == '-' && t[6] == 'T' && t[9] == ':' && t[12] == ':' && t[15] == 'Z'
  }

  /** A year of at least four digits followed by -MM-DDTHH:MM:SSZ. */
  function ReadUtc(text: string): Option<Moment> {
    if |text| < 20 then None
    else
      var n := |text| - 16;
      var t := text[n..];
      var year := ReadNumber(text[..n]);
      var month, day := ReadTwo(t[1], t[2]), ReadTwo(t[4], t[5]);
      var hour, minute, second := ReadTwo(t[7], t[8]), ReadTwo(t[10], t[11]), ReadTwo(t[13], t[14]);
      if Punctuated(t) && year.Some? && month.Some? && day.Some? && hour.Some? && minute.Some? && second.Some? then
        Some(Moment(Date(year.value, month.value, day.value), hour.value, minute.value, second.value))
      else None
  }

  lemma YearRoundTrip(n: nat)
    ensures ReadNumber(YearText(n)) == Some(n)
  {
    var ds, s := Encode(10, n, YearWidth(n)), YearText(n);
    forall i | 0 <= i < |s| ensures IsDigit(s[i]) && DigitValue(s[i]) == ds[i] {
      DigitRoundTrip(ds[i]);
    }
    assert seq(|s|, i requires 0 <= i < |s| => DigitValue(s[i])) == ds;
    EncodeThenValue(10, n, YearWidth(n));
  }

  lemma TwoRoundTrip(n: nat)
    requires n < 100
    ensures ReadTwo(Two(n)[0], Two(n)[1]) == Some(n)
  {
    DigitRoundTrip(n / 10);
    DigitRoundTrip(n % 10);
  }

  lemma TailLayout(m: Moment)
    requires ValidMoment(m)
    ensures |Tail(m)| == 16 && Punctuated(Tail(m))
    ensures Tail(m)[1..3] == Two(m.date.month) && Tail(m)[4..6] == Two(m.date.day)
    ensures Tail(m)[7..9] == Two(m.hour) && Tail(m)[10..12] == Two(m.minute) && Tail(m)[13..15] == Two(m.second)
  {
  }

  lemma ReadTail(m: Moment)
    requires ValidMoment(m)
    ensures var t := Tail(m);
      && |t| == 16 && Punctuated(t)
      && ReadTwo(t[1], t[2]) == Some(m.date.month) && ReadTwo(t[4], t[5]) == Some(m.date.day)
      && ReadTwo(t[7], t[8]) == Some(m.hour) && ReadTwo(t[10], t[11]) == Some(m.minute)
      && ReadTwo(t[13], t[14]) == Some(m.second)
  {
    TailLayout(m);
    var t := Tail(m);
    TwoRoundTrip(m.date.month);
    TwoRoundTrip(m.date.day);
    TwoRoundTrip(m.hour);
    TwoRoundTrip(m.minute);
    TwoRoundTrip(m.second);
    assert t[1] == t[1..3][0] && t[2] == t[1..3][1];
    assert t[4] == t[4..6][0] && t[5] == t[4..6][1];
    assert t[7] == t[7..9][0] && t[8] == t[7..9][1];
    assert t[10] == t[10..12][0] && t[11] == t[10..12][1];
    assert t[13] == t[13..15][0] && t[14] == t[13..15][1];
  }

  /** The printed text says exactly the moment it was made from, to the second. */
  lemma FormatReadsBack(ms: U64)
    ensures ReadUtc(FormatUtc(ms)) == Some(Civil(ms))
  {
    CivilIsCorrect(ms);
    var m := Civil(ms);
    var year, tail := YearText(m.date.year), Tail(m);
    YearRoundTrip(m.date.year);
    ReadTail(m);
    var text := year + tail;
    assert text[..|text| - 16] == year && text[|text| - 16..] == tail;
  }

  // ----- the shape the standard asks for

  /** `date-time` with a four-digit year, whole seconds and the Z offset, with field values in
      range. */
  ghost predicate IsRfc3339(text: string) {
    |text| == 20 && ReadUtc(text).Some? && ValidMoment(ReadUtc(text).value)
  }

  lemma YearIsFourDigits(d: Date)
    requires ValidDate(d)
    ensures d.year < 10_000 <==> DayNumber(d) - DayNumber(EPOCH) < 2_932_897
  {
    EpochDay();
    YearsInClosedForm(10_000);
    if d.year < 10_000 {
      MonthFitsYear(d.year, d.month);
      LaterYear(d.year, 10_000);
    } else if d.year > 10_000 {
      LaterYear(10_000, d.year);
    }
  }

  /** The text conforms exactly for moments before the year 10000; a 64-bit millisecond count
      can lie later, and then prints a longer year. */
  lemma ConformsUntilYear9999(ms: U64)
    ensures IsRfc3339(FormatUtc(ms)) <==> ms < 253_402_300_800_000
  {
    CivilIsCorrect(ms);
    FormatReadsBack(ms);
    var m := Civil(ms);
    TailLayout(m);
    YearIsFourDigits(m.date);
    assert |FormatUtc(ms)| == YearWidth(m.date.year) + 16;
  }
}
