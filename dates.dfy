/**
 * Calendar dates as the event reader stores them: Ruby's `Date#to_s`
 * (`%Y-%m-%d`) and `DateTime.strptime(text, '%Y-%m-%d')`, restricted to
 * unsigned years. Validity follows Ruby's default calendar (`Date::ITALY`):
 * Julian leap years before the Gregorian reform of 1582, and the ten days
 * 1582-10-05 .. 1582-10-14 that do not exist.
 */
module Dates {
  import opened Wrappers
  import opened Text

  datatype Date = Date(year: nat, month: nat, day: nat)

  predicate LeapYear(y: nat)
  {
    if y < 1582 then y % 4 == 0 else (y % 4 == 0 && y % 100 != 0) || y % 400 == 0
  }

  function DaysInMonth(y: nat, m: nat): (n: nat)
    requires 1 <= m <= 12
    ensures 28 <= n <= 31
  {
    if m == 2 then (if LeapYear(y) then 29 else 28)
    else if m == 4 || m == 6 || m == 9 || m == 11 then 30
    else 31
  }

  predicate ValidDate(d: Date)
  {
    && 1 <= d.month <= 12
    && 1 <= d.day <= DaysInMonth(d.year, d.month)
    && !(d.year == 1582 && d.month == 10 && 5 <= d.day <= 14)
  }

  /** `Date#to_s`: the year as at least four digits, month and day as two. */
  function Format(d: Date): string
  {
    PadDigits(d.year, 4) + "-" + (PadDigits(d.month, 2) + "-" + PadDigits(d.day, 2))
  }

  /** The length of the run of digits at the front of `s`. */
  function LeadingDigits(s: string): (n: nat)
    ensures n <= |s| && AllDigits(s[..n])
    ensures n < |s| ==> !IsDigit(s[n])
  {
    if s != [] && IsDigit(s[0]) then
      var n := 1 + LeadingDigits(s[1..]);
      assert s[..n] == [s[0]] + s[1..][..n - 1];
      n
    else 0
  }

  /** How many digits `%m` and `%d` take: as many as stand at the front, but at most two. */
  function UpToTwoDigits(s: string): (n: nat)
    ensures n <= 2 && n <= |s| && AllDigits(s[..n])
    ensures n < 2 && n < |s| ==> !IsDigit(s[n])
  {
    if |s| >= 2 && IsDigit(s[0]) && IsDigit(s[1]) then 2
    else if |s| >= 1 && IsDigit(s[0]) then 1
    else 0
  }

  /**
   * `DateTime.strptime(s, '%Y-%m-%d')`: one or more digits of year, `-`, one or two
   * digits of month, `-`, one or two digits of day, and nothing left over;
   * `None` where Ruby raises. The sign Ruby accepts before `%Y` is not modelled.
   */
  function ParseYmd(s: string): (r: Option<Date>)
    ensures r.Some? ==> ValidDate(r.value)
  {
    var y := LeadingDigits(s);
    if y == 0 || y == |s| || s[y] != '-' then None
    else ParseMonthDay(DigitsValue(s[..y]), s[y + 1..])
  }

  /** The `%m-%d` part, after the year and its `-`. */
  function ParseMonthDay(year: nat, rest: string): (r: Option<Date>)
    ensures r.Some? ==> ValidDate(r.value)
  {
    var m := UpToTwoDigits(rest);
    if m == 0 || m == |rest| || rest[m] != '-' then None
    else ParseDay(year, DigitsValue(rest[..m]), rest[m + 1..])
  }

  /** The `%d` part, which must end the text. */
  function ParseDay(year: nat, month: nat, tail: string): (r: Option<Date>)
    ensures r.Some? ==> ValidDate(r.value)
  {
    var d := UpToTwoDigits(tail);
    if d == 0 || d != |tail| then None
    else
      var date := Date(year, month, DigitsValue(tail));
      if ValidDate(date) then Some(date) else None
  }

  lemma {:induction false} LeadingDigitsOfConcat(a: string, b: string)
    requires AllDigits(a) && b != [] && !IsDigit(b[0])
    ensures LeadingDigits(a + b) == |a|
    decreases |a|
  {
    var s := a + b;
    if a != [] {
      assert s[0] == a[0];
      assert s[1..] == a[1..] + b;
      LeadingDigitsOfConcat(a[1..], b);
      assert LeadingDigits(s) == 1 + LeadingDigits(s[1..]);
    } else {
      assert s == b;
    }
  }

  /** A run of digits and a `-` is taken as the year. */
  lemma ParseYearPart(yy: string, rest: string)
    requires |yy| >= 1 && AllDigits(yy)
    ensures ParseYmd(yy + "-" + rest) == ParseMonthDay(DigitsValue(yy), rest)
  {
    var s := yy + "-" + rest;
    assert s == yy + ("-" + rest);
    LeadingDigitsOfConcat(yy, "-" + rest);
    assert s[..|yy|] == yy;
    assert s[|yy| + 1..] == rest;
  }

  /** Two digits and a `-` are taken as the month. */
  lemma ParseMonthPart(year: nat, mm: string, tail: string)
    requires |mm| == 2 && AllDigits(mm)
    ensures ParseMonthDay(year, mm + "-" + tail) == ParseDay(year, DigitsValue(mm), tail)
  {
    var rest := mm + "-" + tail;
    assert rest[0] == mm[0] && rest[1] == mm[1] && rest[2] == '-';
    assert UpToTwoDigits(rest) == 2;
    assert rest[..2] == mm && rest[3..] == tail;
  }

  /** Two digits that end the text are taken as the day. */
  lemma ParseDayPart(year: nat, month: nat, dd: string)
    requires |dd| == 2 && AllDigits(dd) && ValidDate(Date(year, month, DigitsValue(dd)))
    ensures ParseDay(year, month, dd) == Some(Date(year, month, DigitsValue(dd)))
  {
    assert IsDigit(dd[0]) && IsDigit(dd[1]);
    assert UpToTwoDigits(dd) == 2;
  }

  /** The shape `Format` prints, with a two-digit month and day, parses to the numbers it spells. */
  lemma ParseYmdOfFields(yy: string, mm: string, dd: string)
    requires |yy| >= 1 && AllDigits(yy) && |mm| == 2 && AllDigits(mm) && |dd| == 2 && AllDigits(dd)
    requires ValidDate(Date(DigitsValue(yy), DigitsValue(mm), DigitsValue(dd)))
    ensures ParseYmd(yy + "-" + (mm + "-" + dd)) == Some(Date(DigitsValue(yy), DigitsValue(mm), DigitsValue(dd)))
  {
    ParseYearPart(yy, mm + "-" + dd);
    ParseMonthDayOfFields(DigitsValue(yy), mm, dd);
  }

  /** `MM-DD` after the year parses to the month and day it spells. */
  lemma ParseMonthDayOfFields(year: nat, mm: string, dd: string)
    requires |mm| == 2 && AllDigits(mm) && |dd| == 2 && AllDigits(dd)
    requires ValidDate(Date(year, DigitsValue(mm), DigitsValue(dd)))
    ensures ParseMonthDay(year, mm + "-" + dd) == Some(Date(year, DigitsValue(mm), DigitsValue(dd)))
  {
    ParseMonthPart(year, mm, dd);
    ParseDayPart(year, DigitsValue(mm), dd);
  }

  /** What `Date#to_s` prints, `strptime` with `%Y-%m-%d` reads back. */
  lemma ParseFormatRoundTrip(d: Date)
    requires ValidDate(d)
    ensures ParseYmd(Format(d)) == Some(d)
  {
    TwoDigitsWide(d.month);
    TwoDigitsWide(d.day);
    PadDigitsValue(d.year, 4);
    PadDigitsValue(d.month, 2);
    PadDigitsValue(d.day, 2);
    ParseYmdOfFields(PadDigits(d.year, 4), PadDigits(d.month, 2), PadDigits(d.day, 2));
  }

  /** Text that opens with a non-digit, such as an array's printed form, is never a date. */
  lemma NonDigitStartIsNoDate(s: string)
    requires s != [] && !IsDigit(s[0])
    ensures ParseYmd(s) == None
  {
  }
}
