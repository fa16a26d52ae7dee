/**
 `parse_canonical_utc_timestamp`: a UTC timestamp with one to three optional fraction digits
 becomes a number of milliseconds that is only meant to be compared. The theorem says the
 comparison is the calendar's: instants are ordered as their fields are.
 */
module Timestamps {
  import opened Texts

  datatype Fields = Fields(year: nat, month: nat, day: nat, hour: nat, minute: nat, second: nat, millis: nat)

  predicate IsLeapYear(year: nat) { year % 4 == 0 && (year % 100 != 0 || year % 400 == 0) }

  function DaysInMonth(year: nat, month: nat): nat {
    if month == 2 then (if IsLeapYear(year) then 29 else 28)
    else if month in {4, 6, 9, 11} then 30
    else 31
  }

  predicate IsPunctuation(i: nat) { i in {4, 7, 10, 13, 16} }

  function Decimal(t: Text, start: nat, end: nat): nat
    requires start <= end <= |t| && forall i :: start <= i < end ==> IsDigit(t[i])
    decreases end - start
  {
    if start == end then 0
    else
      var digit: int := t[end - 1];
      assert IsDigit(t[end - 1]);
      Decimal(t, start, end - 1) * 10 + (digit - 0x30)
  }

  /** Layout: `YYYY-MM-DDTHH:MM:SS`, an optional point with one to three digits, then `Z`. */
  predicate Layout(t: Text) {
    && (|t| == 20 || 22 <= |t| <= 24)
    && t[|t| - 1] == 0x5A
    && t[4] == 0x2D && t[7] == 0x2D && t[10] == 0x54 && t[13] == 0x3A && t[16] == 0x3A
    && (|t| > 20 ==> t[19] == 0x2E)
    && forall i :: 0 <= i < |t| - 1 && !IsPunctuation(i) && i != 19 ==> IsDigit(t[i])
  }

  function ReadFields(t: Text): Fields
    requires Layout(t)
  {
    var millis := if |t| == 20 then 0
                  else Decimal(t, 20, |t| - 1) * (if |t| == 22 then 100 else if |t| == 23 then 10 else 1);
    Fields(Decimal(t, 0, 4), Decimal(t, 5, 7), Decimal(t, 8, 10),
           Decimal(t, 11, 13), Decimal(t, 14, 16), Decimal(t, 17, 19), millis)
  }

  predicate ValidFields(f: Fields) {
    && f.year > 0 && 1 <= f.month <= 12 && 1 <= f.day <= DaysInMonth(f.year, f.month)
    && f.hour <= 23 && f.minute <= 59 && f.second <= 59
  }

  function DaysBeforeYear(year: nat): nat
    requires year > 0
  {
    var prior := year - 1;
    prior * 365 + prior / 4 - prior / 100 + prior / 400
  }

  function DaysBeforeMonth(year: nat, month: nat): nat
    requires 1 <= month <= 12
  {
    [0, 31, 59, 90, 120, 151, 181, 212, 243, 273, 304, 334][month - 1]
    + (if month > 2 && IsLeapYear(year) then 1 else 0)
  }

  function DayNumber(f: Fields): nat
    requires ValidFields(f)
  {
    DaysBeforeYear(f.year) + DaysBeforeMonth(f.year, f.month) + f.day - 1
  }

  function Millis(f: Fields): nat
    requires ValidFields(f)
  {
    (((DayNumber(f) * 24 + f.hour) * 60 + f.minute) * 60 + f.second) * 1000 + f.millis
  }

  function Instant(t: Text): Option<nat> {
    if Layout(t) && ValidFields(ReadFields(t)) then Some(Millis(ReadFields(t))) else None
  }

  // ---------------------------------------------------------------- order

  /** Calendar order, field by field. */
  predicate Earlier(a: Fields, b: Fields) {
    || a.year < b.year
    || (a.year == b.year && (a.month < b.month
    || (a.month == b.month && (a.day < b.day
    || (a.day == b.day && (a.hour < b.hour
    || (a.hour == b.hour && (a.minute < b.minute
    || (a.minute == b.minute && (a.second < b.second
    || (a.second == b.second && a.millis < b.millis)))))))))))
  }

  lemma MillisBound(t: Text)
    requires Layout(t)
    ensures ReadFields(t).millis <= 999
  {
  }

  lemma {:induction false} MonthsAscend(year: nat, m: nat, n: nat)
    requires 1 <= m < n <= 12
    ensures DaysBeforeMonth(year, m) + DaysInMonth(year, m) <= DaysBeforeMonth(year, n)
    decreases n - m
  {
  }

  lemma YearStep(year: nat)
    requires year > 0
    ensures DaysBeforeYear(year + 1) == DaysBeforeYear(year) + (if IsLeapYear(year) then 366 else 365)
  {
    FloorStep(year, 4);
    FloorStep(year, 100);
    FloorStep(year, 400);
    LeapDivisors(year);
  }

  lemma LeapDivisors(year: nat)
    ensures year % 100 == 0 ==> year % 4 == 0
    ensures year % 400 == 0 ==> year % 100 == 0
  {
    var c, q := year / 100, year / 400;
    if year % 100 == 0 { assert year == 4 * (25 * c); }
    if year % 400 == 0 { assert year == 100 * (4 * q); }
  }

  lemma FloorStep(year: nat, k: nat)
    requires year > 0 && k in {4, 100, 400}
    ensures year / k == (year - 1) / k + (if year % k == 0 then 1 else 0)
  {
  }

  lemma {:induction false} YearsAscend(y: nat, z: nat)
    requires 0 < y < z
    ensures DaysBeforeYear(y) + (if IsLeapYear(y) then 366 else 365) <= DaysBeforeYear(z)
    decreases z - y
  {
    YearStep(y);
    if y + 1 < z { YearsAscend(y + 1, z); }
  }

  lemma DayInYear(f: Fields)
    requires ValidFields(f)
    ensures DaysBeforeYear(f.year) <= DayNumber(f)
         < DaysBeforeYear(f.year) + (if IsLeapYear(f.year) then 366 else 365)
  {
  }

  lemma EarlierDay(a: Fields, b: Fields)
    requires ValidFields(a) && ValidFields(b)
    requires a.year < b.year || (a.year == b.year && (a.month < b.month || (a.month == b.month && a.day < b.day)))
    ensures DayNumber(a) < DayNumber(b)
  {
    DayInYear(a);
    DayInYear(b);
    if a.year < b.year { YearsAscend(a.year, b.year); }
    else if a.month < b.month { MonthsAscend(a.year, a.month, b.month); }
  }

  lemma EarlierMillis(a: Fields, b: Fields)
    requires ValidFields(a) && ValidFields(b) && a.millis <= 999 && b.millis <= 999 && Earlier(a, b)
    ensures Millis(a) < Millis(b)
  {
    if DayNumber(a) != DayNumber(b) || a.day != b.day || a.month != b.month || a.year != b.year {
      EarlierDay(a, b);
    }
  }

  /** Comparing instants is comparing calendars; equal instants are equal field by field. */
  lemma InstantOrder(s: Text, t: Text)
    requires Instant(s).Some? && Instant(t).Some?
    ensures Instant(s).value < Instant(t).value <==> Earlier(ReadFields(s), ReadFields(t))
    ensures Instant(s) == Instant(t) <==> ReadFields(s) == ReadFields(t)
  {
    var a, b := ReadFields(s), ReadFields(t);
    MillisBound(s);
    MillisBound(t);
    if Earlier(a, b) { EarlierMillis(a, b); }
    else if Earlier(b, a) { EarlierMillis(b, a); }
    else { assert a == b; }
  }

  // ---------------------------------------------------------------- printing

  function Digit(n: nat): Unit
    requires n < 10
  {
    0x30 + n
  }

  /** The date and time of day, every field in its place with leading zeros. */
  function PrintSeconds(f: Fields): Text
    requires f.year <= 9999 && f.month <= 99 && f.day <= 99 && f.hour <= 99 && f.minute <= 99 && f.second <= 99
  {
    [Digit(f.year / 1000), Digit(f.year / 100 % 10), Digit(f.year / 10 % 10), Digit(f.year % 10), 0x2D,
     Digit(f.month / 10), Digit(f.month % 10), 0x2D, Digit(f.day / 10), Digit(f.day % 10), 0x54,
     Digit(f.hour / 10), Digit(f.hour % 10), 0x3A, Digit(f.minute / 10), Digit(f.minute % 10), 0x3A,
     Digit(f.second / 10), Digit(f.second % 10)]
  }

  function PrintFraction(millis: nat, digits: nat): Text
    requires millis <= 999 && digits <= 3
  {
    match digits
    case 0 => []
    case 1 => [0x2E, Digit(millis / 100)]
    case 2 => [0x2E, Digit(millis / 100), Digit(millis / 10 % 10)]
    case _ => [0x2E, Digit(millis / 100), Digit(millis / 10 % 10), Digit(millis % 10)]
  }

  /** So many fraction digits are enough for these milliseconds. */
  predicate Enough(millis: nat, digits: nat) {
    millis <= 999 && digits <= 3
    && (digits == 0 ==> millis == 0) && (digits == 1 ==> millis % 100 == 0) && (digits == 2 ==> millis % 10 == 0)
  }

  function PrintTimestamp(f: Fields, digits: nat): Text
    requires ValidFields(f) && f.year <= 9999 && Enough(f.millis, digits)
  {
    PrintSeconds(f) + PrintFraction(f.millis, digits) + [0x5A]
  }

  lemma DecimalOne(t: Text, i: nat)
    requires i + 1 <= |t| && IsDigit(t[i])
    ensures Decimal(t, i, i + 1) == t[i] - 0x30
  {
  }

  lemma DecimalTwo(t: Text, i: nat)
    requires i + 2 <= |t| && IsDigit(t[i]) && IsDigit(t[i + 1])
    ensures Decimal(t, i, i + 2) == (t[i] - 0x30) * 10 + (t[i + 1] - 0x30)
  {
    DecimalOne(t, i);
  }

  lemma DecimalThree(t: Text, i: nat)
    requires i + 3 <= |t| && IsDigit(t[i]) && IsDigit(t[i + 1]) && IsDigit(t[i + 2])
    ensures Decimal(t, i, i + 3) == (t[i] - 0x30) * 100 + (t[i + 1] - 0x30) * 10 + (t[i + 2] - 0x30)
  {
    DecimalTwo(t, i);
  }

  lemma DecimalFour(t: Text, i: nat)
    requires i + 4 <= |t| && IsDigit(t[i]) && IsDigit(t[i + 1]) && IsDigit(t[i + 2]) && IsDigit(t[i + 3])
    ensures Decimal(t, i, i + 4) == (t[i] - 0x30) * 1000 + (t[i + 1] - 0x30) * 100 + (t[i + 2] - 0x30) * 10 + (t[i + 3] - 0x30)
  {
    DecimalThree(t, i);
  }

  /** What the digits of a timestamp say, place by place. */
  lemma Places(t: Text)
    requires Layout(t)
    ensures var f := ReadFields(t);
            && f.year == (t[0] - 0x30) * 1000 + (t[1] - 0x30) * 100 + (t[2] - 0x30) * 10 + (t[3] - 0x30)
            && f.month == (t[5] - 0x30) * 10 + (t[6] - 0x30) && f.day == (t[8] - 0x30) * 10 + (t[9] - 0x30)
            && f.hour == (t[11] - 0x30) * 10 + (t[12] - 0x30) && f.minute == (t[14] - 0x30) * 10 + (t[15] - 0x30)
            && f.second == (t[17] - 0x30) * 10 + (t[18] - 0x30)
            && f.millis == (if |t| > 20 then (t[20] - 0x30) * 100 else 0) + (if |t| > 22 then (t[21] - 0x30) * 10 else 0)
                           + (if |t| > 23 then t[22] - 0x30 else 0)
  {
    DecimalFour(t, 0);
    DecimalTwo(t, 5);
    DecimalTwo(t, 8);
    DecimalTwo(t, 11);
    DecimalTwo(t, 14);
    DecimalTwo(t, 17);
    if |t| == 22 { DecimalOne(t, 20); }
    if |t| == 23 { DecimalTwo(t, 20); }
    if |t| == 24 { DecimalThree(t, 20); }
  }

  lemma PrintedLayout(f: Fields, digits: nat)
    requires ValidFields(f) && f.year <= 9999 && Enough(f.millis, digits)
    ensures var t := PrintTimestamp(f, digits);
            && Layout(t) && |t| == (if digits == 0 then 20 else 21 + digits) && t[..19] == PrintSeconds(f)
            && (digits > 0 ==> t[20] == Digit(f.millis / 100))
            && (digits > 1 ==> t[21] == Digit(f.millis / 10 % 10)) && (digits > 2 ==> t[22] == Digit(f.millis % 10))
  {
  }

  lemma FourDigits(n: nat)
    requires n <= 9999
    ensures n == n / 1000 * 1000 + n / 100 % 10 * 100 + n / 10 % 10 * 10 + n % 10
  {
    TenTimes(n);
    TenTimes(n / 10);
    TenTimes(n / 100);
    assert n / 10 / 10 == n / 100 && n / 100 / 10 == n / 1000;
  }

  lemma TenTimes(n: nat)
    ensures n == n / 10 * 10 + n % 10
  {
  }

  lemma DigitsOf(a: nat, b: nat, c: nat, d: nat)
    requires a < 10 && b < 10 && c < 10 && d < 10
    ensures var n := a * 1000 + b * 100 + c * 10 + d;
            n / 1000 == a && n / 100 % 10 == b && n / 10 % 10 == c && n % 10 == d
  {
    var n := a * 1000 + b * 100 + c * 10 + d;
    assert n / 10 == a * 100 + b * 10 + c && n / 100 == a * 10 + b;
  }

  /** The fields before the fraction. */
  lemma ReadPrintedSeconds(f: Fields, t: Text)
    requires ValidFields(f) && f.year <= 9999 && Layout(t) && t[..19] == PrintSeconds(f)
    ensures ReadFields(t) == f.(millis := ReadFields(t).millis)
  {
    Places(t);
    var s := PrintSeconds(f);
    assert t[0] == s[0] && t[1] == s[1] && t[2] == s[2] && t[3] == s[3] && t[5] == s[5] && t[6] == s[6];
    assert t[8] == s[8] && t[9] == s[9] && t[11] == s[11] && t[12] == s[12];
    assert t[14] == s[14] && t[15] == s[15] && t[17] == s[17] && t[18] == s[18];
    FourDigits(f.year);
  }

  /** Reading a printed timestamp gives its fields back, and its instant is theirs. */
  lemma ReadPrintedTimestamp(f: Fields, digits: nat)
    requires ValidFields(f) && f.year <= 9999 && Enough(f.millis, digits)
    ensures Layout(PrintTimestamp(f, digits)) && ReadFields(PrintTimestamp(f, digits)) == f
    ensures Instant(PrintTimestamp(f, digits)) == Some(Millis(f))
  {
    var t := PrintTimestamp(f, digits);
    PrintedLayout(f, digits);
    ReadPrintedSeconds(f, t);
    MillisAt(t);
    FractionDigits(f.millis, digits);
    assert ReadFields(t) == f;
  }

  lemma FractionDigits(millis: nat, digits: nat)
    requires Enough(millis, digits)
    ensures millis == (if digits > 0 then millis / 100 * 100 else 0) + (if digits > 1 then millis / 10 % 10 * 10 else 0)
                      + (if digits > 2 then millis % 10 else 0)
  {
    FourDigits(millis);
  }

  lemma MillisAt(t: Text)
    requires Layout(t)
    ensures ReadFields(t).millis
         == (if |t| > 20 then (t[20] - 0x30) * 100 else 0) + (if |t| > 22 then (t[21] - 0x30) * 10 else 0)
            + (if |t| > 23 then t[22] - 0x30 else 0)
  {
    Places(t);
  }

  lemma PairAt(t: Text, i: nat, n: nat)
    requires i + 1 < |t| && IsDigit(t[i]) && IsDigit(t[i + 1]) && n == (t[i] - 0x30) * 10 + (t[i + 1] - 0x30)
    ensures n <= 99 && Digit(n / 10) == t[i] && Digit(n % 10) == t[i + 1]
  {
  }

  lemma PrintReadSeconds(t: Text)
    requires Instant(t).Some?
    ensures var f := ReadFields(t); f.year <= 9999 && PrintSeconds(f) == t[..19]
  {
    Places(t);
    var f := ReadFields(t);
    DigitsOf(t[0] - 0x30, t[1] - 0x30, t[2] - 0x30, t[3] - 0x30);
    PairAt(t, 5, f.month);
    PairAt(t, 8, f.day);
    PairAt(t, 11, f.hour);
    PairAt(t, 14, f.minute);
    PairAt(t, 17, f.second);
    SecondsAre(f, t[..19]);
  }

  lemma SecondsAre(f: Fields, s: Text)
    requires f.year <= 9999 && f.month <= 99 && f.day <= 99 && f.hour <= 99 && f.minute <= 99 && f.second <= 99 && |s| == 19
    requires s[0] == Digit(f.year / 1000) && s[1] == Digit(f.year / 100 % 10) && s[2] == Digit(f.year / 10 % 10)
    requires s[3] == Digit(f.year % 10) && s[4] == 0x2D && s[5] == Digit(f.month / 10) && s[6] == Digit(f.month % 10)
    requires s[7] == 0x2D && s[8] == Digit(f.day / 10) && s[9] == Digit(f.day % 10) && s[10] == 0x54
    requires s[11] == Digit(f.hour / 10) && s[12] == Digit(f.hour % 10) && s[13] == 0x3A
    requires s[14] == Digit(f.minute / 10) && s[15] == Digit(f.minute % 10) && s[16] == 0x3A
    requires s[17] == Digit(f.second / 10) && s[18] == Digit(f.second % 10)
    ensures PrintSeconds(f) == s
  {
  }

  lemma PrintReadFraction(t: Text)
    requires Layout(t)
    ensures var millis, digits := ReadFields(t).millis, if |t| == 20 then 0 else |t| - 21;
            Enough(millis, digits) && PrintFraction(millis, digits) == t[19..|t| - 1]
  {
    MillisAt(t);
    if |t| == 20 {
      assert t[19..19] == [];
    } else if |t| == 22 {
      FractionOf(t[20] - 0x30, 0, 0);
      assert t[19..21] == [t[19], t[20]];
    } else if |t| == 23 {
      FractionOf(t[20] - 0x30, t[21] - 0x30, 0);
      assert t[19..22] == [t[19], t[20], t[21]];
    } else {
      FractionOf(t[20] - 0x30, t[21] - 0x30, t[22] - 0x30);
      assert t[19..23] == [t[19], t[20], t[21], t[22]];
    }
  }

  lemma FractionOf(a: nat, b: nat, c: nat)
    requires a < 10 && b < 10 && c < 10
    ensures var n := a * 100 + b * 10 + c;
            && n <= 999 && n / 100 == a && n / 10 % 10 == b && n % 10 == c
            && (c == 0 ==> n % 10 == 0) && (b == 0 && c == 0 ==> n % 100 == 0)
  {
    DigitsOf(0, a, b, c);
  }

  /** Every accepted timestamp is the print of its fields with as many fraction digits as it has. */
  lemma PrintReadTimestamp(t: Text)
    requires Instant(t).Some?
    ensures var f, digits := ReadFields(t), if |t| == 20 then 0 else |t| - 21;
            f.year <= 9999 && Enough(f.millis, digits) && PrintTimestamp(f, digits) == t
  {
    PrintReadSeconds(t);
    PrintReadFraction(t);
    assert t == t[..19] + t[19..|t| - 1] + [t[|t| - 1]];
  }
}
