/** The two timestamp formats devices use: YYMMDDhhmmss numbers and ISO text, as civil date-times. */
module Timestamps {
  import opened Text

  predicate LeapYear(year: int) {
    year % 4 == 0 && (year % 100 != 0 || year % 400 == 0)
  }

  function DaysIn(month: int, year: int): int {
    if month == 2 then if LeapYear(year) then 29 else 28
    else if month in {4, 6, 9, 11} then 30
    else 31
  }

  datatype Civil = Civil(year: int, month: int, day: int, hour: int, minute: int, second: int, nanos: nat)
  {
    predicate Valid() {
      && 1 <= month <= 12
      && 1 <= day <= DaysIn(month, year)
      && 0 <= hour < 24
      && 0 <= minute < 60
      && 0 <= second < 60
    }

    /** Chronological order of two civil date-times. */
    predicate Before(other: Civil) {
      if year != other.year then year < other.year
      else if month != other.month then month < other.month
      else if day != other.day then day < other.day
      else if hour != other.hour then hour < other.hour
      else if minute != other.minute then minute < other.minute
      else if second != other.second then second < other.second
      else nanos < other.nanos
    }
  }

  /** What parsing yields: the zero time, a date-time, or an error. */
  datatype Parsed = Never | At(civil: Civil) | Malformed

  function Checked(c: Civil): Parsed {
    if c.Valid() then At(c) else Malformed
  }

  // ---- the compact number ----

  function Zeros(k: nat): (s: string)
    ensures |s| == k && AllDigits(s)
  {
    if k == 0 then "" else "0" + Zeros(k - 1)
  }

  function Padded(s: string): string {
    if |s| < 12 then Zeros(12 - |s|) + s else s
  }

  function Two(s: string, i: nat): (t: nat)
    requires i + 2 <= |s| && AllDigits(s)
    ensures t < 100
  {
    10 * DigitValue(s[i]) + DigitValue(s[i + 1])
  }

  /** Go's reading of the two-digit year: 69 to 99 are the last century. */
  function FullYear(yy: nat): int {
    if yy >= 69 then 1900 + yy else 2000 + yy
  }

  function ParseTwelve(s: string): Parsed
    requires |s| == 12 && AllDigits(s)
  {
    Checked(Civil(FullYear(Two(s, 0)), Two(s, 2), Two(s, 4), Two(s, 6), Two(s, 8), Two(s, 10), 0))
  }

  lemma PaddedDigits(n: nat)
    ensures AllDigits(Padded(Decimal(n)))
  {
  }

  function ParseCompact(n: real): Parsed {
    if n <= 0.0 then Never
    else
      var s := Padded(Decimal(n.Floor));
      if |s| != 12 then Malformed else PaddedDigits(n.Floor); ParseTwelve(s)
  }

  /** The program's own form: the loop that puts zeros in front. */
  method ParseCompactTimestamp(n: real) returns (r: Parsed)
    ensures r == ParseCompact(n)
  {
    if n <= 0.0 {
      return Never;
    }
    var digits := Decimal(n.Floor);
    var s := digits;
    ghost var k: nat := 0;
    while |s| < 12
      invariant s == Zeros(k) + digits
      invariant k > 0 ==> |s| <= 12
      decreases 12 - |s|
    {
      s, k := "0" + s, k + 1;
      assert s == Zeros(k) + digits;
    }
    assert s == Padded(digits);
    if |s| != 12 {
      return Malformed;
    }
    r := ParseTwelve(s);
  }

  /** The number a device sends for a civil date-time. */
  function CompactNumber(c: Civil): int {
    ((((c.year % 100 * 100 + c.month) * 100 + c.day) * 100 + c.hour) * 100 + c.minute) * 100 + c.second
  }

  lemma {:induction false} ZerosAtEnd(k: nat)
    ensures Zeros(k + 1) == Zeros(k) + "0"
  {
    if k > 0 { ZerosAtEnd(k - 1); }
  }

  lemma {:induction false} ValueOfZeros(k: nat, s: string)
    requires AllDigits(s)
    ensures Value(Zeros(k) + s) == Value(s)
    decreases k + |s|
  {
    if s != [] {
      ValueOfZeros(k, s[..|s| - 1]);
      assert (Zeros(k) + s)[..k + |s| - 1] == Zeros(k) + s[..|s| - 1];
    } else if k > 0 {
      ZerosAtEnd(k - 1);
      ValueOfZeros(k - 1, "");
      assert Zeros(k)[..k - 1] == Zeros(k - 1);
      assert Zeros(k) + s == Zeros(k) && Zeros(k - 1) + s == Zeros(k - 1);
    }
  }

  lemma TenToTheTwelfth()
    ensures Pow10(12) == 1_000_000_000_000
  {
  }

  /** Padding gives exactly twelve digits below 10^12 and never changes the number. */
  lemma PaddingExact(n: nat)
    ensures |Padded(Decimal(n))| == 12 <==> n < 1_000_000_000_000
    ensures Value(Padded(Decimal(n))) == n
  {
    hide Value, Decimal, Pow10, AllDigits;
    DecimalLength(n, 12);
    TenToTheTwelfth();
    DecimalRoundTrip(n);
    ValueOfZeros(if |Decimal(n)| < 12 then 12 - |Decimal(n)| else 0, Decimal(n));
    assert Zeros(0) + Decimal(n) == Decimal(n);
  }

  /** Reading off two more digits of a numeral is a step in base 100. */
  lemma TwoMore(s: string, k: nat)
    requires 2 <= k <= |s| && AllDigits(s)
    ensures Value(s[..k]) == 100 * Value(s[..k - 2]) + Two(s, k - 2)
  {
    assert s[..k][..k - 1] == s[..k - 1] && s[..k - 1][..k - 2] == s[..k - 2];
  }

  /** The six two-digit groups are the base-100 digits of the number. */
  lemma TwelveDigits(s: string)
    requires |s| == 12 && AllDigits(s)
    ensures Value(s) == ((((Two(s, 0) * 100 + Two(s, 2)) * 100 + Two(s, 4)) * 100 + Two(s, 6)) * 100
                         + Two(s, 8)) * 100 + Two(s, 10)
  {
    assert s[..12] == s && Value(s[..0]) == 0;
    hide Value, Two, AllDigits;
    TwoMore(s, 12);
    TwoMore(s, 10);
    TwoMore(s, 8);
    TwoMore(s, 6);
    TwoMore(s, 4);
    TwoMore(s, 2);
  }

  lemma ShortYear(yy: nat)
    requires yy < 100
    ensures 1969 <= FullYear(yy) <= 2068 && FullYear(yy) % 100 == yy
  {
  }

  /** Twelve digits are read as the date-time whose number they spell. */
  lemma TwelveMean(s: string)
    requires |s| == 12 && AllDigits(s)
    ensures ParseTwelve(s).At? ==>
              var c := ParseTwelve(s).civil;
              c.Valid() && 1969 <= c.year <= 2068 && c.nanos == 0 && CompactNumber(c) == Value(s)
    ensures !ParseTwelve(s).Never?
  {
    hide Value, Two, AllDigits;
    TwelveDigits(s);
    ShortYear(Two(s, 0));
    hide FullYear;
  }

  /** Exactly what the compact parser accepts, and what it returns. */
  lemma CompactAccepts(n: real)
    ensures ParseCompact(n).Never? <==> n <= 0.0
    ensures ParseCompact(n).At? ==>
              var c := ParseCompact(n).civil;
              c.Valid() && 1969 <= c.year <= 2068 && c.nanos == 0 && n > 0.0 && CompactNumber(c) == n.Floor
  {
    if n > 0.0 {
      PaddingExact(n.Floor);
      var s := Padded(Decimal(n.Floor));
      PaddedDigits(n.Floor);
      hide Padded, Value, CompactNumber, Decimal, AllDigits, Zeros;
      if |s| == 12 {
        TwelveMean(s);
      }
    }
  }

  /** Base-100 numerals compare digit by digit. */
  lemma Base100(a: int, b: int, c: int, d: int)
    requires 0 <= b < 100 && 0 <= d < 100
    ensures a * 100 + b == c * 100 + d <==> a == c && b == d
    ensures a * 100 + b < c * 100 + d <==> a < c || (a == c && b < d)
  {
  }

  lemma YearBack(year: int)
    requires 1969 <= year <= 2068
    ensures FullYear(year % 100) == year
  {
  }

  /** Sending any date-time from 1969 to 2068 as a number and parsing it gives it back. */
  lemma CompactRoundTrip(c: Civil)
    requires c.Valid() && 1969 <= c.year <= 2068 && c.nanos == 0
    ensures ParseCompact(CompactNumber(c) as real) == At(c)
  {
    var n := CompactNumber(c);
    PaddingExact(n);
    var s := Padded(Decimal(n));
    PaddedDigits(n);
    TwelveDigits(s);
    hide Value, Decimal, Padded, Zeros, FullYear;
    YearBack(c.year);
    var yy := c.year % 100;
    var d1 := yy * 100 + c.month;
    var d2 := d1 * 100 + c.day;
    var d3 := d2 * 100 + c.hour;
    var d4 := d3 * 100 + c.minute;
    var e1 := Two(s, 0) * 100 + Two(s, 2);
    var e2 := e1 * 100 + Two(s, 4);
    var e3 := e2 * 100 + Two(s, 6);
    var e4 := e3 * 100 + Two(s, 8);
    Base100(e4, Two(s, 10), d4, c.second);
    Base100(e3, Two(s, 8), d3, c.minute);
    Base100(e2, Two(s, 6), d2, c.hour);
    Base100(e1, Two(s, 4), d1, c.day);
    Base100(Two(s, 0), Two(s, 2), yy, c.month);
  }

  /** Two different accepted whole numbers never mean the same moment. */
  lemma CompactInjective(m: int, n: int)
    requires ParseCompact(m as real).At? && ParseCompact(m as real) == ParseCompact(n as real)
    ensures m == n
  {
    CompactAccepts(m as real);
    CompactAccepts(n as real);
  }

  lemma BelowSixtyNine(n: int, c: Civil)
    requires c.Valid() && 1969 <= c.year <= 2068 && CompactNumber(c) == n < 690_000_000_000
    ensures 2000 <= c.year
  {
  }

  lemma NumberOrder(c: Civil, d: Civil)
    requires c.Valid() && d.Valid() && 2000 <= c.year < 2069 && 2000 <= d.year < 2069 && c.nanos == d.nanos == 0
    ensures CompactNumber(c) < CompactNumber(d) <==> c.Before(d)
  {
    var c1, d1 := c.year % 100 * 100 + c.month, d.year % 100 * 100 + d.month;
    var c2, d2 := c1 * 100 + c.day, d1 * 100 + d.day;
    var c3, d3 := c2 * 100 + c.hour, d2 * 100 + d.hour;
    var c4, d4 := c3 * 100 + c.minute, d3 * 100 + d.minute;
    assert c.year == 2000 + c.year % 100 && d.year == 2000 + d.year % 100;
    Base100(c.year % 100, c.month, d.year % 100, d.month);
    Base100(c1, c.day, d1, d.day);
    Base100(c2, c.hour, d2, d.hour);
    Base100(c3, c.minute, d3, d.minute);
    Base100(c4, c.second, d4, d.second);
  }

  /** Below two-digit year 69 a larger number is a later moment, and conversely. */
  lemma CompactMonotone(m: int, n: int)
    requires ParseCompact(m as real).At? && ParseCompact(n as real).At?
    requires m < 690_000_000_000 && n < 690_000_000_000
    ensures m < n <==> ParseCompact(m as real).civil.Before(ParseCompact(n as real).civil)
  {
    CompactAccepts(m as real);
    CompactAccepts(n as real);
    var c, d := ParseCompact(m as real).civil, ParseCompact(n as real).civil;
    BelowSixtyNine(m, c);
    BelowSixtyNine(n, d);
    NumberOrder(c, d);
  }

  // ---- ISO text ----

  predicate DigitAt(s: string, i: nat) {
    i < |s| && IsDigit(s[i])
  }

  predicate TwoAt(s: string, i: nat) {
    DigitAt(s, i) && DigitAt(s, i + 1)
  }

  function TwoDigits(s: string, i: nat): nat
    requires TwoAt(s, i)
  {
    10 * DigitValue(s[i]) + DigitValue(s[i + 1])
  }

  /** Nanoseconds from the digits after the decimal mark; digits past the ninth are dropped. */
  function Nanos(digits: string): nat
    requires AllDigits(digits)
  {
    if |digits| >= 9 then Value(digits[..9]) else Value(digits) * Pow10(9 - |digits|)
  }

  /** The fraction Go tolerates after the seconds although the layout has none. */
  predicate IsFraction(s: string) {
    |s| >= 2 && s[0] in {'.', ','} && AllDigits(s[1..])
  }

  /** ":mm:ss" and an optional fraction, once the date and the hour have been read. */
  function ParseClock(date: Civil, s: string): Parsed {
    if |s| < 6 || s[0] != ':' || !TwoAt(s, 1) || s[3] != ':' || !TwoAt(s, 4) then Malformed
    else if |s| > 6 && !IsFraction(s[6..]) then Malformed
    else
      Checked(date.(minute := TwoDigits(s, 1), second := TwoDigits(s, 4),
                    nanos := if |s| == 6 then 0 else Nanos(s[7..])))
  }

  /** time.ParseInLocation("2006-01-02T15:04:05", s); the hour may have one digit. */
  function ParseISO(s: string): Parsed {
    if s == "" then Never
    else if |s| < 12 || !TwoAt(s, 0) || !TwoAt(s, 2) || s[4] != '-' || !TwoAt(s, 5) || s[7] != '-'
         || !TwoAt(s, 8) || s[10] != 'T' || !DigitAt(s, 11) then Malformed
    else
      var date := Civil(100 * TwoDigits(s, 0) + TwoDigits(s, 2), TwoDigits(s, 5), TwoDigits(s, 8), 0, 0, 0, 0);
      if DigitAt(s, 12) then ParseClock(date.(hour := TwoDigits(s, 11)), s[13..])
      else ParseClock(date.(hour := DigitValue(s[11])), s[12..])
  }

  function TwoText(n: int): string
    requires 0 <= n < 100
  {
    [DigitChar(n / 10), DigitChar(n % 10)]
  }

  /** How v2 devices write a date-time. */
  function FormatISO(c: Civil): string
    requires c.Valid() && 0 <= c.year < 10000
  {
    TwoText(c.year / 100) + TwoText(c.year % 100) + "-" + TwoText(c.month) + "-" + TwoText(c.day) + "T"
    + TwoText(c.hour) + ":" + TwoText(c.minute) + ":" + TwoText(c.second)
  }

  lemma ISORoundTrip(c: Civil)
    requires c.Valid() && 0 <= c.year < 10000 && c.nanos == 0
    ensures ParseISO(FormatISO(c)) == At(c)
  {
  }

  /** Both API generations mean the same moment by the same reading. */
  lemma FormatsAgree(c: Civil)
    requires c.Valid() && 1969 <= c.year <= 2068 && c.nanos == 0
    ensures ParseCompact(CompactNumber(c) as real) == ParseISO(FormatISO(c)) == At(c)
  {
    CompactRoundTrip(c);
    ISORoundTrip(c);
  }

  /** Whatever the ISO parser accepts is a real date-time. */
  lemma ISOAccepts(s: string)
    ensures ParseISO(s).Never? <==> s == ""
    ensures ParseISO(s).At? ==> ParseISO(s).civil.Valid() && 0 <= ParseISO(s).civil.year < 10000
  {
  }

  // ---- the calendar and the two notations, written out ----

  /** A date-time of the Gregorian calendar, to the second. */
  lemma CalendarMeans(c: Civil)
    ensures c.Valid() <==>
            && 1 <= c.day && 0 <= c.hour <= 23 && 0 <= c.minute <= 59 && 0 <= c.second <= 59
            && (|| (c.month in {1, 3, 5, 7, 8, 10, 12} && c.day <= 31)
                || (c.month in {4, 6, 9, 11} && c.day <= 30)
                || (c.month == 2 && c.day <= 28)
                || (c.month == 2 && c.day == 29 && c.year % 4 == 0 && (c.year % 100 != 0 || c.year % 400 == 0)))
  {
  }

  /** YYMMDDhhmmss: two decimal digits for each part. */
  lemma CompactNotation(c: Civil)
    ensures CompactNumber(c) == c.year % 100 * 10_000_000_000 + c.month * 100_000_000 + c.day * 1_000_000
                                + c.hour * 10_000 + c.minute * 100 + c.second
  {
  }

  /** YYYY-MM-DDThh:mm:ss */
  lemma ISONotation(c: Civil)
    requires c.Valid() && 0 <= c.year < 10000
    ensures var s := FormatISO(c);
            && |s| == 19 && s[4] == '-' && s[7] == '-' && s[10] == 'T' && s[13] == ':' && s[16] == ':'
            && s[0] == DigitChar(c.year / 1000) && s[1] == DigitChar(c.year / 100 % 10)
            && s[2] == DigitChar(c.year % 100 / 10) && s[3] == DigitChar(c.year % 10)
            && s[5] == DigitChar(c.month / 10) && s[6] == DigitChar(c.month % 10)
            && s[8] == DigitChar(c.day / 10) && s[9] == DigitChar(c.day % 10)
            && s[11] == DigitChar(c.hour / 10) && s[12] == DigitChar(c.hour % 10)
            && s[14] == DigitChar(c.minute / 10) && s[15] == DigitChar(c.minute % 10)
            && s[17] == DigitChar(c.second / 10) && s[18] == DigitChar(c.second % 10)
  {
    assert c.year / 100 / 10 == c.year / 1000 && c.year % 100 % 10 == c.year % 10;
    hide DaysIn, DigitChar;
  }
}
