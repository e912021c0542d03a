/**
 * Timezone-aware UTC datetimes as the handlers see them, with the two renderings the
 * source uses: the `%Y/%m/%d` directory part of a storage path and `isoformat()`.
 */
module UtcTime {

  function Pow10(n: nat): (p: nat)
    ensures p >= 1
  {
    if n == 0 then 1 else 10 * Pow10(n - 1)
  }

  predicate IsLeapYear(y: int) {
    (y % 4 == 0 && y % 100 != 0) || y % 400 == 0
  }

  function DaysInMonth(y: int, m: int): int
    requires 1 <= m <= 12
  {
    if m == 2 then (if IsLeapYear(y) then 29 else 28)
    else if m == 4 || m == 6 || m == 9 || m == 11 then 30
    else 31
  }

  datatype RawInstant = RawInstant(year: int, month: int, day: int,
                                   hour: int, minute: int, second: int, microsecond: int)

  /** The ranges a Python `datetime` enforces on its fields. */
  predicate ValidInstant(t: RawInstant) {
    && 1 <= t.year <= 9999
    && 1 <= t.month <= 12
    && 1 <= t.day <= DaysInMonth(t.year, t.month)
    && 0 <= t.hour < 24 && 0 <= t.minute < 60 && 0 <= t.second < 60
    && 0 <= t.microsecond < 1000000
  }

  /** A moment in UTC. */
  type Instant = t: RawInstant | ValidInstant(t) witness RawInstant(1970, 1, 1, 0, 0, 0, 0)

  predicate IsDigit(c: char) { '0' <= c <= '9' }

  function DigitChar(d: nat): (c: char)
    requires d < 10
    ensures IsDigit(c)
  {
    (d + '0' as int) as char
  }

  /** `n` written in decimal, left-padded with zeros to exactly `width` characters. */
  function Digits(n: nat, width: nat): (s: string)
    requires n < Pow10(width)
    ensures |s| == width && forall i :: 0 <= i < |s| ==> IsDigit(s[i])
  {
    if width == 0 then "" else Digits(n / 10, width - 1) + [DigitChar(n % 10)]
  }

  /** The number a string of decimal digits denotes. */
  function Value(s: string): nat
    requires forall i :: 0 <= i < |s| ==> IsDigit(s[i])
  {
    if s == [] then 0
    else
      assert IsDigit(s[|s| - 1]);
      10 * Value(s[..|s| - 1]) + (s[|s| - 1] as int - '0' as int)
  }

  /** Zero-padded digits have the requested width, are digits, and read back as the number. */
  lemma {:induction false} DigitsRoundTrip(n: nat, width: nat)
    requires n < Pow10(width)
    ensures |Digits(n, width)| == width
    ensures forall i :: 0 <= i < width ==> IsDigit(Digits(n, width)[i])
    ensures Value(Digits(n, width)) == n
  {
    if width > 0 {
      DigitsRoundTrip(n / 10, width - 1);
      var s := Digits(n, width);
      assert s[..|s| - 1] == Digits(n / 10, width - 1);
    }
  }

  /** `strftime("%Y/%m/%d")`: four-digit year, two-digit month and day. */
  function DatePath(t: Instant): (p: string)
    ensures |p| == 10 && p[4] == '/' && p[7] == '/'
  {
    DigitsRoundTrip(t.year, 4);
    DigitsRoundTrip(t.month, 2);
    DigitsRoundTrip(t.day, 2);
    Digits(t.year, 4) + "/" + Digits(t.month, 2) + "/" + Digits(t.day, 2)
  }

  /** Three fields separated by `sep`, as `strftime` writes "%Y-%m-%d" or "%H:%M:%S". */
  function Fields(a: string, sep: char, b: string, c: string): string {
    a + [sep] + b + [sep] + c
  }

  /** Each field sits at its place in `Fields`. */
  lemma FieldsAt(a: string, sep: char, b: string, c: string)
    ensures var s := Fields(a, sep, b, c);
            && |s| == |a| + |b| + |c| + 2
            && s[..|a|] == a && s[|a|] == sep && s[|a| + 1..|a| + 1 + |b|] == b
            && s[|a| + 1 + |b|] == sep && s[|a| + |b| + 2..] == c
  {
    var s := Fields(a, sep, b, c);
    assert s == a + ([sep] + b + [sep] + c);
    assert s == (a + [sep] + b) + ([sep] + c);
  }

  function DateText(t: Instant): string {
    Fields(Digits(t.year, 4), '-', Digits(t.month, 2), Digits(t.day, 2))
  }

  function TimeText(t: Instant): string {
    Fields(Digits(t.hour, 2), ':', Digits(t.minute, 2), Digits(t.second, 2))
  }

  function FractionText(t: Instant): string {
    if t.microsecond == 0 then "" else "." + Digits(t.microsecond, 6)
  }

  /**
   * `isoformat()` of an aware UTC datetime: "YYYY-MM-DDTHH:MM:SS", then ".ffffff" unless the
   * microseconds are zero, then "+00:00".
   */
  function IsoFormat(t: Instant): string {
    DateText(t) + "T" + TimeText(t) + FractionText(t) + "+00:00"
  }

  /** The three fields of `Fields` read back as the numbers written into it. */
  lemma FieldsReadBack(x: nat, wx: nat, sep: char, y: nat, z: nat)
    requires x < Pow10(wx) && y < Pow10(2) && z < Pow10(2)
    ensures var s := Fields(Digits(x, wx), sep, Digits(y, 2), Digits(z, 2));
            && |s| == wx + 6 && s[wx] == sep && s[wx + 3] == sep
            && Value(s[..wx]) == x && Value(s[wx + 1..wx + 3]) == y && Value(s[wx + 4..]) == z
  {
    FieldsAt(Digits(x, wx), sep, Digits(y, 2), Digits(z, 2));
    DigitsRoundTrip(x, wx);
    DigitsRoundTrip(y, 2);
    DigitsRoundTrip(z, 2);
  }

  /** Where the date, the "T", the clock time and the rest sit in `IsoFormat`. */
  lemma IsoFormatParts(t: Instant)
    ensures var s := IsoFormat(t);
            && |s| == 25 + |FractionText(t)|
            && s[..10] == DateText(t) && s[10] == 'T' && s[11..19] == TimeText(t)
            && s[19..] == FractionText(t) + "+00:00"
  {
    var date, time, rest := DateText(t), TimeText(t), FractionText(t) + "+00:00";
    FieldsAt(Digits(t.year, 4), '-', Digits(t.month, 2), Digits(t.day, 2));
    FieldsAt(Digits(t.hour, 2), ':', Digits(t.minute, 2), Digits(t.second, 2));
    assert IsoFormat(t) == date + "T" + time + rest;
  }

  /**
   * The `isoformat()` text has 25 characters, or 32 with microseconds, its separators in
   * fixed places, and ends in "+00:00".
   */
  lemma IsoFormatLayout(t: Instant)
    ensures var s := IsoFormat(t);
            && |s| == (if t.microsecond == 0 then 25 else 32)
            && s[4] == '-' && s[7] == '-' && s[10] == 'T' && s[13] == ':' && s[16] == ':'
            && s[|s| - 6..] == "+00:00"
            && (t.microsecond != 0 ==> s[19] == '.')
  {
    var s := IsoFormat(t);
    IsoFormatParts(t);
    FieldsReadBack(t.year, 4, '-', t.month, t.day);
    FieldsReadBack(t.hour, 2, ':', t.minute, t.second);
    assert s[4] == s[..10][4] && s[7] == s[..10][7];
    assert s[13] == s[11..19][2] && s[16] == s[11..19][5];
    assert s[|s| - 6..] == s[19..][|s| - 25..];
    if t.microsecond != 0 {
      assert s[19] == s[19..][0];
    }
  }

  /** The date fields of the `isoformat()` text read back as year, month and day. */
  lemma IsoDateReadsBack(t: Instant)
    ensures var s := IsoFormat(t);
            && |s| >= 25
            && Value(s[..4]) == t.year && Value(s[5..7]) == t.month && Value(s[8..10]) == t.day
  {
    var s := IsoFormat(t);
    IsoFormatParts(t);
    FieldsReadBack(t.year, 4, '-', t.month, t.day);
    var date := s[..10];
    assert s[..4] == date[..4] && s[5..7] == date[5..7] && s[8..10] == date[8..];
  }

  /** The clock fields of the `isoformat()` text read back as hour, minute and second. */
  lemma IsoTimeReadsBack(t: Instant)
    ensures var s := IsoFormat(t);
            && |s| >= 25
            && Value(s[11..13]) == t.hour && Value(s[14..16]) == t.minute && Value(s[17..19]) == t.second
  {
    var s := IsoFormat(t);
    IsoFormatParts(t);
    FieldsReadBack(t.hour, 2, ':', t.minute, t.second);
    var time := s[11..19];
    assert s[11..13] == time[..2] && s[14..16] == time[3..5] && s[17..19] == time[6..];
  }

  /** Each field of the `isoformat()` text reads back as the instant's value. */
  lemma IsoFormatReadsBack(t: Instant)
    ensures var s := IsoFormat(t);
            && |s| >= 25
            && Value(s[..4]) == t.year && Value(s[5..7]) == t.month && Value(s[8..10]) == t.day
            && Value(s[11..13]) == t.hour && Value(s[14..16]) == t.minute && Value(s[17..19]) == t.second
            && (t.microsecond != 0 ==> |s| == 32 && Value(s[20..26]) == t.microsecond)
  {
    IsoDateReadsBack(t);
    IsoTimeReadsBack(t);
    if t.microsecond != 0 {
      var s := IsoFormat(t);
      IsoFormatParts(t);
      assert s[20..26] == s[19..][1..7] == Digits(t.microsecond, 6);
      DigitsRoundTrip(t.microsecond, 6);
    }
  }
}
