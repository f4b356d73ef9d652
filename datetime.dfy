/**
 * `DateTimeHelper::getDateTime` as a pure function of the broken-down local
 * time, together with a reader that recovers the fields from the text, which
 * shows that the format loses nothing.
 */
module DateTimeHelper {
  import opened Wrappers

  /** The fields of `struct tm` that the date-time text is built from (`tm_year`, `tm_mon`, ...). */
  datatype Tm = Tm(year: int, mon: int, mday: int, hour: int, min: int, sec: int)

  /** A value of a C `int`. */
  predicate IsInt32(x: int) {
    -0x8000_0000 <= x < 0x8000_0000
  }

  /** Every field is a C `int`, and adding 1900 to the year and 1 to the month does not overflow. */
  predicate ValidTm(t: Tm) {
    IsInt32(t.year) && IsInt32(t.mon) && IsInt32(t.mday) &&
    IsInt32(t.hour) && IsInt32(t.min) && IsInt32(t.sec) &&
    IsInt32(t.year + 1900) && IsInt32(t.mon + 1)
  }

  predicate IsDigit(c: char) {
    '0' <= c <= '9'
  }

  predicate AllDigits(s: string) {
    forall i :: 0 <= i < |s| ==> IsDigit(s[i])
  }

  function DigitChar(d: nat): (c: char)
    requires d < 10
    ensures IsDigit(c)
  {
    ('0' as int + d) as char
  }

  function DigitValue(c: char): (d: nat)
    requires IsDigit(c)
    ensures d < 10
  {
    c as int - '0' as int
  }

  /**
   * The decimal digits of n, most significant first: how a stream prints a
   * non-negative `int`.  Nothing is padded, so only 0 itself starts with '0'.
   */
  function NatToString(n: nat): (s: string)
    ensures |s| > 0 && AllDigits(s)
    ensures n > 0 ==> s[0] != '0'
  {
    if n < 10 then [DigitChar(n)] else NatToString(n / 10) + [DigitChar(n % 10)]
  }

  /** How a stream prints an `int`: a minus sign for negative values, then the digits. */
  function IntToString(x: int): string {
    if x < 0 then "-" + NatToString(-x) else NatToString(x)
  }

  /**
   * `getDateTime`: the year plus 1900, the month plus 1, the day of the month,
   * the hour, the minute and the second, each in unpadded decimal, laid out as
   * `Y-M-D H:M:S`.
   */
  function GetDateTime(now: Tm): string
    requires ValidTm(now)
  {
    // grouped from the right; the stream appends the same pieces left to right
    IntToString(now.year + 1900) + "-" + (IntToString(now.mon + 1) + "-" + (IntToString(now.mday) + " " +
    (IntToString(now.hour) + ":" + (IntToString(now.min) + ":" + IntToString(now.sec)))))
  }

  // ---------------------------------------------------------------------------
  // Reading the text back

  /** The number a string of digits denotes. */
  function DigitsValue(s: string): nat
    requires AllDigits(s)
  {
    if s == [] then 0 else DigitsValue(s[..|s| - 1]) * 10 + DigitValue(s[|s| - 1])
  }

  /** The length of the longest prefix of s made of digits. */
  function DigitRun(s: string): (k: nat)
    ensures k <= |s| && AllDigits(s[..k])
    ensures k == |s| || !IsDigit(s[k])
  {
    if s == [] || !IsDigit(s[0]) then 0
    else
      var k := 1 + DigitRun(s[1..]);
      assert s[..k] == [s[0]] + s[1..][..k - 1];
      k
  }

  /** Reads an optionally negative decimal integer at the start of s; returns it and the rest. */
  function ReadInt(s: string): Option<(int, string)> {
    if |s| > 0 && s[0] == '-' then
      var k := DigitRun(s[1..]);
      var v: int := DigitsValue(s[1..][..k]);
      if k == 0 then None else Some((-v, s[1..][k..]))
    else
      var k := DigitRun(s);
      if k == 0 then None else Some((DigitsValue(s[..k]), s[k..]))
  }

  /** Reads an integer followed by the separator sep. */
  function ReadField(s: string, sep: char): Option<(int, string)> {
    var (v, r) :- ReadInt(s);
    if |r| > 0 && r[0] == sep then Some((v, r[1..])) else None
  }

  /** Recovers the `struct tm` fields from a date-time text; None if s is not one. */
  function ParseDateTime(s: string): Option<Tm> {
    var (y, r1) :- ReadField(s, '-');
    var (mo, r2) :- ReadField(r1, '-');
    var (d, r3) :- ReadField(r2, ' ');
    var (h, r4) :- ReadField(r3, ':');
    var (mi, r5) :- ReadField(r4, ':');
    var (se, r6) :- ReadInt(r5);
    if r6 == [] then Some(Tm(y - 1900, mo - 1, d, h, mi, se)) else None
  }

  lemma {:induction false} DigitsValueOfNatToString(n: nat)
    ensures DigitsValue(NatToString(n)) == n
  {
    if n >= 10 {
      var s := NatToString(n / 10);
      var t := s + [DigitChar(n % 10)];
      assert t[..|t| - 1] == s;
      DigitsValueOfNatToString(n / 10);
    }
  }

  lemma {:induction false} DigitRunOf(d: string, rest: string)
    requires AllDigits(d)
    requires rest == [] || !IsDigit(rest[0])
    ensures DigitRun(d + rest) == |d|
  {
    if d != [] {
      assert (d + rest)[1..] == d[1..] + rest;
      DigitRunOf(d[1..], rest);
    }
  }

  lemma ReadDigits(d: string, rest: string)
    requires |d| > 0 && AllDigits(d)
    requires rest == [] || !IsDigit(rest[0])
    ensures var k := DigitRun(d + rest); k == |d| && (d + rest)[..k] == d && (d + rest)[k..] == rest
  {
    DigitRunOf(d, rest);
    assert (d + rest)[..|d|] == d;
    assert (d + rest)[|d|..] == rest;
  }

  lemma ReadNegative(n: nat, rest: string)
    requires n > 0
    requires rest == [] || !IsDigit(rest[0])
    ensures ReadInt("-" + NatToString(n) + rest) == Some((-(n as int), rest))
  {
    var d := NatToString(n);
    var s := "-" + d + rest;
    assert s[1..] == d + rest;
    ReadDigits(d, rest);
    DigitsValueOfNatToString(n);
    assert DigitsValue(s[1..][..DigitRun(s[1..])]) == n;
  }

  lemma ReadNonNegative(n: nat, rest: string)
    requires rest == [] || !IsDigit(rest[0])
    ensures ReadInt(NatToString(n) + rest) == Some((n, rest))
  {
    var d := NatToString(n);
    assert IsDigit((d + rest)[0]);
    ReadDigits(d, rest);
    DigitsValueOfNatToString(n);
  }

  /**
   * A printed integer followed by rest reads back as itself and rest exactly
   * when no digit follows it.
   */
  lemma ReadIntOfIntToString(x: int, rest: string)
    ensures ReadInt(IntToString(x) + rest) == Some((x, rest)) <==> rest == [] || !IsDigit(rest[0])
  {
    if rest == [] || !IsDigit(rest[0]) {
      if x < 0 {
        ReadNegative(-x, rest);
      } else {
        ReadNonNegative(x, rest);
      }
    }
  }

  lemma ReadFieldOf(x: int, sep: char, rest: string)
    requires !IsDigit(sep)
    ensures ReadField(IntToString(x) + [sep] + rest, sep) == Some((x, rest))
  {
    assert IntToString(x) + [sep] + rest == IntToString(x) + ([sep] + rest);
    ReadIntOfIntToString(x, [sep] + rest);
  }

  /** The date-time text determines every field it was made from. */
  /** The date-time text splits into each field, its separator and the text after it. */
  lemma DateTimeLayout(now: Tm) returns (r1: string, r2: string, r3: string, r4: string, r5: string)
    requires ValidTm(now)
    ensures GetDateTime(now) == IntToString(now.year + 1900) + ['-'] + r1
    ensures r1 == IntToString(now.mon + 1) + ['-'] + r2
    ensures r2 == IntToString(now.mday) + [' '] + r3
    ensures r3 == IntToString(now.hour) + [':'] + r4
    ensures r4 == IntToString(now.min) + [':'] + r5
    ensures r5 == IntToString(now.sec)
  {
    r5 := IntToString(now.sec);
    r4 := IntToString(now.min) + [':'] + r5;
    r3 := IntToString(now.hour) + [':'] + r4;
    r2 := IntToString(now.mday) + [' '] + r3;
    r1 := IntToString(now.mon + 1) + ['-'] + r2;
  }

  lemma DateTimeRoundTrip(now: Tm)
    requires ValidTm(now)
    ensures ParseDateTime(GetDateTime(now)) == Some(now)
  {
    var r1, r2, r3, r4, r5 := DateTimeLayout(now);
    ReadFieldOf(now.year + 1900, '-', r1);
    ReadFieldOf(now.mon + 1, '-', r2);
    ReadFieldOf(now.mday, ' ', r3);
    ReadFieldOf(now.hour, ':', r4);
    ReadFieldOf(now.min, ':', r5);
    ReadIntOfIntToString(now.sec, []);
    assert r5 + [] == r5;
  }

  /** Two instants with different fields never print the same date-time text. */
  lemma DateTimeInjective(a: Tm, b: Tm)
    requires ValidTm(a) && ValidTm(b)
    ensures GetDateTime(a) == GetDateTime(b) <==> a == b
  {
    DateTimeRoundTrip(a);
    DateTimeRoundTrip(b);
  }
}
