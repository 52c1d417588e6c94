/**
 * Instants and their text. Go compares instants; the browser compares what Go wrote: RFC 3339 in
 * UTC with the fraction's trailing zeros trimmed (sections 5.1 and 5.6 of RFC 3339). The two agree.
 */
module Timestamps {
  import opened Wrappers
  import opened Ordering

  datatype Instant = Instant(year: nat, month: nat, day: nat, hour: nat, minute: nat, second: nat, nano: nat)

  predicate IsLeap(y: nat) { y % 4 == 0 && (y % 100 != 0 || y % 400 == 0) }

  function DaysIn(y: nat, m: nat): nat {
    if m == 2 then (if IsLeap(y) then 29 else 28)
    else if m == 4 || m == 6 || m == 9 || m == 11 then 30
    else 31
  }

  /** A UTC civil time in the years 0000 to 9999, to the nanosecond. */
  predicate Valid(t: Instant) {
    && t.year <= 9999 && 1 <= t.month <= 12 && 1 <= t.day <= DaysIn(t.year, t.month)
    && t.hour <= 23 && t.minute <= 59 && t.second <= 59 && t.nano <= 999_999_999
  }

  // ---- the instant as a number ----

  function DaysBeforeMonth(y: nat, m: nat): nat {
    if m <= 1 then 0 else DaysBeforeMonth(y, m - 1) + DaysIn(y, m - 1)
  }

  function DaysBeforeYear(y: nat): nat {
    if y == 0 then 0 else DaysBeforeYear(y - 1) + DaysBeforeMonth(y - 1, 13)
  }

  /** Days since the first of January of year 0. */
  function DayNumber(t: Instant): int { DaysBeforeYear(t.year) + DaysBeforeMonth(t.year, t.month) + t.day - 1 }

  function SecondOfDay(t: Instant): int { t.hour * 3600 + t.minute * 60 + t.second }

  /** Nanoseconds since then. */
  function Nanos(t: Instant): int { (DayNumber(t) * 86400 + SecondOfDay(t)) * 1_000_000_000 + t.nano }

  function Sign(n: int): int { if n < 0 then -1 else if n > 0 then 1 else 0 }

  // ---- its text ----

  function Digit(d: nat): char
    requires d < 10
  {
    ('0' as int + d) as char
  }

  predicate IsDigit(c: char) { '0' <= c <= '9' }

  /** n in w decimal digits, zeros in front. */
  function Pad(n: nat, w: nat): (s: string)
    ensures |s| == w && forall i :: 0 <= i < |s| ==> IsDigit(s[i])
  {
    if w == 0 then "" else Pad(n / 10, w - 1) + [Digit(n % 10)]
  }

  predicate AllZeros(s: string) { forall i :: 0 <= i < |s| ==> s[i] == '0' }

  /** s without its trailing zeros. */
  function Trim(s: string): (r: string)
    ensures |r| <= |s| && forall i :: 0 <= i < |r| ==> r[i] == s[i]
  {
    if s == "" then "" else if AllZeros(s) then "" else [s[0]] + Trim(s[1..])
  }

  /** Exactly the trailing zeros go. */
  lemma {:induction false} TrimExact(s: string)
    ensures Trim(s) != "" ==> Trim(s)[|Trim(s)| - 1] != '0'
    ensures AllZeros(s[|Trim(s)|..])
  {
    if s != "" && !AllZeros(s) {
      TrimExact(s[1..]);
      var r := Trim(s[1..]);
      assert s[|Trim(s)|..] == s[1..][|r|..];
      if r == "" { assert s[1..][0..] == s[1..]; assert s == [s[0]] + s[1..]; }
    }
  }

  function DateText(t: Instant): string { Pad(t.year, 4) + "-" + Pad(t.month, 2) + "-" + Pad(t.day, 2) }

  function TimeText(t: Instant): string { Pad(t.hour, 2) + ":" + Pad(t.minute, 2) + ":" + Pad(t.second, 2) }

  function SecondText(t: Instant): string { DateText(t) + "T" + TimeText(t) }

  function FractionText(t: Instant): string { Trim(Pad(t.nano, 9)) }

  function Text(t: Instant): string {
    SecondText(t) + (if FractionText(t) == "" then "" else "." + FractionText(t)) + "Z"
  }

  // ---- the browser's comparison ----

  /** The fixed-width half of the pattern: yyyy-mm-ddThh:mm:ss. */
  predicate SecondShape(s: string) {
    && |s| == 19
    && s[4] == '-' && s[7] == '-' && s[10] == 'T' && s[13] == ':' && s[16] == ':'
    && forall i :: 0 <= i < 19 && i !in {4, 7, 10, 13, 16} ==> IsDigit(s[i])
  }

  /** The two groups the pattern captures, if the whole string matches it. */
  function Match(s: string): Option<(string, string)> {
    if |s| < 20 || !SecondShape(s[..19]) || s[|s| - 1] != 'Z' then None
    else if |s| == 20 then Some((s[..19], ""))
    else if s[19] == '.' && |s| >= 22 &&
      (forall i :: 20 <= i < |s| - 1 ==> IsDigit(s[i])) then Some((s[..19], s[20..|s| - 1]))
    else None
  }

  function CompareText(a: string, b: string): int {
    if a == b then 0 else if Less(a, b) then -1 else 1
  }

  function CompareAt(a: string, b: string): int {
    var ma, mb := Match(a), Match(b);
    if ma.None? || mb.None? then 0
    else if ma.value.0 != mb.value.0 then CompareText(ma.value.0, mb.value.0)
    else CompareText(ma.value.1, mb.value.1)
  }

  // ---- digit strings compare as numbers ----

  lemma {:induction false} LessByParts(a: string, b: string, c: string, d: string)
    requires |a| == |b|
    ensures Less(a + c, b + d) <==> Less(a, b) || (a == b && Less(c, d))
  {
    if a == [] {
      assert a + c == c && b + d == d;
    } else {
      assert (a + c)[1..] == a[1..] + c && (b + d)[1..] == b[1..] + d;
      LessByParts(a[1..], b[1..], c, d);
      assert a == [a[0]] + a[1..] && b == [b[0]] + b[1..];
    }
  }

  function Pow10(w: nat): nat { if w == 0 then 1 else 10 * Pow10(w - 1) }

  lemma {:induction false} PadCompares(n: nat, m: nat, w: nat)
    requires n < Pow10(w) && m < Pow10(w)
    ensures Less(Pad(n, w), Pad(m, w)) <==> n < m
    ensures Pad(n, w) == Pad(m, w) <==> n == m
  {
    if w > 0 {
      PadCompares(n / 10, m / 10, w - 1);
      var x, y := [Digit(n % 10)], [Digit(m % 10)];
      LessByParts(Pad(n / 10, w - 1), Pad(m / 10, w - 1), x, y);
      assert Less(x, y) <==> n % 10 < m % 10;
      if Pad(n, w) == Pad(m, w) {
        assert Pad(n, w)[..w - 1] == Pad(n / 10, w - 1) && Pad(m, w)[..w - 1] == Pad(m / 10, w - 1);
        assert Pad(n, w)[w - 1] == Digit(n % 10) && Pad(m, w)[w - 1] == Digit(m % 10);
      }
    }
  }

  /** Trimming changes the order of no two digit strings of one length. */
  lemma {:induction false} TrimCompares(x: string, y: string)
    requires |x| == |y| && (forall i :: 0 <= i < |x| ==> IsDigit(x[i]) && IsDigit(y[i]))
    ensures Less(Trim(x), Trim(y)) <==> Less(x, y)
    ensures Trim(x) == Trim(y) <==> x == y
  {
    if x != "" {
      if AllZeros(x) && AllZeros(y) {
        assert x == y;
        LessIrreflexive(x);
      } else if AllZeros(x) {
        ZerosFirst(x, y);
      } else if AllZeros(y) {
        ZerosFirst(y, x);
        LessAsymmetric(y, x);
      } else {
        TrimCompares(x[1..], y[1..]);
        assert Trim(x)[1..] == Trim(x[1..]) && Trim(y)[1..] == Trim(y[1..]);
        assert x == [x[0]] + x[1..] && y == [y[0]] + y[1..];
        assert Trim(x) == [x[0]] + Trim(x[1..]) && Trim(y) == [y[0]] + Trim(y[1..]);
      }
    }
  }

  lemma {:induction false} ZerosFirst(x: string, y: string)
    requires |x| == |y| && AllZeros(x) && !AllZeros(y) && forall i :: 0 <= i < |y| ==> IsDigit(y[i])
    ensures Less(x, y) && x != y
  {
    if y[0] == '0' {
      assert y == [y[0]] + y[1..];
      ZerosFirst(x[1..], y[1..]);
    }
  }

  // ---- civil order is chronological order ----

  lemma {:induction false} MonthsAddUp(y: nat, m: nat, n: nat)
    requires 1 <= m < n
    ensures DaysBeforeMonth(y, m) + DaysIn(y, m) <= DaysBeforeMonth(y, n)
  {
    if n > m + 1 { MonthsAddUp(y, m, n - 1); }
  }

  lemma {:induction false} YearsAddUp(y: nat, z: nat)
    requires y < z
    ensures DaysBeforeYear(y) + DaysBeforeMonth(y, 13) <= DaysBeforeYear(z)
  {
    if z > y + 1 { YearsAddUp(y, z - 1); }
  }

  predicate EarlierDate(a: Instant, b: Instant) {
    a.year < b.year || (a.year == b.year && (a.month < b.month || (a.month == b.month && a.day < b.day)))
  }

  lemma EarlierDateEarlierDay(a: Instant, b: Instant)
    requires Valid(a) && Valid(b) && EarlierDate(a, b)
    ensures DayNumber(a) < DayNumber(b)
  {
    if a.year < b.year {
      YearsAddUp(a.year, b.year);
      MonthsAddUp(a.year, a.month, 13);
    } else if a.month < b.month {
      MonthsAddUp(a.year, a.month, b.month);
    }
  }

  /** Two fixed-width halves around one separator compare like a pair. */
  lemma LessAround(a: string, b: string, sep: string, c: string, d: string)
    requires |a| == |b|
    ensures Less(a + sep + c, b + sep + d) <==> Less(a, b) || (a == b && Less(c, d))
    ensures a + sep + c == b + sep + d <==> a == b && c == d
  {
    LessByParts(a + sep, b + sep, c, d);
    LessByParts(a, b, sep, sep);
    LessIrreflexive(sep);
    if a + sep == b + sep {
      assert (a + sep)[..|a|] == a && (b + sep)[..|b|] == b;
    }
    if a + sep + c == b + sep + d {
      assert (a + sep + c)[..|a|] == a && (b + sep + d)[..|b|] == b;
      assert (a + sep + c)[|a| + |sep|..] == c && (b + sep + d)[|b| + |sep|..] == d;
    }
  }

  lemma PadTwo(n: nat, m: nat)
    requires n < 100 && m < 100
    ensures Less(Pad(n, 2), Pad(m, 2)) <==> n < m
    ensures Pad(n, 2) == Pad(m, 2) <==> n == m
  {
    assert Pow10(2) == 10 * Pow10(1) == 100;
    PadCompares(n, m, 2);
  }

  lemma DaysAreShort(t: Instant)
    requires Valid(t)
    ensures t.day < 100 && t.month < 100 && t.year < Pow10(4)
  {
    assert Pow10(4) == 10 * Pow10(3) == 100 * Pow10(2) == 1000 * Pow10(1) == 10000;
  }

  lemma DateTextOrder(a: Instant, b: Instant)
    requires Valid(a) && Valid(b)
    ensures Less(DateText(a), DateText(b)) <==> EarlierDate(a, b)
    ensures DateText(a) == DateText(b) <==> !EarlierDate(a, b) && !EarlierDate(b, a)
  {
    DaysAreShort(a);
    DaysAreShort(b);
    PadCompares(a.year, b.year, 4);
    PadTwo(a.month, b.month);
    PadTwo(a.day, b.day);
    LessAround(Pad(a.year, 4), Pad(b.year, 4), "-", Pad(a.month, 2), Pad(b.month, 2));
    LessAround(Pad(a.year, 4) + "-" + Pad(a.month, 2), Pad(b.year, 4) + "-" + Pad(b.month, 2), "-", Pad(a.day, 2),
      Pad(b.day, 2));
  }

  lemma TimeTextOrder(a: Instant, b: Instant)
    requires Valid(a) && Valid(b)
    ensures Less(TimeText(a), TimeText(b)) <==> SecondOfDay(a) < SecondOfDay(b)
    ensures TimeText(a) == TimeText(b) <==> SecondOfDay(a) == SecondOfDay(b)
  {
    PadTwo(a.hour, b.hour);
    PadTwo(a.minute, b.minute);
    PadTwo(a.second, b.second);
    LessAround(Pad(a.hour, 2), Pad(b.hour, 2), ":", Pad(a.minute, 2), Pad(b.minute, 2));
    LessAround(Pad(a.hour, 2) + ":" + Pad(a.minute, 2), Pad(b.hour, 2) + ":" + Pad(b.minute, 2), ":", Pad(a.second, 2),
      Pad(b.second, 2));
  }

  function Seconds(t: Instant): int { DayNumber(t) * 86400 + SecondOfDay(t) }

  lemma SecondTextOrder(a: Instant, b: Instant)
    requires Valid(a) && Valid(b)
    ensures Less(SecondText(a), SecondText(b)) <==> Seconds(a) < Seconds(b)
    ensures SecondText(a) == SecondText(b) <==> Seconds(a) == Seconds(b)
  {
    DateTextOrder(a, b);
    TimeTextOrder(a, b);
    LessAround(DateText(a), DateText(b), "T", TimeText(a), TimeText(b));
    if EarlierDate(a, b) { EarlierDateEarlierDay(a, b); }
    if EarlierDate(b, a) { EarlierDateEarlierDay(b, a); }
  }

  lemma FractionOrder(a: Instant, b: Instant)
    requires Valid(a) && Valid(b)
    ensures Less(FractionText(a), FractionText(b)) <==> a.nano < b.nano
    ensures FractionText(a) == FractionText(b) <==> a.nano == b.nano
  {
    assert Pow10(9) == 1_000_000_000 by {
      assert Pow10(3) == 10 * Pow10(2) == 100 * Pow10(1) == 1000;
      assert Pow10(6) == 10 * Pow10(5) == 100 * Pow10(4) == 1000 * Pow10(3);
      assert Pow10(9) == 10 * Pow10(8) == 100 * Pow10(7) == 1000 * Pow10(6);
    }
    PadCompares(a.nano, b.nano, 9);
    TrimCompares(Pad(a.nano, 9), Pad(b.nano, 9));
  }

  // ---- what Go writes, the pattern reads back ----

  lemma SecondTextShape(t: Instant)
    ensures SecondShape(SecondText(t))
  {
    var y, mo, d := Pad(t.year, 4), Pad(t.month, 2), Pad(t.day, 2);
    var h, mi, s := Pad(t.hour, 2), Pad(t.minute, 2), Pad(t.second, 2);
    assert SecondText(t) == [y[0], y[1], y[2], y[3], '-', mo[0], mo[1], '-', d[0], d[1], 'T', h[0], h[1], ':', mi[0],
      mi[1], ':', s[0], s[1]];
  }

  lemma MatchReadsText(t: Instant)
    ensures Match(Text(t)) == Some((SecondText(t), FractionText(t)))
  {
    SecondTextShape(t);
    var s, f := Text(t), FractionText(t);
    assert s[..19] == SecondText(t);
    if f != "" {
      assert s[20..|s| - 1] == f;
      forall i | 20 <= i < |s| - 1 ensures IsDigit(s[i]) { assert s[i] == f[i - 20]; }
    }
  }

  /** The browser's comparison of the two texts has the sign of the true difference, for all instants. */
  lemma CompareAtAgrees(a: Instant, b: Instant)
    requires Valid(a) && Valid(b)
    ensures CompareAt(Text(a), Text(b)) == Sign(Nanos(a) - Nanos(b))
  {
    MatchReadsText(a);
    MatchReadsText(b);
    SecondTextOrder(a, b);
    FractionOrder(a, b);
    assert Nanos(a) - Nanos(b) == (Seconds(a) - Seconds(b)) * 1_000_000_000 + (a.nano - b.nano);
  }

  /** Comparing the texts as they stand would not do: a whole second would rank above its own fractions. */
  lemma PlainOrderMisranks(a: Instant, b: Instant)
    requires Valid(a) && Valid(b) && b == a.(nano := b.nano) && a.nano == 0 < b.nano
    ensures Nanos(a) < Nanos(b) && Less(Text(b), Text(a))
  {
    FractionOrder(a, b);
    FractionOfWhole(a);
    var f := FractionText(b);
    assert Text(a) == SecondText(a) + "Z" && Text(b) == SecondText(a) + ("." + f + "Z");
    LessByParts(SecondText(a), SecondText(a), "." + f + "Z", "Z");
    LessIrreflexive(SecondText(a));
    assert ("." + f + "Z")[0] == '.';
  }

  lemma {:induction false} ZeroPads(w: nat)
    ensures AllZeros(Pad(0, w))
  {
    if w > 0 { ZeroPads(w - 1); }
  }

  lemma FractionOfWhole(a: Instant)
    requires a.nano == 0
    ensures FractionText(a) == ""
  {
    ZeroPads(9);
  }
}
