/**
 * UTC instants, their RFC3339Nano text, and the order SQLite sees when it compares that text.
 *
 * An instant is a number of nanoseconds since 0000-01-01T00:00:00Z. The gateway writes instants with
 * Go's RFC3339Nano layout, which drops trailing zeros of the fraction (and the whole fraction when it
 * is zero), so the text order is not the time order inside one second.
 */
module Timestamps {
  import opened Prelude
  import opened Text

  const SECOND: nat := 1_000_000_000

  // ---------------------------------------------------------------- calendar

  datatype Civil = Civil(year: nat, month: nat, day: nat, hour: nat, minute: nat, second: nat)

  predicate Leap(y: nat) {
    y % 4 == 0 && (y % 100 != 0 || y % 400 == 0)
  }

  function MonthLen(y: nat, m: nat): nat {
    if m == 2 then (if Leap(y) then 29 else 28) else if m in {4, 6, 9, 11} then 30 else 31
  }

  function YearSeconds(y: nat): nat {
    if Leap(y) then 366 * 86400 else 365 * 86400
  }

  function MonthSeconds(y: nat, m: nat): nat {
    86400 * MonthLen(y, m)
  }

  function BeforeYear(y: nat): nat {
    if y == 0 then 0 else BeforeYear(y - 1) + YearSeconds(y - 1)
  }

  function BeforeMonth(y: nat, m: nat): nat {
    if m <= 1 then 0 else BeforeMonth(y, m - 1) + MonthSeconds(y, m - 1)
  }

  predicate ValidCivil(c: Civil) {
    1 <= c.month <= 12 && 1 <= c.day <= MonthLen(c.year, c.month)
    && c.hour < 24 && c.minute < 60 && c.second < 60
  }

  /** Whole seconds since the start of year 0. */
  function Seconds(c: Civil): int {
    BeforeYear(c.year) + BeforeMonth(c.year, c.month) + 86400 * (c.day - 1) + 3600 * c.hour + 60 * c.minute + c.second
  }

  lemma MonthsFillYear(y: nat)
    ensures BeforeMonth(y, 12) + MonthSeconds(y, 12) == YearSeconds(y)
  {
    assert BeforeMonth(y, 2) == MonthSeconds(y, 1);
    assert BeforeMonth(y, 4) == BeforeMonth(y, 3) + MonthSeconds(y, 3);
    assert BeforeMonth(y, 6) == BeforeMonth(y, 5) + MonthSeconds(y, 5);
    assert BeforeMonth(y, 8) == BeforeMonth(y, 7) + MonthSeconds(y, 7);
    assert BeforeMonth(y, 10) == BeforeMonth(y, 9) + MonthSeconds(y, 9);
  }

  lemma {:induction false} YearsGrow(y: nat, z: nat)
    requires y < z
    ensures BeforeYear(y) + YearSeconds(y) <= BeforeYear(z)
  {
    if y + 1 < z { YearsGrow(y, z - 1); }
  }

  lemma {:induction false} MonthsGrow(y: nat, m: nat, n: nat)
    requires 1 <= m < n
    ensures BeforeMonth(y, m) + MonthSeconds(y, m) <= BeforeMonth(y, n)
  {
    if m + 1 < n { MonthsGrow(y, m, n - 1); }
  }

  /** The next second on the civil calendar. */
  function Tick(c: Civil): Civil {
    if c.second < 59 then c.(second := c.second + 1)
    else if c.minute < 59 then c.(minute := c.minute + 1, second := 0)
    else if c.hour < 23 then c.(hour := c.hour + 1, minute := 0, second := 0)
    else if c.day < MonthLen(c.year, c.month) then Civil(c.year, c.month, c.day + 1, 0, 0, 0)
    else if c.month < 12 then Civil(c.year, c.month + 1, 1, 0, 0, 0)
    else Civil(c.year + 1, 1, 1, 0, 0, 0)
  }

  lemma TickAdvances(c: Civil)
    requires ValidCivil(c)
    ensures ValidCivil(Tick(c)) && Seconds(Tick(c)) == Seconds(c) + 1
  {
    if c.month == 12 { MonthsFillYear(c.year); }
    assert BeforeMonth(c.year + 1, 1) == 0;
  }

  predicate IsEpoch(c: Civil) {
    c.year == 0 && c.month == 1 && c.day == 1 && c.hour == 0 && c.minute == 0 && c.second == 0
  }

  lemma EpochIsZero(c: Civil)
    requires IsEpoch(c)
    ensures ValidCivil(c) && Seconds(c) == 0
  {
  }

  /** The civil time of a second: every second has one, found by counting up from year 0. */
  ghost function CivilAt(s: nat): (c: Civil)
    ensures ValidCivil(c) && Seconds(c) == s
  {
    if s == 0 then var c := Civil(0, 1, 1, 0, 0, 0); EpochIsZero(c); c
    else var c := CivilAt(s - 1); TickAdvances(c); Tick(c)
  }

  /** Calendar order of two civil times, most significant field first. */
  predicate Earlier(c: Civil, d: Civil) {
    c.year < d.year || (c.year == d.year && (
      c.month < d.month || (c.month == d.month && (
        c.day < d.day || (c.day == d.day && (
          c.hour < d.hour || (c.hour == d.hour && (
            c.minute < d.minute || (c.minute == d.minute && c.second < d.second)))))))))
  }

  lemma EarlierIsSmaller(c: Civil, d: Civil)
    requires ValidCivil(c) && ValidCivil(d)
    ensures Earlier(c, d) <==> Seconds(c) < Seconds(d)
  {
    if Earlier(c, d) { EarlierGrows(c, d); }
    if Earlier(d, c) { EarlierGrows(d, c); }
  }

  lemma EarlierGrows(c: Civil, d: Civil)
    requires ValidCivil(c) && ValidCivil(d) && Earlier(c, d)
    ensures Seconds(c) < Seconds(d)
  {
    if c.year < d.year {
      YearsGrow(c.year, d.year);
      MonthsFillYear(c.year);
      if c.month < 12 { MonthsGrow(c.year, c.month, 12); }
    } else if c.month < d.month {
      MonthsGrow(c.year, c.month, d.month);
    }
  }

  // ---------------------------------------------------------------- text

  function Digit(n: nat): char
    requires n < 10
  {
    '0' + n as char
  }

  predicate IsDigit(c: char) {
    '0' <= c <= '9'
  }

  predicate AllDigits(s: string) {
    forall i :: 0 <= i < |s| ==> IsDigit(s[i])
  }

  function Pow10(k: nat): (p: nat)
    ensures p > 0
  {
    if k == 0 then 1 else 10 * Pow10(k - 1)
  }

  /** The last w decimal digits of n, zero padded. */
  function Pad(w: nat, n: nat): (s: string)
    ensures |s| == w
    ensures forall i :: 0 <= i < w ==> IsDigit(s[i])
  {
    if w == 0 then "" else Pad(w - 1, n / 10) + [Digit(n % 10)]
  }

  function Zeros(k: nat): (s: string)
    ensures |s| == k
    ensures forall i :: 0 <= i < k ==> s[i] == '0'
  {
    seq(k, _ => '0')
  }

  /** A digit string without its trailing zeros, closed by the offset Z. */
  function Trimmed(d: string): (s: string)
    ensures s != "" && |s| <= |d| + 1
  {
    if d == Zeros(|d|) then "Z" else [d[0]] + Trimmed(d[1..])
  }

  /** The fraction with its point, or nothing, then the offset Z. */
  function PointAndFraction(d: string): string {
    if d == Zeros(|d|) then "Z" else "." + Trimmed(d)
  }

  function FractionTail(ns: nat): string {
    PointAndFraction(Pad(9, ns))
  }

  lemma PowNine()
    ensures Pow10(9) == SECOND && Pow10(4) == 10000 && Pow10(2) == 100
  {
    assert Pow10(2) == 100;
    assert Pow10(4) == 10000;
    assert Pow10(6) == 1_000_000;
    assert Pow10(8) == 100_000_000;
  }

  function Field(w: nat, n: nat, sep: char, rest: string): (s: string)
    ensures |s| == w + 1 + |rest|
    ensures s[..w] == Pad(w, n) && s[w] == sep && s[w + 1..] == rest
  {
    Pad(w, n) + ([sep] + rest)
  }

  /** time.Time.UTC().Format(time.RFC3339Nano) for years of at most four digits. */
  function Render(c: Civil, ns: nat): string
    requires ns < SECOND
  {
    Field(4, c.year, '-', Field(2, c.month, '-', Field(2, c.day, 'T',
      Field(2, c.hour, ':', Field(2, c.minute, ':', Pad(2, c.second) + FractionTail(ns))))))
  }

  /** The first second of year 10000. */
  const FIVE_DIGITS: nat := 3_652_425 * 86_400

  /** Instants before year 10000, the ones whose text has a fixed layout. */
  predicate Dated(t: nat) {
    t / SECOND < FIVE_DIGITS
  }

  /** Days before a year, in closed form: 365 for each year, one more for each leap year. */
  function DaysBefore(y: nat): int {
    365 * y + (y + 3) / 4 - (y + 99) / 100 + (y + 399) / 400
  }

  lemma {:induction false} DaysAddUp(y: nat)
    ensures BeforeYear(y) == 86_400 * DaysBefore(y)
  {
    if y > 0 {
      DaysAddUp(y - 1);
      LeapStep(y - 1);
    }
  }

  lemma LeapStep(y: nat)
    ensures DaysBefore(y + 1) == DaysBefore(y) + if Leap(y) then 366 else 365
  {
    CeilStep4(y);
    CeilStep100(y);
    CeilStep400(y);
    if y % 400 == 0 { DivUnique(y, 100, 4 * (y / 400), 0); }
    if y % 100 == 0 { DivUnique(y, 4, 25 * (y / 100), 0); }
  }

  /** Rounding up grows exactly after a multiple. */
  lemma CeilStep4(y: nat)
    ensures (y + 4) / 4 == (y + 3) / 4 + if y % 4 == 0 then 1 else 0
  {
    DivUnique(y + 4, 4, y / 4 + 1, y % 4);
    if y % 4 == 0 { DivUnique(y + 3, 4, y / 4, 3); } else { DivUnique(y + 3, 4, y / 4 + 1, y % 4 - 1); }
  }

  lemma CeilStep100(y: nat)
    ensures (y + 100) / 100 == (y + 99) / 100 + if y % 100 == 0 then 1 else 0
  {
    DivUnique(y + 100, 100, y / 100 + 1, y % 100);
    if y % 100 == 0 { DivUnique(y + 99, 100, y / 100, 99); } else { DivUnique(y + 99, 100, y / 100 + 1, y % 100 - 1); }
  }

  lemma CeilStep400(y: nat)
    ensures (y + 400) / 400 == (y + 399) / 400 + if y % 400 == 0 then 1 else 0
  {
    DivUnique(y + 400, 400, y / 400 + 1, y % 400);
    if y % 400 == 0 {
      DivUnique(y + 399, 400, y / 400, 399);
    } else {
      DivUnique(y + 399, 400, y / 400 + 1, y % 400 - 1);
    }
  }

  /** These are exactly the instants whose year has at most four digits. */
  lemma DatedYears(t: nat)
    ensures Dated(t) <==> CivilAt(t / SECOND).year < 10000
  {
    TenThousandYears(10_000);
    YearBounds(CivilAt(t / SECOND), 10_000, FIVE_DIGITS);
  }

  lemma TenThousandYears(y: nat)
    requires y == 10_000
    ensures DaysBefore(y) == 3_652_425
  {
    assert (y + 3) / 4 == 2_500 && (y + 99) / 100 == 100 && (y + 399) / 400 == 25;
  }

  lemma YearBounds(c: Civil, y: nat, first: nat)
    requires ValidCivil(c) && 86_400 * DaysBefore(y) == first
    ensures Seconds(c) < first <==> c.year < y
  {
    YearBound(c, y);
    DaysAddUp(y);
  }

  lemma YearBound(c: Civil, y: nat)
    requires ValidCivil(c)
    ensures Seconds(c) < BeforeYear(y) <==> c.year < y
  {
    var first := Civil(y, 1, 1, 0, 0, 0);
    EarlierIsSmaller(c, first);
  }

  ghost function Rfc3339Nano(t: nat): string {
    Render(CivilAt(t / SECOND), t % SECOND)
  }

  /** How SQLite compares two stored instants. */
  ghost predicate TextLess(t: nat, u: nat) {
    LexLess(Rfc3339Nano(t), Rfc3339Nano(u))
  }

  // ---------------------------------------------------------------- order of the text

  lemma {:induction false} PadOrder(w: nat, m: nat, n: nat)
    requires m < Pow10(w) && n < Pow10(w)
    ensures LexLess(Pad(w, m), Pad(w, n)) <==> m < n
    ensures Pad(w, m) == Pad(w, n) <==> m == n
  {
    if w > 0 {
      PadOrder(w - 1, m / 10, n / 10);
      var x, y := [Digit(m % 10)], [Digit(n % 10)];
      LexConcat(Pad(w - 1, m / 10), Pad(w - 1, n / 10), x, y);
      assert LexLess(x, y) <==> m % 10 < n % 10;
      if Pad(w, m) == Pad(w, n) {
        assert Pad(w, m)[..w - 1] == Pad(w - 1, m / 10) && Pad(w, n)[..w - 1] == Pad(w - 1, n / 10);
        assert Pad(w, m)[w - 1] == x[0] && Pad(w, n)[w - 1] == y[0];
      }
    }
  }

  lemma FieldOrder(w: nat, m: nat, n: nat, sep: char, x: string, y: string)
    requires m < Pow10(w) && n < Pow10(w)
    ensures LexLess(Field(w, m, sep, x), Field(w, n, sep, y)) <==> m < n || (m == n && LexLess(x, y))
  {
    PadOrder(w, m, n);
    LexConcat(Pad(w, m), Pad(w, n), [sep] + x, [sep] + y);
    LexConcat([sep], [sep], x, y);
  }

  lemma ClockOrder(c: Civil, x: string, d: Civil, y: string)
    requires ValidCivil(c) && ValidCivil(d)
    ensures LexLess(Field(2, c.hour, ':', Field(2, c.minute, ':', Pad(2, c.second) + x)),
                    Field(2, d.hour, ':', Field(2, d.minute, ':', Pad(2, d.second) + y)))
            <==> c.hour < d.hour || (c.hour == d.hour && (c.minute < d.minute || (c.minute == d.minute &&
                   (c.second < d.second || (c.second == d.second && LexLess(x, y))))))
  {
    var s5, t5 := Pad(2, c.second) + x, Pad(2, d.second) + y;
    PadOrder(2, c.second, d.second);
    LexConcat(Pad(2, c.second), Pad(2, d.second), x, y);
    FieldOrder(2, c.minute, d.minute, ':', s5, t5);
    FieldOrder(2, c.hour, d.hour, ':', Field(2, c.minute, ':', s5), Field(2, d.minute, ':', t5));
  }

  lemma RenderOrder(c: Civil, m: nat, d: Civil, n: nat)
    requires ValidCivil(c) && ValidCivil(d) && c.year < 10000 && d.year < 10000 && m < SECOND && n < SECOND
    ensures LexLess(Render(c, m), Render(d, n))
            <==> Earlier(c, d) || (c == d && LexLess(FractionTail(m), FractionTail(n)))
  {
    PowNine();
    var s5, t5 := Pad(2, c.second) + FractionTail(m), Pad(2, d.second) + FractionTail(n);
    var s4, t4 := Field(2, c.minute, ':', s5), Field(2, d.minute, ':', t5);
    var s3, t3 := Field(2, c.hour, ':', s4), Field(2, d.hour, ':', t4);
    ClockOrder(c, FractionTail(m), d, FractionTail(n));
    var s2, t2 := Field(2, c.day, 'T', s3), Field(2, d.day, 'T', t3);
    FieldOrder(2, c.day, d.day, 'T', s3, t3);
    var s1, t1 := Field(2, c.month, '-', s2), Field(2, d.month, '-', t2);
    FieldOrder(2, c.month, d.month, '-', s2, t2);
    FieldOrder(4, c.year, d.year, '-', s1, t1);
  }

  /** a with its last digits set to zero. */
  function Dropped(a: nat, p: nat): (m: nat)
    requires p > 0
    ensures m <= a
  {
    a - a % p
  }

  /** b is a with its last k fraction digits set to zero, for some k that changes it. */
  ghost predicate Truncates(w: nat, b: nat, a: nat) {
    b != a && exists k :: 0 <= k <= w && b == Dropped(a, Pow10(k))
  }

  /**
   * The text order inside one second: a number whose digits continue another one sorts before it,
   * because the letter Z that ends the shorter text is greater than every digit; otherwise the numeric
   * order decides.
   */
  ghost predicate FractionBefore(w: nat, a: nat, b: nat) {
    Truncates(w, b, a) || (a < b && !Truncates(w, a, b))
  }

  /** d with every digit after the first k replaced by zero. */
  function Cut(d: string, k: nat): (e: string)
    requires k <= |d|
    ensures |e| == |d|
  {
    d[..k] + Zeros(|d| - k)
  }

  /** e is d with the digits after some point replaced by zeros, and differs from it. */
  ghost predicate CutFrom(e: string, d: string) {
    e != d && exists k :: 0 <= k <= |d| && e == Cut(d, k)
  }

  lemma CutStep(e: string, d: string)
    requires |e| == |d| > 0
    ensures CutFrom(e, d) <==> e != d && (e == Zeros(|d|) || (e[0] == d[0] && CutFrom(e[1..], d[1..])))
  {
    assert d == [d[0]] + d[1..] && e == [e[0]] + e[1..];
    assert Cut(d, 0) == Zeros(|d|);
    forall k | 0 <= k < |d|
      ensures e == Cut(d, k + 1) <==> e[0] == d[0] && e[1..] == Cut(d[1..], k)
    {
      assert Cut(d, k + 1) == [d[0]] + Cut(d[1..], k);
    }
    if CutFrom(e, d) {
      var k :| 0 <= k <= |d| && e == Cut(d, k);
      if k > 0 {
        assert e == Cut(d, (k - 1) + 1);
        assert e[1..] == Cut(d[1..], k - 1);
      }
    }
  }

  lemma {:induction false} ZerosFirst(d: string)
    requires AllDigits(d) && d != Zeros(|d|)
    ensures LexLess(Zeros(|d|), d) && !LexLess(d, Zeros(|d|)) && CutFrom(Zeros(|d|), d) && !CutFrom(d, Zeros(|d|))
  {
    assert d == [d[0]] + d[1..];
    assert Zeros(|d|)[1..] == Zeros(|d[1..]|);
    if d[0] == '0' {
      ZerosFirst(d[1..]);
    }
    assert Zeros(|d|) == Cut(d, 0);
    assert forall k :: 0 <= k <= |d| ==> Cut(Zeros(|d|), k) == Zeros(|d|);
  }

  lemma {:induction false} TrimmedOrder(d: string, e: string)
    requires |d| == |e| && AllDigits(d) && AllDigits(e)
    ensures LexLess(Trimmed(d), Trimmed(e)) <==> CutFrom(e, d) || (LexLess(d, e) && !CutFrom(d, e))
  {
    if d == e {
      LexTotal(d, d);
      LexTotal(Trimmed(d), Trimmed(d));
    } else if d == Zeros(|d|) {
      ZerosFirst(e);
      assert Trimmed(e)[0] == e[0];
    } else if e == Zeros(|e|) {
      ZerosFirst(d);
      assert Trimmed(d)[0] == d[0];
    } else {
      TrimmedOrder(d[1..], e[1..]);
      CutStep(e, d);
      CutStep(d, e);
      assert d == [d[0]] + d[1..] && e == [e[0]] + e[1..];
      assert Trimmed(d)[1..] == Trimmed(d[1..]) && Trimmed(e)[1..] == Trimmed(e[1..]);
    }
  }

  /** Zeroing the last k + 1 digits zeroes the last one and the last k of the others. */
  lemma DropDigits(n: nat, m: nat)
    requires m > 0
    ensures Dropped(n, 10 * m) / 10 == Dropped(n / 10, m) && Dropped(n, 10 * m) % 10 == 0
  {
    var q := n / 10;
    assert n == 10 * q + n % 10;
    assert q == (q / m) * m + q % m;
    assert (q / m) * (10 * m) == 10 * ((q / m) * m);
    DivUnique(n, 10 * m, q / m, 10 * (q % m) + n % 10);
  }

  lemma {:induction false} PadCut(w: nat, n: nat, k: nat)
    requires k <= w
    ensures Pad(w, Dropped(n, Pow10(k))) == Cut(Pad(w, n), w - k)
  {
    var d := Pad(w, n);
    if k == 0 {
      assert Cut(d, w) == d;
    } else {
      PadCut(w - 1, n / 10, k - 1);
      PadCutStep(w, n, Pow10(k - 1));
      assert Cut(d, w - k) == Cut(Pad(w - 1, n / 10), w - k) + ['0'];
    }
  }

  lemma PadCutStep(w: nat, n: nat, m: nat)
    requires w > 0 && m > 0
    ensures Pad(w, Dropped(n, 10 * m)) == Pad(w - 1, Dropped(n / 10, m)) + ['0']
  {
    DropDigits(n, m);
  }

  lemma CutIsTruncation(w: nat, b: nat, a: nat)
    requires a < Pow10(w) && b < Pow10(w)
    ensures CutFrom(Pad(w, b), Pad(w, a)) <==> Truncates(w, b, a)
  {
    PadOrder(w, a, b);
    if CutFrom(Pad(w, b), Pad(w, a)) {
      var k :| 0 <= k <= w && Pad(w, b) == Cut(Pad(w, a), k);
      CutAt(w, b, a, w - k);
    }
    if Truncates(w, b, a) {
      var k :| 0 <= k <= w && b == Dropped(a, Pow10(k));
      CutAt(w, b, a, k);
    }
  }

  lemma CutAt(w: nat, b: nat, a: nat, k: nat)
    requires a < Pow10(w) && b < Pow10(w) && k <= w
    ensures Pad(w, b) == Cut(Pad(w, a), w - k) <==> b == Dropped(a, Pow10(k))
  {
    var m := Dropped(a, Pow10(k));
    PadCut(w, a, k);
    SamePad(w, b, m);
  }

  lemma SamePad(w: nat, m: nat, n: nat)
    requires m < Pow10(w) && n < Pow10(w)
    ensures Pad(w, m) == Pad(w, n) <==> m == n
  {
    PadOrder(w, m, n);
  }

  lemma FractionOrder(w: nat, a: nat, b: nat)
    requires a < Pow10(w) && b < Pow10(w)
    ensures LexLess(Trimmed(Pad(w, a)), Trimmed(Pad(w, b))) <==> FractionBefore(w, a, b)
  {
    PadOrder(w, a, b);
    CutIsTruncation(w, a, b);
    CutIsTruncation(w, b, a);
    TrimmedOrder(Pad(w, a), Pad(w, b));
  }

  lemma PointOrder(d: string, e: string)
    requires |d| == |e| && AllDigits(d) && AllDigits(e)
    ensures LexLess(PointAndFraction(d), PointAndFraction(e)) <==> LexLess(Trimmed(d), Trimmed(e))
  {
    LexConcat(".", ".", Trimmed(d), Trimmed(e));
    LexTotal("Z", "Z");
    if d != Zeros(|d|) { assert Trimmed(d)[0] == d[0]; }
    if e != Zeros(|e|) { assert Trimmed(e)[0] == e[0]; }
  }

  lemma TailOrder(a: nat, b: nat)
    requires a < SECOND && b < SECOND
    ensures LexLess(FractionTail(a), FractionTail(b)) <==> FractionBefore(9, a, b)
  {
    PowNine();
    FractionOrder(9, a, b);
    PointOrder(Pad(9, a), Pad(9, b));
  }

  lemma SameSecond(s: nat, c: Civil)
    requires ValidCivil(c) && Seconds(c) == s
    ensures CivilAt(s) == c
  {
    EarlierIsSmaller(CivilAt(s), c);
    EarlierIsSmaller(c, CivilAt(s));
  }

  /** The text order of two stored instants, exactly. */
  lemma TextOrder(t: nat, u: nat)
    requires Dated(t) && Dated(u)
    ensures TextLess(t, u) <==>
            t / SECOND < u / SECOND
            || (t / SECOND == u / SECOND && FractionBefore(9, t % SECOND, u % SECOND))
  {
    var c, d := CivilAt(t / SECOND), CivilAt(u / SECOND);
    DatedYears(t);
    DatedYears(u);
    RenderOrder(c, t % SECOND, d, u % SECOND);
    EarlierIsSmaller(c, d);
    if t / SECOND == u / SECOND { TailOrder(t % SECOND, u % SECOND); }
  }

  /** Hence a test made on the text is wrong by less than one second, in both directions. */
  lemma TextWithinOneSecond(t: nat, u: nat)
    requires Dated(t) && Dated(u)
    ensures t + SECOND <= u ==> TextLess(t, u)
    ensures TextLess(t, u) ==> t < u + SECOND
    ensures t / SECOND != u / SECOND ==> (TextLess(t, u) <==> t < u)
  {
    TextOrder(t, u);
  }

  /** Inside one second the earlier instant sorts last exactly when its digits are cut from the later one's. */
  lemma TextOrderInverts(t: nat, u: nat)
    requires Dated(t) && Dated(u) && u < t
    ensures TextLess(t, u) <==> t / SECOND == u / SECOND && Truncates(9, u % SECOND, t % SECOND)
  {
    TextOrder(t, u);
  }

  /** The same said of the later instant: it sorts last unless its digits continue those of the earlier one. */
  lemma LaterText(t: nat, u: nat)
    requires Dated(t) && Dated(u) && t < u
    ensures TextLess(t, u) <==> !(t / SECOND == u / SECOND && Truncates(9, t % SECOND, u % SECOND))
  {
    TextOrder(t, u);
    if t / SECOND == u / SECOND {
      assert t % SECOND < u % SECOND;
      assert !Truncates(9, u % SECOND, t % SECOND);
    }
  }

  /** s is the stored text of an instant: what its civil time is rendered as. */
  ghost predicate IsText(s: string, t: nat) {
    forall c :: ValidCivil(c) && Seconds(c) == t / SECOND ==> s == Render(c, t % SECOND)
  }

  /** The function renders instants as they are stored. */
  ghost predicate Renders(format: int -> string) {
    forall t: nat :: Dated(t) ==> IsText(format(t), t)
  }

  /** Every instant has exactly one civil time, so exactly one text. */
  lemma TextIs(s: string, t: nat)
    ensures IsText(s, t) <==> s == Rfc3339Nano(t)
  {
    var c := CivilAt(t / SECOND);
    if s == Rfc3339Nano(t) {
      forall d | ValidCivil(d) && Seconds(d) == t / SECOND ensures s == Render(d, t % SECOND) {
        SameSecond(t / SECOND, d);
      }
    } else {
      assert ValidCivil(c) && Seconds(c) == t / SECOND;
    }
  }

  /** How the texts of an instant and of an earlier or equal one compare. */
  lemma TextsCompared(s: string, t: nat, r: string, u: nat)
    requires Dated(t) && u <= t && IsText(s, t) && IsText(r, u)
    ensures s == r <==> t == u
    ensures LexLess(s, r) <==> u < t && t / SECOND == u / SECOND && Truncates(9, u % SECOND, t % SECOND)
  {
    TextIs(s, t);
    TextIs(r, u);
    if u < t {
      TextOrderInverts(t, u);
      ParseUndoesFormat(t);
      ParseUndoesFormat(u);
    } else {
      LexTotal(s, s);
    }
  }

  /** Whether the stored text of t sorts before that of u. */
  ghost predicate TextBefore(t: nat, u: nat) {
    t / SECOND < u / SECOND || (t / SECOND == u / SECOND && FractionBefore(9, t % SECOND, u % SECOND))
  }

  lemma TextsOrdered(s: string, t: nat, r: string, u: nat)
    requires Dated(t) && Dated(u) && IsText(s, t) && IsText(r, u)
    ensures LexLess(s, r) <==> TextBefore(t, u)
  {
    TextIs(s, t);
    TextIs(r, u);
    TextOrder(t, u);
  }

  /** Texts of instants a second or more apart compare as the instants do. */
  lemma TextsApart(s: string, t: nat, r: string, u: nat)
    requires Dated(u) && t + SECOND <= u && IsText(s, t) && IsText(r, u)
    ensures LexLess(s, r) && !LexLess(r, s)
  {
    TextIs(s, t);
    TextIs(r, u);
    TextWithinOneSecond(t, u);
    LexTotal(s, r);
  }

  // ---------------------------------------------------------------- parsing

  function DigitValue(c: char): nat
    requires IsDigit(c)
  {
    c as int - '0' as int
  }

  function Value(s: string): nat
    requires AllDigits(s)
  {
    if s == "" then 0 else 10 * Value(s[..|s| - 1]) + DigitValue(s[|s| - 1])
  }

  /** Reads w digits followed by a separator. */
  function TakeField(w: nat, sep: char, s: string): Option<(nat, string)> {
    if |s| > w && AllDigits(s[..w]) && s[w] == sep then Some((Value(s[..w]), s[w + 1..])) else None
  }

  /** Reads what follows the seconds: an optional fraction of one to w digits, then the offset Z. */
  function ParseTail(w: nat, s: string): Option<nat> {
    if s == "Z" then Some(0)
    else if 3 <= |s| <= w + 2 && s[0] == '.' && s[|s| - 1] == 'Z' && AllDigits(s[1..|s| - 1])
    then Some(Value(s[1..|s| - 1] + Zeros(w + 2 - |s|)))
    else None
  }

  /** time.Parse(time.RFC3339Nano, s), restricted to UTC texts (offset Z, at most nine fraction digits). */
  function Parse(s: string): Option<(Civil, nat)> {
    match TakeField(4, '-', s)
    case None => None
    case Some((year, s1)) =>
    match TakeField(2, '-', s1)
    case None => None
    case Some((month, s2)) =>
    match TakeField(2, 'T', s2)
    case None => None
    case Some((day, s3)) =>
    match TakeField(2, ':', s3)
    case None => None
    case Some((hour, s4)) =>
    match TakeField(2, ':', s4)
    case None => None
    case Some((minute, s5)) =>
    if |s5| < 2 || !AllDigits(s5[..2]) then None
    else
      var c := Civil(year, month, day, hour, minute, Value(s5[..2]));
      match ParseTail(9, s5[2..])
      case None => None
      case Some(ns) => if ValidCivil(c) then Some((c, ns)) else None
  }

  lemma {:induction false} ValueOfPad(w: nat, n: nat)
    requires n < Pow10(w)
    ensures Value(Pad(w, n)) == n
  {
    if w > 0 {
      ValueOfPad(w - 1, n / 10);
      assert Pad(w, n)[..w - 1] == Pad(w - 1, n / 10);
    }
  }

  lemma {:induction false} TrimmedDigits(d: string)
    requires AllDigits(d)
    ensures var k := |Trimmed(d)| - 1;
            Trimmed(d) == d[..k] + "Z" && d == d[..k] + Zeros(|d| - k)
  {
    if d != Zeros(|d|) {
      TrimmedDigits(d[1..]);
      var k := |Trimmed(d[1..])| - 1;
      assert d == [d[0]] + d[1..];
      assert d[..k + 1] == [d[0]] + d[1..][..k];
    }
  }

  lemma TakeUndoesField(w: nat, n: nat, sep: char, rest: string)
    requires n < Pow10(w)
    ensures TakeField(w, sep, Field(w, n, sep, rest)) == Some((n, rest))
  {
    ValueOfPad(w, n);
  }

  lemma ParsePoint(d: string)
    requires AllDigits(d)
    ensures ParseTail(|d|, PointAndFraction(d)) == Some(Value(d))
  {
    if d == Zeros(|d|) {
      ValueOfZeros(|d|);
    } else {
      TrimmedDigits(d);
      var k := |Trimmed(d)| - 1;
      TailOfDigits(|d|, d[..k]);
    }
  }

  lemma TailOfDigits(w: nat, digits: string)
    requires 0 < |digits| <= w && AllDigits(digits)
    ensures ParseTail(w, "." + (digits + "Z")) == Some(Value(digits + Zeros(w - |digits|)))
  {
    Middle(digits);
  }

  lemma Middle(digits: string)
    requires digits != ""
    ensures var s := "." + (digits + "Z");
      |s| == |digits| + 2 && s != "Z" && s[0] == '.' && s[|s| - 1] == 'Z' && s[1..|s| - 1] == digits
  {
    var s := "." + (digits + "Z");
    assert s[|s| - 1] == (digits + "Z")[|digits|];
    assert s[1..|s| - 1] == digits;
  }

  lemma {:induction false} ValueOfZeros(k: nat)
    ensures Value(Zeros(k)) == 0
  {
    if k > 0 {
      assert Zeros(k)[..k - 1] == Zeros(k - 1);
      ValueOfZeros(k - 1);
    }
  }

  lemma ParseFractionTail(ns: nat)
    requires ns < SECOND
    ensures ParseTail(9, FractionTail(ns)) == Some(ns)
  {
    PowNine();
    ParsePoint(Pad(9, ns));
    ValueOfPad(9, ns);
  }

  lemma ParseRender(c: Civil, ns: nat)
    requires ValidCivil(c) && c.year < 10000 && ns < SECOND
    ensures Parse(Render(c, ns)) == Some((c, ns))
  {
    PowNine();
    var s5 := Pad(2, c.second) + FractionTail(ns);
    var s4 := Field(2, c.minute, ':', s5);
    var s3 := Field(2, c.hour, ':', s4);
    var s2 := Field(2, c.day, 'T', s3);
    var s1 := Field(2, c.month, '-', s2);
    TakeUndoesField(4, c.year, '-', s1);
    TakeUndoesField(2, c.month, '-', s2);
    TakeUndoesField(2, c.day, 'T', s3);
    TakeUndoesField(2, c.hour, ':', s4);
    TakeUndoesField(2, c.minute, ':', s5);
    ValueOfPad(2, c.second);
    assert s5[..2] == Pad(2, c.second) && s5[2..] == FractionTail(ns);
    ParseFractionTail(ns);
  }

  /** Reading a stored timestamp back gives the instant that was written. */
  lemma ParseUndoesFormat(t: nat)
    requires Dated(t)
    ensures Parse(Rfc3339Nano(t)) == Some((CivilAt(t / SECOND), t % SECOND))
    ensures Seconds(CivilAt(t / SECOND)) * SECOND + t % SECOND == t
  {
    DatedYears(t);
    ParseRender(CivilAt(t / SECOND), t % SECOND);
  }
}
