/** Cooldown policy: how long a failing endpoint rests, and what a Retry-After header says. */
module Cooldown {
  import opened Prelude
  import Text

  const SECOND: int := 1_000_000_000
  const DEFAULT_RATE_LIMIT: int := 60 * SECOND
  const DEFAULT_TRANSIENT: int := 30 * SECOND
  const DEFAULT_MAX_RETRIES := 3
  const MAX_RETRY_AFTER: int := 600 * SECOND
  const MIN_INT64: int := -0x8000_0000_0000_0000
  const MAX_INT64: int := 0x7FFF_FFFF_FFFF_FFFF

  /** Durations in nanoseconds. */
  datatype Settings = Settings(rateLimit: int, transient: int, credential: int, maxRetries: int)

  datatype Policy = Policy(duration: int, reason: string, cool: bool, retry: bool)

  function PolicyForStatus(status: int, s: Settings): Policy {
    if status == 429 then Policy(s.rateLimit, "rate_limited", true, true)
    else if status in {408, 500, 502, 503, 504} then Policy(s.transient, "transient", true, true)
    else if status in {401, 403} then Policy(s.credential, "credential_error", true, true)
    else Policy(0, "", false, false)
  }

  predicate MarksSuccess(status: int) {
    200 <= status < 300
  }

  const TWO_64: int := 0x1_0000_0000_0000_0000

  /** Two's complement int64: the number in range that differs by a multiple of 2^64. */
  function Wrap64(n: int): (w: int)
    ensures MIN_INT64 <= w <= MAX_INT64
    decreases if n > MAX_INT64 then n - MAX_INT64 else if n < MIN_INT64 then MIN_INT64 - n else 0
  {
    if n > MAX_INT64 then Wrap64(n - TWO_64) else if n < MIN_INT64 then Wrap64(n + TWO_64) else n
  }

  /** Adding 2^64 any number of times changes nothing. */
  lemma {:induction false} WrapPeriod(n: int, k: nat)
    ensures Wrap64(n + k * TWO_64) == Wrap64(n)
    decreases k
  {
    if k > 0 {
      WrapPeriod(n, k - 1);
      var m := n + (k - 1) * TWO_64;
      assert n + k * TWO_64 == m + TWO_64;
      WrapOnce(m);
    }
  }

  lemma {:induction false} WrapOnce(n: int)
    ensures Wrap64(n + TWO_64) == Wrap64(n)
    decreases if n < MIN_INT64 then MIN_INT64 - n else 0
  {
    if n + TWO_64 < MIN_INT64 {
      WrapOnce(n + TWO_64);
    }
  }

  /** What wrapping takes away is a multiple of 2^64. */
  lemma {:induction false} WrapRemainder(n: int) returns (k: int)
    ensures n == Wrap64(n) + k * TWO_64
    decreases if n > MAX_INT64 then n - MAX_INT64 else if n < MIN_INT64 then MIN_INT64 - n else 0
  {
    if n > MAX_INT64 {
      var j := WrapRemainder(n - TWO_64);
      k := j + 1;
    } else if n < MIN_INT64 {
      var j := WrapRemainder(n + TWO_64);
      k := j - 1;
    } else {
      k := 0;
    }
  }

  /** Wrapping before an addition or only after it is the same. */
  lemma WrapAdds(a: int, b: int)
    ensures Wrap64(Wrap64(a) + b) == Wrap64(a + b)
  {
    var k := WrapRemainder(a);
    if k >= 0 { WrapPeriod(Wrap64(a) + b, k); } else { WrapPeriod(a + b, -k); }
  }

  lemma WrapInRange(n: int)
    ensures Wrap64(n) == n <==> MIN_INT64 <= n <= MAX_INT64
  {
  }

  predicate AllDigits(s: string) {
    s != "" && forall i :: 0 <= i < |s| ==> '0' <= s[i] <= '9'
  }

  function Digits(s: string): nat
    requires forall i :: 0 <= i < |s| ==> '0' <= s[i] <= '9'
  {
    if s == "" then 0 else 10 * Digits(s[..|s| - 1]) + (s[|s| - 1] as int - '0' as int)
  }

  /** strconv.ParseInt(s, 10, 64). */
  function ParseInt(s: string): Option<int> {
    var negative := s != "" && s[0] == '-';
    var body := if s != "" && (s[0] == '-' || s[0] == '+') then s[1..] else s;
    if !AllDigits(body) then None
    else
      var d: int := Digits(body);
      var n: int := if negative then -d else d;
      if MIN_INT64 <= n <= MAX_INT64 then Some(n) else None
  }

  /** strconv.FormatInt of a non-negative number. */
  function Decimal(n: nat): string {
    if n < 10 then [(n + '0' as int) as char] else Decimal(n / 10) + [(n % 10 + '0' as int) as char]
  }

  lemma {:induction false} DecimalDigits(n: nat)
    ensures AllDigits(Decimal(n)) && Digits(Decimal(n)) == n && (n > 0 ==> Decimal(n)[0] != '0')
  {
    var d := Decimal(n);
    if n < 10 {
      assert d[..0] == "";
    } else {
      DecimalDigits(n / 10);
      assert d[..|d| - 1] == Decimal(n / 10);
    }
  }

  function CapRetryAfter(d: int): int {
    if d > MAX_RETRY_AFTER then MAX_RETRY_AFTER else d
  }

  /** date is the instant http.ParseTime reads from the header, if any. */
  function ParseRetryAfter(header: string, date: Option<int>, now: int): Option<int> {
    var h := Text.TrimSpace(header);
    if h == "" then None
    else
      var secs := ParseInt(h);
      if secs.Some? && secs.value >= 0 then Some(CapRetryAfter(Wrap64(secs.value * SECOND)))
      else if date.Some? then Some(CapRetryAfter(if date.value - now < 0 then 0 else date.value - now))
      else None
  }

  /** What the header asks for: that many seconds, but at most ten minutes. */
  function Wanted(secs: nat): nat {
    if secs > 600 then MAX_RETRY_AFTER else secs * SECOND
  }

  /**
   * The seconds form is honoured exactly as long as the product fits into int64, that is up to 9223372036 seconds,
   * and beyond that only when the wrapped product happens to exceed the cap.
   */
  lemma SecondsAreHonoured(header: string, date: Option<int>, now: int, secs: nat)
    requires Text.TrimSpace(header) != "" && ParseInt(Text.TrimSpace(header)) == Some(secs)
    ensures ParseRetryAfter(header, date, now) == Some(Wanted(secs))
            <==> secs <= 9_223_372_036 || Wrap64(secs * SECOND) >= MAX_RETRY_AFTER
  {
    WrapInRange(secs * SECOND);
  }

  /** One second more gives a cooldown that ended centuries ago. */
  lemma WrappedRetryAfter(now: int)
    ensures var r := ParseRetryAfter(Decimal(9_223_372_037), None, now); r.Some? && r.value < -9_000_000_000_000_000_000
  {
    WrittenOut(9_223_372_037);
    WrapOnce(9_223_372_037 * SECOND - TWO_64);
  }

  /** A number in decimal notation is read back, and is not changed by trimming. */
  lemma WrittenOut(n: nat)
    requires n <= MAX_INT64
    ensures Text.TrimSpace(Decimal(n)) == Decimal(n) && ParseInt(Decimal(n)) == Some(n)
  {
    DecimalDigits(n);
    DigitsAreTrimmed(Decimal(n));
    DigitsAreParsed(Decimal(n));
  }

  lemma DigitsAreTrimmed(s: string)
    requires AllDigits(s)
    ensures Text.TrimSpace(s) == s
  {
    assert !Text.IsSpace(s[0]) && !Text.IsSpace(s[|s| - 1]);
  }

  lemma DigitsAreParsed(s: string)
    requires AllDigits(s) && Digits(s) <= MAX_INT64
    ensures ParseInt(s) == Some(Digits(s))
  {
    assert s[0] != '-' && s[0] != '+';
  }

  /** No delay exceeds ten minutes; a date gives the time until then, capped, and exactly a passed date gives none. */
  lemma RetryAfterIsCapped(header: string, date: Option<int>, now: int)
    ensures var r := ParseRetryAfter(header, date, now);
      r.Some? ==>
        && r.value <= MAX_RETRY_AFTER
        && (ParseInt(Text.TrimSpace(header)).None? ==>
              date.Some? && r.value >= 0 && (r.value == 0 <==> date.value <= now)
              && (now <= date.value <= now + MAX_RETRY_AFTER ==> now + r.value == date.value))
  {
  }
}
