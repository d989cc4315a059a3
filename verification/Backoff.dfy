/** Task retry parameters and the exponential back-off between the runs of one task. Delays are whole
    nanoseconds, as in Go's time.Duration; the growth is computed over the reals and truncated. */
module Backoff {

  import opened Prelude

  datatype RetryParams = RetryParams(
    maxRetries: int,
    initialDelaySec: int,
    maxDelaySec: Option<int>,
    factor: real)

  const SECOND: int := 1_000_000_000
  const MAX_RETRY_DELAY: int := 300 * SECOND

  /** What the validator tags demand of retry parameters. */
  predicate ValidRetry(p: RetryParams) {
    && p.maxRetries >= -1
    && p.initialDelaySec >= 1
    && (p.maxDelaySec.Some? ==> p.maxDelaySec.value >= 1)
    && p.factor >= 1.0
  }

  const TWO_64: int := 0x1_0000_0000_0000_0000
  const MAX_INT64: int := 0x7fff_ffff_ffff_ffff
  const MIN_INT64: int := -0x8000_0000_0000_0000

  /** The most seconds a time.Duration can hold. */
  const MAX_SECONDS: int := 9_223_372_036

  /** What an int64 keeps of an integer. */
  function Wrap(x: int): int {
    var low := x % TWO_64;
    if low > MAX_INT64 then low - TWO_64 else low
  }

  /** The seconds become nanoseconds in int64 arithmetic, before any float is involved. */
  function InitialDelay(p: RetryParams): int {
    Wrap(SECOND * p.initialDelaySec)
  }

  function MaxDelay(p: RetryParams): int {
    match p.maxDelaySec
    case None => 0
    case Some(sec) => Wrap(SECOND * sec)
  }

  /** The hard bound, lowered by the task's own bound when that is smaller. */
  function Ceiling(p: RetryParams): int {
    if 0 < MaxDelay(p) < MAX_RETRY_DELAY then MaxDelay(p) else MAX_RETRY_DELAY
  }

  function Power(base: real, n: nat): real {
    if n == 0 then 1.0 else base * Power(base, n - 1)
  }

  /** math.Pow with an integer exponent, for the non-zero bases a validated factor allows. */
  function Growth(p: RetryParams, retry: int): real {
    if retry >= 0 then Power(p.factor, retry)
    else if Power(p.factor, -retry) == 0.0 then 0.0
    else 1.0 / Power(p.factor, -retry)
  }

  predicate Exhausted(p: RetryParams, retry: int) {
    0 <= p.maxRetries <= retry
  }

  /** How long to wait before retry number `retry` (counted from 0); 0 says "stop retrying". */
  function NextDelay(p: RetryParams, retry: int): int {
    if Exhausted(p, retry) then 0 else Clip(RawDelay(p, retry), Ceiling(p))
  }

  function RawDelay(p: RetryParams, retry: int): real {
    Grown(InitialDelay(p), Growth(p, retry))
  }

  function Grown(delay: int, growth: real): real {
    delay as real * growth
  }

  /** The conversion to time.Duration, after the ceiling: towards zero, and no lower than an int64. */
  function Clip(delay: real, ceiling: int): int {
    if delay >= ceiling as real then ceiling
    else if delay >= 0.0 then delay.Floor
    else Max(-(-delay).Floor, MIN_INT64)
  }

  function Min(a: int, b: int): int {
    if a < b then a else b
  }

  function Max(a: int, b: int): int {
    if a < b then b else a
  }

  lemma {:induction false} PowerGrows(base: real, n: nat)
    requires base >= 1.0
    ensures 1.0 <= Power(base, n) <= Power(base, n + 1)
  {
    if n == 0 {
      ScaleUp(1.0, base);
    } else {
      PowerGrows(base, n - 1);
      ScaleUp(Power(base, n), base);
    }
  }

  lemma ScaleUp(x: real, k: real)
    requires x >= 0.0 && k >= 1.0
    ensures k * x >= x
  {
    assert k * x - x == (k - 1.0) * x;
  }

  lemma ScaleDown(x: real, y: real, k: real)
    requires x <= y && k <= 0.0
    ensures k * y <= k * x
  {
    assert k * y - k * x == k * (y - x);
  }

  lemma ScaleOrder(x: real, y: real, k: real)
    requires x <= y && k >= 0.0
    ensures k * x <= k * y
  {
    assert k * y - k * x == k * (y - x);
  }

  // ---- one retry -----------------------------------------------------------------------------

  /** The unclipped delay moves away from zero, retry after retry. */
  lemma RawDelayGrows(p: RetryParams, retry: nat)
    requires ValidRetry(p)
    ensures InitialDelay(p) >= 0 ==> InitialDelay(p) as real <= RawDelay(p, retry) <= RawDelay(p, retry + 1)
    ensures InitialDelay(p) <= 0 ==> RawDelay(p, retry + 1) <= RawDelay(p, retry) <= InitialDelay(p) as real
  {
    PowerGrows(p.factor, retry);
    GrownInOrder(InitialDelay(p), Power(p.factor, retry), Power(p.factor, retry + 1));
  }

  lemma GrownInOrder(delay: int, now: real, next: real)
    requires 1.0 <= now <= next
    ensures delay >= 0 ==> delay as real <= Grown(delay, now) <= Grown(delay, next)
    ensures delay <= 0 ==> Grown(delay, next) <= Grown(delay, now) <= delay as real
  {
    var k := delay as real;
    if delay >= 0 {
      ScaleOrder(1.0, now, k);
      ScaleOrder(now, next, k);
    }
    if delay <= 0 {
      ScaleDown(1.0, now, k);
      ScaleDown(now, next, k);
    }
  }

  lemma ClipOrder(x: real, y: real, ceiling: int)
    requires x <= y && ceiling >= 0
    ensures Clip(x, ceiling) <= Clip(y, ceiling) <= ceiling
  {
  }

  lemma ClipWhole(x: int, ceiling: int)
    requires ceiling >= 0 && MIN_INT64 <= x
    ensures Clip(x as real, ceiling) == Min(x, ceiling)
  {
  }

  lemma WrapRange(x: int)
    ensures MIN_INT64 <= Wrap(x) <= MAX_INT64
    ensures MIN_INT64 <= x <= MAX_INT64 ==> Wrap(x) == x
  {
  }

  /** The sign of the wrapped initial delay decides everything: a positive delay lies between it (or the
      ceiling, if that is lower) and the ceiling; a zero or negative one stays so, and the caller, who
      retries on a positive delay only, never retries. Used-up retries give 0. */
  lemma DelayBounds(p: RetryParams, retry: nat)
    requires ValidRetry(p)
    ensures NextDelay(p, retry) > 0 <==> !Exhausted(p, retry) && InitialDelay(p) > 0
    ensures NextDelay(p, retry) < 0 <==> !Exhausted(p, retry) && InitialDelay(p) < 0
    ensures !Exhausted(p, retry) && InitialDelay(p) >= 0 ==> Min(InitialDelay(p), Ceiling(p)) <= NextDelay(p, retry)
    ensures !Exhausted(p, retry) && InitialDelay(p) <= 0 ==> NextDelay(p, retry) <= InitialDelay(p)
    ensures NextDelay(p, retry) <= Ceiling(p)
  {
    RawDelayGrows(p, retry);
    WrapRange(SECOND * p.initialDelaySec);
    ClipWhole(InitialDelay(p), Ceiling(p));
    if InitialDelay(p) >= 0 {
      ClipOrder(InitialDelay(p) as real, RawDelay(p, retry), Ceiling(p));
    } else {
      ClipOrder(RawDelay(p, retry), InitialDelay(p) as real, Ceiling(p));
    }
  }

  // ---- the sequence of delays, told without the code's own arithmetic ------------------------

  /** `w` is what an int64 holds of so many seconds in nanoseconds: the one number in its range that differs
      from the product by a multiple of 2^64. */
  predicate Int64Nanos(sec: int, w: int) {
    -0x8000_0000_0000_0000 <= w <= 0x7fff_ffff_ffff_ffff && (1_000_000_000 * sec - w) % 0x1_0000_0000_0000_0000 == 0
  }

  lemma WrapIsInt64(x: int, w: int)
    requires MIN_INT64 <= w <= MAX_INT64 && (x - w) % TWO_64 == 0
    ensures Wrap(x) == w
  {
    var k := (x - w) / TWO_64;
    assert x == k * TWO_64 + w;
  }

  /** Five minutes, or the task's own bound if its nanoseconds lie below that and above zero. */
  ghost predicate Bound(p: RetryParams, c: int) {
    match p.maxDelaySec
    case None => c == 300_000_000_000
    case Some(sec) =>
      exists m :: Int64Nanos(sec, m) && c == if 0 < m < 300_000_000_000 then m else 300_000_000_000
  }

  /** `delay` is `x` cut off at the bound and truncated towards zero, within an int64. */
  predicate CutAndTruncated(x: real, c: int, delay: int) {
    if x >= c as real then delay == c
    else if x >= 0.0 then delay as real <= x < delay as real + 1.0
    else if x >= -0x8000_0000_0000_0000 as real then delay as real - 1.0 < x <= delay as real
    else delay == -0x8000_0000_0000_0000
  }

  predicate StartsAt(p: RetryParams, w: int, start: real) {
    Int64Nanos(p.initialDelaySec, w) && start == w as real
  }

  /** A sequence that starts at the initial delay and grows by the factor at each retry. */
  ghost predicate GrowsByFactor(p: RetryParams, d: int -> real) {
    && (exists w :: StartsAt(p, w, d(0)))
    && forall k: int :: d(k + 1) == p.factor * d(k)
  }

  lemma {:induction false} GrownIsPower(p: RetryParams, d: int -> real, k: nat)
    requires GrowsByFactor(p, d)
    ensures d(k) == d(0) * Power(p.factor, k)
  {
    if k == 0 {
    } else {
      GrownIsPower(p, d, k - 1);
      assert d((k - 1) + 1) == p.factor * d(k - 1);
      assert p.factor * (d(0) * Power(p.factor, k - 1)) == d(0) * (p.factor * Power(p.factor, k - 1));
    }
  }

  lemma {:induction false} ShrunkIsPower(p: RetryParams, d: int -> real, k: nat)
    requires GrowsByFactor(p, d)
    ensures d(0 - k) * Power(p.factor, k) == d(0)
  {
    if k == 0 {
    } else {
      ShrunkIsPower(p, d, k - 1);
      assert d((0 - k) + 1) == p.factor * d(0 - k);
      assert (p.factor * d(0 - k)) * Power(p.factor, k - 1) == d(0 - k) * (p.factor * Power(p.factor, k - 1));
    }
  }

  lemma RawDelayFollows(p: RetryParams, d: int -> real, k: int)
    requires ValidRetry(p) && GrowsByFactor(p, d)
    ensures d(0) == InitialDelay(p) as real && RawDelay(p, k) == d(k)
  {
    var w :| StartsAt(p, w, d(0));
    WrapIsInt64(SECOND * p.initialDelaySec, w);
    if k >= 0 { GrownIsPower(p, d, k); } else { ShrunkFollows(p, d, -k); }
  }

  lemma ShrunkFollows(p: RetryParams, d: int -> real, k: nat)
    requires ValidRetry(p) && GrowsByFactor(p, d) && k > 0
    ensures d(0) * Growth(p, 0 - k) == d(0 - k)
  {
    ShrunkIsPower(p, d, k);
    PowerGrows(p.factor, k);
    assert Growth(p, 0 - k) == 1.0 / Power(p.factor, k);
    Quotient(d(0), d(0 - k), Power(p.factor, k));
  }

  lemma Quotient(x: real, y: real, power: real)
    requires y * power == x && power >= 1.0
    ensures x * (1.0 / power) == y
  {
    assert power * (1.0 / power) == 1.0;
    assert x * (1.0 / power) == y * (power * (1.0 / power));
  }

  lemma CeilingIsBound(p: RetryParams, c: int)
    requires Bound(p, c)
    ensures c == Ceiling(p) && c > 0
  {
    if p.maxDelaySec.Some? {
      var m :| Int64Nanos(p.maxDelaySec.value, m) && c == if 0 < m < 300_000_000_000 then m else 300_000_000_000;
      WrapIsInt64(SECOND * p.maxDelaySec.value, m);
    }
  }

  /** Every delay, whatever the parameters: the initial delay grown by the factor once per retry before it,
      cut off at the bound and truncated; 0 when the retries are used up. */
  lemma DelayFollowsFactor(p: RetryParams, d: int -> real, c: int, k: int)
    requires ValidRetry(p) && GrowsByFactor(p, d) && Bound(p, c)
    ensures 0 <= p.maxRetries <= k ==> NextDelay(p, k) == 0
    ensures !(0 <= p.maxRetries <= k) ==> CutAndTruncated(d(k), c, NextDelay(p, k))
  {
    RawDelayFollows(p, d, k);
    CeilingIsBound(p, c);
  }

  /** With a whole factor and an initial delay that is not negative, each delay is the one before times the
      factor, up to the bound. */
  lemma WholeFactorMultiplies(p: RetryParams, factor: int, k: nat)
    requires ValidRetry(p) && p.factor == factor as real && InitialDelay(p) >= 0 && !Exhausted(p, k + 1)
    ensures NextDelay(p, k + 1) == Min(factor * NextDelay(p, k), Ceiling(p))
  {
    var whole := WholeDelay(p, factor, k);
    CeilingWithinPromise(p);
    NextRawDelay(p, k);
    WholeStep(factor, whole, Ceiling(p), RawDelay(p, k), RawDelay(p, k + 1));
  }

  lemma WholeStep(factor: int, whole: int, c: int, raw: real, next: real)
    requires factor >= 1 && whole >= 0 && c > 0 && raw == whole as real && next == factor as real * raw
    ensures Clip(next, c) == Min(factor * Clip(raw, c), c)
  {
    WholeProduct(whole, factor);
    BoundedProduct(factor, whole, c);
    ClipWhole(whole, c);
    ClipWhole(factor * whole, c);
  }

  lemma NextRawDelay(p: RetryParams, k: nat)
    ensures RawDelay(p, k + 1) == p.factor * RawDelay(p, k)
  {
    var x, power := InitialDelay(p) as real, Power(p.factor, k);
    assert x * (p.factor * power) == p.factor * (x * power);
  }

  lemma WholeProduct(x: int, factor: int)
    ensures factor as real * x as real == (factor * x) as real
  {
  }

  lemma BoundedProduct(factor: int, x: int, c: int)
    requires factor >= 1 && x >= 0 && c >= 0
    ensures factor * x >= 0
    ensures Min(factor * x, c) == Min(factor * Min(x, c), c)
  {
    assert x >= c ==> factor * x >= factor * c >= c by {
      assert factor * x - factor * c == factor * (x - c);
      assert factor * c - c == (factor - 1) * c;
    }
    assert factor * x - x == (factor - 1) * x;
  }

  lemma {:induction false} WholeDelay(p: RetryParams, factor: int, k: nat) returns (whole: int)
    requires ValidRetry(p) && p.factor == factor as real && InitialDelay(p) >= 0
    ensures whole >= 0 && RawDelay(p, k) == whole as real
  {
    if k == 0 {
      whole := InitialDelay(p);
    } else {
      var before := WholeDelay(p, factor, k - 1);
      whole := factor * before;
      NextRawDelay(p, k - 1);
      WholeProduct(before, factor);
      BoundedProduct(factor, before, 0);
    }
  }

  // ---- the promise in seconds ----------------------------------------------------------------

  /** The ceiling as documented: five minutes, lowered by the task's own bound when that is smaller. */
  function PromisedCeiling(p: RetryParams): int {
    match p.maxDelaySec
    case None => MAX_RETRY_DELAY
    case Some(sec) => Min(MAX_RETRY_DELAY, SECOND * sec)
  }

  /** The least wait as documented: the initial delay, lowered to the ceiling. */
  function PromisedLeast(p: RetryParams): int {
    Min(SECOND * p.initialDelaySec, PromisedCeiling(p))
  }

  /** Both numbers of seconds fit a time.Duration. */
  predicate SecondsFit(p: RetryParams) {
    p.initialDelaySec <= MAX_SECONDS && (p.maxDelaySec.Some? ==> p.maxDelaySec.value <= MAX_SECONDS)
  }

  /** With seconds that fit, the code computes with the documented numbers. */
  lemma FittingSecondsAreExact(p: RetryParams)
    requires ValidRetry(p) && SecondsFit(p)
    ensures InitialDelay(p) == SECOND * p.initialDelaySec > 0 && Ceiling(p) == PromisedCeiling(p)
  {
    WrapRange(SECOND * p.initialDelaySec);
    if p.maxDelaySec.Some? { WrapRange(SECOND * p.maxDelaySec.value); }
  }

  /** The ceiling is never above the documented one. */
  lemma CeilingWithinPromise(p: RetryParams)
    requires ValidRetry(p)
    ensures 0 < Ceiling(p) <= PromisedCeiling(p)
  {
    if p.maxDelaySec.Some? { WrapRange(SECOND * p.maxDelaySec.value); }
  }

  /** The documented bounds of one retry. */
  predicate AsPromised(p: RetryParams, retry: nat) {
    PromisedLeast(p) <= NextDelay(p, retry) <= PromisedCeiling(p)
  }

  /** Exactly when every retry waits as documented: if there is any retry at all, the lower of the wrapped
      initial delay and the ceiling must reach the documented least wait. */
  lemma PromiseKeptExactlyWhen(p: RetryParams)
    requires ValidRetry(p)
    ensures (forall retry: nat :: !Exhausted(p, retry) ==> AsPromised(p, retry)) <==>
            p.maxRetries == 0 || PromisedLeast(p) <= Min(InitialDelay(p), Ceiling(p))
  {
    CeilingWithinPromise(p);
    WrapRange(SECOND * p.initialDelaySec);
    if p.maxRetries != 0 {
      FirstDelay(p);
      if PromisedLeast(p) <= Min(InitialDelay(p), Ceiling(p)) {
        forall retry: nat | !Exhausted(p, retry) ensures AsPromised(p, retry) { DelayBounds(p, retry); }
      } else {
        assert !Exhausted(p, 0) && !AsPromised(p, 0);
      }
    }
  }

  lemma FirstDelay(p: RetryParams)
    requires ValidRetry(p) && p.maxRetries != 0
    ensures NextDelay(p, 0) == Min(InitialDelay(p), Ceiling(p))
  {
    WrapRange(SECOND * p.initialDelaySec);
    assert RawDelay(p, 0) == InitialDelay(p) as real;
    CeilingWithinPromise(p);
    ClipWhole(InitialDelay(p), Ceiling(p));
  }

  /** Seconds that fit are enough. */
  lemma FittingSecondsKeepPromise(p: RetryParams, retry: nat)
    requires ValidRetry(p) && SecondsFit(p) && !Exhausted(p, retry)
    ensures AsPromised(p, retry)
  {
    FittingSecondsAreExact(p);
    PromiseKeptExactlyWhen(p);
  }

  /** Seconds that do not fit: unlimited retries with an accepted initial delay, and the first delay is
      negative, so there is no retry; twice as many seconds wait about a third of a second instead of five
      minutes; and a bound of as many seconds lowers the ceiling to that third of a second. */
  lemma WrappedSeconds()
    ensures var p := RetryParams(-1, 9_223_372_037, None, 1.0);
            ValidRetry(p) && NextDelay(p, 0) < -9_223_372_036 * SECOND && PromisedLeast(p) == MAX_RETRY_DELAY
    ensures var p := RetryParams(-1, 18_446_744_074, None, 1.0);
            ValidRetry(p) && NextDelay(p, 0) == 290_448_384 && PromisedLeast(p) == MAX_RETRY_DELAY
    ensures var p := RetryParams(-1, 1, Some(18_446_744_074), 1.0);
            ValidRetry(p) && NextDelay(p, 0) == 290_448_384 && PromisedLeast(p) == SECOND
  {
    FirstDelay(RetryParams(-1, 9_223_372_037, None, 1.0));
    FirstDelay(RetryParams(-1, 18_446_744_074, None, 1.0));
    FirstDelay(RetryParams(-1, 1, Some(18_446_744_074), 1.0));
  }

  // ---- retries in sequence -------------------------------------------------------------------

  /** A later retry never waits less than an earlier one if the wrapped initial delay is not negative, and
      never more if it is not positive. */
  lemma {:induction false} DelayMonotone(p: RetryParams, early: nat, late: nat)
    requires ValidRetry(p) && early <= late && !Exhausted(p, late)
    ensures InitialDelay(p) >= 0 ==> NextDelay(p, early) <= NextDelay(p, late)
    ensures InitialDelay(p) <= 0 ==> NextDelay(p, late) <= NextDelay(p, early)
    decreases late - early
  {
    if early == late {
    } else {
      DelayMonotone(p, early, late - 1);
      RawDelayGrows(p, late - 1);
      if InitialDelay(p) >= 0 { ClipOrder(RawDelay(p, late - 1), RawDelay(p, late), Ceiling(p)); }
      if InitialDelay(p) <= 0 { ClipOrder(RawDelay(p, late), RawDelay(p, late - 1), Ceiling(p)); }
    }
  }

  /** Exactly when unlimited retries never wait less than earlier ones: no negative initial delay, or
      nothing that makes it fall (a factor of one, or the least int64 to begin with). */
  lemma MonotoneExactlyWhen(p: RetryParams)
    requires ValidRetry(p) && p.maxRetries == -1
    ensures (forall early: nat, late: nat :: early <= late ==> NextDelay(p, early) <= NextDelay(p, late)) <==>
            InitialDelay(p) >= 0 || p.factor == 1.0 || InitialDelay(p) == MIN_INT64
  {
    FirstDelay(p);
    CeilingWithinPromise(p);
    WrapRange(SECOND * p.initialDelaySec);
    if InitialDelay(p) >= 0 || p.factor == 1.0 || InitialDelay(p) == MIN_INT64 {
      forall early: nat, late: nat | early <= late ensures NextDelay(p, early) <= NextDelay(p, late) {
        if InitialDelay(p) >= 0 {
          DelayMonotone(p, early, late);
        } else {
          DelayStays(p, early);
          DelayStays(p, late);
        }
      }
    } else {
      var late := DelayFalls(p);
      assert NextDelay(p, late) < NextDelay(p, 0);
    }
  }

  lemma DelayStays(p: RetryParams, retry: nat)
    requires ValidRetry(p) && p.maxRetries == -1 && InitialDelay(p) < 0
    requires p.factor == 1.0 || InitialDelay(p) == MIN_INT64
    ensures NextDelay(p, retry) == InitialDelay(p)
  {
    WrapRange(SECOND * p.initialDelaySec);
    RawDelayGrows(p, retry);
    CeilingWithinPromise(p);
    ClipWhole(InitialDelay(p), Ceiling(p));
    if p.factor == 1.0 {
      PowerOfOne(retry);
    } else {
      ClipOrder(RawDelay(p, retry), InitialDelay(p) as real, Ceiling(p));
    }
  }

  lemma {:induction false} PowerOfOne(n: nat)
    ensures Power(1.0, n) == 1.0
  {
    if n == 0 {
    } else {
      PowerOfOne(n - 1);
    }
  }

  lemma DelayFalls(p: RetryParams) returns (late: nat)
    requires ValidRetry(p) && p.maxRetries == -1 && MIN_INT64 < InitialDelay(p) < 0 && p.factor > 1.0
    ensures NextDelay(p, late) < InitialDelay(p)
  {
    late := Doubles(p.factor);
    CeilingWithinPromise(p);
    GrownPastDouble(InitialDelay(p), Power(p.factor, late));
    ClipOrder(RawDelay(p, late), (2 * InitialDelay(p)) as real, Ceiling(p));
  }

  lemma GrownPastDouble(delay: int, growth: real)
    requires growth >= 2.0 && delay <= 0
    ensures Grown(delay, growth) <= (2 * delay) as real
  {
    ScaleDown(2.0, growth, delay as real);
  }

  /** Powers of a base above one pass two. */
  lemma Doubles(base: real) returns (n: nat)
    requires base > 1.0
    ensures Power(base, n) >= 2.0
  {
    n := (1.0 / (base - 1.0)).Floor + 1;
    PowerAtLeast(base, n);
    assert n as real * (base - 1.0) >= 1.0;
  }

  lemma {:induction false} PowerAtLeast(base: real, n: nat)
    requires base >= 1.0
    ensures Power(base, n) >= 1.0 + n as real * (base - 1.0)
  {
    if n == 0 {
    } else {
      PowerAtLeast(base, n - 1);
      PowerGrows(base, n - 1);
      var k := (n - 1) as real;
      assert n as real == k + 1.0;
      OneMorePower(base - 1.0, k, Power(base, n - 1));
    }
  }

  lemma OneMorePower(x: real, k: real, before: real)
    requires x >= 0.0 && before >= 1.0 && before >= 1.0 + k * x
    ensures (1.0 + x) * before >= 1.0 + (k + 1.0) * x
  {
    assert (1.0 + x) * before == before + x * before;
    ScaleOrder(1.0, before, x);
    assert (k + 1.0) * x == k * x + x;
  }

  function TotalDelay(p: RetryParams, retries: nat): int {
    if retries == 0 then 0 else TotalDelay(p, retries - 1) + NextDelay(p, retries - 1)
  }

  /** However many retries are asked for, a task with a retry limit waits at most limit-many ceilings in
      all; and exactly when the wrapped initial delay is negative and there is a retry, the sum is negative. */
  lemma {:induction false} ChainDelayBounded(p: RetryParams, retries: nat)
    requires ValidRetry(p) && p.maxRetries >= 0
    ensures TotalDelay(p, retries) <= Min(retries, p.maxRetries) * Ceiling(p)
    ensures TotalDelay(p, retries) < 0 <==> InitialDelay(p) < 0 && Min(retries, p.maxRetries) > 0
  {
    if retries == 0 {
    } else {
      ChainDelayBounded(p, retries - 1);
      DelayBounds(p, retries - 1);
      OneMore(Min(retries - 1, p.maxRetries), Ceiling(p));
    }
  }

  lemma OneMore(k: int, x: int)
    ensures (k + 1) * x == k * x + x
  {
  }
}
