/** Delay arithmetic of the forwarder (src/lib/domain/webhook/backoff.rs).

    `f64` is modelled as `real`, a `Duration` as a non-negative number of seconds and
    `Duration::as_secs` as the floor. `Duration::from_secs_f64` panics outside its range,
    so the functions that call it return a `Result`. */
module Backoff {
  import opened Wrappers

  const TWO_TO_63: int := 0x8000_0000_0000_0000
  const TWO_TO_64: int := 0x1_0000_0000_0000_0000

  /** `base` and `max` are whole seconds: both are built with `Duration::from_secs`. */
  datatype ForwardBackoff = ForwardBackoff(base: nat, multiplier: real, max: nat, jitter: real)

  datatype FailureKind = Transient | Rejected

  /** What start-up validation guarantees of a channel's resolved schedule
      (`Configuration.ValidationIsExact`), together with the range of a `u64`. */
  predicate Accepted(b: ForwardBackoff) {
    && 1 <= b.base <= b.max < TWO_TO_64
    && 1.0 <= b.multiplier
    && 0.0 <= b.jitter <= 1.0
  }

  /** A schedule whose ceiling also fits the `as i64` cast of the callers. */
  type SafeBackoff = b: ForwardBackoff | Accepted(b) && b.max < TWO_TO_63
    witness ForwardBackoff(30, 2.0, 3600, 0.2)

  function ClassifyStatus(status: int): (kind: FailureKind)
    ensures kind == Rejected <==> 400 <= status < 500 && status !in {408, 429}
  {
    if status == 408 || status == 429 then Transient
    else if 400 <= status < 500 then Rejected
    else Transient
  }

  function Power(m: real, n: nat): real {
    if n == 0 then 1.0 else m * Power(m, n - 1)
  }

  /** A product of two seconds-or-factor quantities. */
  function Scaled(x: real, factor: real): real {
    x * factor
  }

  function Min(x: real, y: real): real {
    if x <= y then x else y
  }

  function Clamp(x: int, low: int, high: int): int {
    if x < low then low else if high < x then high else x
  }

  /** `Duration::from_secs_f64`. */
  function FromSecs(seconds: real): Result<real, Panic> {
    if 0.0 <= seconds < TWO_TO_64 as real then Success(seconds) else Failure(DurationOutOfRange)
  }

  function DelayForAttempt(b: ForwardBackoff, attempts: int): Result<real, Panic> {
    var exponent := Clamp(attempts - 1, 0, 64);
    var seconds := Scaled(b.base as real, Power(b.multiplier, exponent));
    if seconds >= b.max as real then Success(b.max as real) else FromSecs(seconds)
  }

  function ApplyJitter(b: ForwardBackoff, delay: real, unit: real): Result<real, Panic> {
    if b.jitter <= 0.0 then Success(delay)
    else
      var offset := Scaled(b.jitter, 2.0 * ClampUnit(unit) - 1.0);
      var seconds := Scaled(delay, 1.0 + offset);
      var spread :- FromSecs(if seconds < 0.0 then 0.0 else seconds);
      Success(Min(spread, b.max as real))
  }

  function ClampUnit(unit: real): real {
    if unit < 0.0 then 0.0 else if 1.0 < unit then 1.0 else unit
  }

  function NextDelay(b: ForwardBackoff, kind: FailureKind, attempts: int,
                     retryAfter: Option<nat>, unit: real): Result<real, Panic>
  {
    if retryAfter.Some? then Success(Min(retryAfter.value as real, b.max as real))
    else if kind == Rejected then Success(b.max as real)
    else
      var delay :- DelayForAttempt(b, attempts);
      ApplyJitter(b, delay, unit)
  }

  /** What is left of a number in an `i64`, for numbers below 2^64: the cast of a `u64`, and
      a sum of two `i64` that the release build does not check for overflow. */
  function WrapI64(n: int): int {
    if n < TWO_TO_63 then n else n - TWO_TO_64
  }

  lemma {:induction false} WrapsInTwosComplement(n: int)
    requires -TWO_TO_63 <= n < TWO_TO_64
    ensures WrapI64(n) == (n + TWO_TO_63) % TWO_TO_64 - TWO_TO_63
  {
  }

  /** `now_unix() + delay.as_secs() as i64`. */
  function DueAt(now: int, seconds: nat): int {
    WrapI64(now + WrapI64(seconds))
  }

  /** Whatever delay and clock, the due time is an `i64` and differs from their sum by a
      multiple of 2^64. */
  lemma {:induction false} DueAtIsExact(now: int, seconds: nat)
    requires 0 <= now < TWO_TO_63 && seconds < TWO_TO_64
    ensures -TWO_TO_63 <= DueAt(now, seconds) < TWO_TO_63
    ensures DueAt(now, seconds) in {now + seconds, now + seconds - 0x1_0000_0000_0000_0000}
  {
  }

  // ---- the delay law ----

  /** The documented schedule: exponential growth from the interval up to the ceiling. */
  function Nominal(b: ForwardBackoff, attempts: int): real {
    Min(b.max as real, Scaled(b.base as real, Power(b.multiplier, Clamp(attempts - 1, 0, 64))))
  }

  lemma {:induction false} Scale(x: real, low: real, high: real)
    requires 0.0 <= x && low <= high
    ensures Scaled(x, low) <= Scaled(x, high)
  {
    assert x * (high - low) >= 0.0;
  }

  lemma {:induction false} PowerGrows(m: real, low: nat, high: nat)
    requires 1.0 <= m && low <= high
    ensures 1.0 <= Power(m, low) <= Power(m, high)
    decreases high
  {
    if high == 0 {
    } else if low == high {
      PowerGrows(m, low - 1, low - 1);
    } else {
      PowerGrows(m, low, high - 1);
    }
  }

  lemma {:induction false} PowerOfLargerBase(m: real, n: nat)
    requires 2.0 <= m
    ensures 1.0 <= Power(2.0, n) <= Power(m, n)
  {
    if n > 0 {
      PowerOfLargerBase(m, n - 1);
      Scale(Power(m, n - 1), 2.0, m);
    }
  }

  lemma {:induction false} PowerSquares(m: real, n: nat)
    ensures Power(m, 2 * n) == Power(m, n) * Power(m, n)
  {
    if n > 0 {
      PowerSquares(m, n - 1);
      var p := Power(m, n - 1);
      assert Power(m, 2 * n) == m * (m * Power(m, 2 * (n - 1)));
      assert m * (m * (p * p)) == (m * p) * (m * p);
    }
  }

  lemma {:induction false} TwoToThe64()
    ensures Power(2.0, 64) == TWO_TO_64 as real
  {
    PowerSquares(2.0, 1);
    PowerSquares(2.0, 2);
    PowerSquares(2.0, 4);
    PowerSquares(2.0, 8);
    PowerSquares(2.0, 16);
    PowerSquares(2.0, 32);
    assert Power(2.0, 1) == 2.0 * Power(2.0, 0);
  }

  /** The computed delay is the documented schedule, never panics, starts at the
      interval, never shrinks and stays put from the 65th failure on. */
  lemma {:induction false} DelayLaw(b: ForwardBackoff, attempts: int, later: int)
    requires Accepted(b) && attempts <= later
    ensures DelayForAttempt(b, attempts) == Success(Nominal(b, attempts))
    ensures attempts <= 1 ==> Nominal(b, attempts) == b.base as real
    ensures b.base as real <= Nominal(b, attempts) <= Nominal(b, later) <= b.max as real
    ensures attempts >= 65 ==> Nominal(b, later) == Nominal(b, attempts)
  {
    var low, high := Clamp(attempts - 1, 0, 64), Clamp(later - 1, 0, 64);
    var base, p, q := b.base as real, Power(b.multiplier, low), Power(b.multiplier, high);
    PowerGrows(b.multiplier, low, high);
    Scale(base, 1.0, p);
    Scale(base, p, q);
    assert Nominal(b, attempts) == Min(b.max as real, Scaled(base, p));
    assert Nominal(b, later) == Min(b.max as real, Scaled(base, q));
  }

  /** Each further failure multiplies the delay, up to the ceiling. */
  lemma {:induction false} EachFailureMultiplies(b: ForwardBackoff, attempts: int)
    requires Accepted(b)
    ensures attempts <= 1 ==> DelayForAttempt(b, attempts) == Success(b.base as real)
    ensures var delay, next := DelayForAttempt(b, attempts), DelayForAttempt(b, attempts + 1);
            && delay.Success? && next.Success?
            && (1 <= attempts < 65 ==> next.value == Min(Scaled(delay.value, b.multiplier), b.max as real))
            && (65 <= attempts ==> next.value == delay.value)
  {
    DelayLaw(b, attempts, attempts + 1);
    DelayLaw(b, attempts + 1, attempts + 1);
    if 1 <= attempts < 65 {
      NominalGrows(b, attempts);
    }
  }

  lemma {:induction false} NominalGrows(b: ForwardBackoff, attempts: int)
    requires Accepted(b) && 1 <= attempts < 65
    ensures Nominal(b, attempts + 1) == Min(Scaled(Nominal(b, attempts), b.multiplier), b.max as real)
  {
    var n: nat := attempts - 1;
    var power, next := Power(b.multiplier, n), Power(b.multiplier, n + 1);
    PowerGrows(b.multiplier, 0, n);
    GrowsByFactor(b.base as real, b.multiplier, power, b.max as real);
    assert next == b.multiplier * power;
    assert Nominal(b, attempts + 1) == Min(b.max as real, Scaled(b.base as real, next));
  }

  lemma {:induction false} GrowsByFactor(base: real, factor: real, power: real, max: real)
    requires 1.0 <= factor && 0.0 <= base && 0.0 <= power && 0.0 <= max
    ensures Min(max, Scaled(base, factor * power)) == Min(Scaled(Min(max, Scaled(base, power)), factor), max)
  {
    var x := Scaled(base, power);
    Scale(base, 0.0, power);
    assert Scaled(base, factor * power) == Scaled(x, factor);
    Capped(x, factor, max);
  }

  lemma {:induction false} Capped(x: real, factor: real, max: real)
    requires 1.0 <= factor && 0.0 <= x && 0.0 <= max
    ensures Min(max, Scaled(x, factor)) == Min(Scaled(Min(max, x), factor), max)
  {
    Scale(x, 1.0, factor);
    Scale(max, 1.0, factor);
  }

  /** The ceiling is ever reached exactly when 64 multiplications get there. */
  lemma {:induction false} CeilingReachedIff(b: ForwardBackoff)
    requires Accepted(b)
    ensures (exists attempts :: Nominal(b, attempts) == b.max as real)
        <==> Scaled(b.base as real, Power(b.multiplier, 64)) >= b.max as real
  {
    if attempts :| Nominal(b, attempts) == b.max as real {
      DelayLaw(b, attempts, if attempts <= 65 then 65 else attempts);
      DelayLaw(b, 65, if attempts <= 65 then 65 else attempts);
    }
    if Scaled(b.base as real, Power(b.multiplier, 64)) >= b.max as real {
      assert Nominal(b, 65) == b.max as real;
    }
  }

  /** With a multiplier of at least two every ceiling a `u64` can hold is reached. */
  lemma {:induction false} DoublingReachesCeiling(b: ForwardBackoff, attempts: int)
    requires Accepted(b) && b.multiplier >= 2.0 && attempts >= 65
    ensures Nominal(b, attempts) == b.max as real
  {
    TwoToThe64();
    PowerOfLargerBase(b.multiplier, 64);
    Scale(Power(b.multiplier, 64), 1.0, b.base as real);
  }

  // ---- the delay envelope ----

  lemma {:induction false} OffsetBand(jitter: real, unit: real)
    requires 0.0 <= jitter
    ensures -jitter <= Scaled(jitter, 2.0 * ClampUnit(unit) - 1.0) <= jitter
  {
    var u := 2.0 * ClampUnit(unit) - 1.0;
    Scale(jitter, -1.0, u);
    Scale(jitter, u, 1.0);
  }

  lemma {:induction false} Spread(delay: real, jitter: real, offset: real)
    requires 0.0 <= delay && jitter <= 1.0 && -jitter <= offset <= jitter
    ensures 0.0 <= Scaled(delay, 1.0 - jitter) <= Scaled(delay, 1.0 + offset) <= Scaled(delay, 1.0 + jitter)
    ensures Scaled(delay, 1.0 - jitter) <= delay <= Scaled(delay, 1.0 + jitter) <= 2.0 * delay
  {
    Scale(delay, 0.0, 1.0 - jitter);
    Scale(delay, 1.0 - jitter, 1.0 + offset);
    Scale(delay, 1.0 + offset, 1.0 + jitter);
    Scale(delay, 1.0 - jitter, 1.0);
    Scale(delay, 1.0, 1.0 + jitter);
    Scale(delay, 1.0 + jitter, 2.0);
  }

  /** Jitter keeps an unrequested transient delay within its band and under the ceiling. */
  lemma {:induction false} JitterBand(b: ForwardBackoff, delay: real, unit: real)
    requires Accepted(b) && 0.0 <= delay <= b.max as real
    requires b.jitter == 0.0 || Scaled(delay, 1.0 + b.jitter) < TWO_TO_64 as real
    ensures ApplyJitter(b, delay, unit).Success?
    ensures Scaled(delay, 1.0 - b.jitter) <= ApplyJitter(b, delay, unit).value
            <= Min(Scaled(delay, 1.0 + b.jitter), b.max as real)
  {
    OffsetBand(b.jitter, unit);
    Spread(delay, b.jitter, Scaled(b.jitter, 2.0 * ClampUnit(unit) - 1.0));
  }

  /** The unit moves the delay evenly from one end of the band to the other; a unit outside
      [0, 1] counts as the nearer end. */
  lemma {:induction false} JitterIsEven(b: ForwardBackoff, delay: real, unit: real)
    requires Accepted(b) && 0.0 <= delay <= b.max as real
    requires b.jitter == 0.0 || Scaled(delay, 1.0 + b.jitter) < TWO_TO_64 as real
    ensures var u := if unit <= 0.0 then 0.0 else if unit <= 1.0 then unit else 1.0;
            ApplyJitter(b, delay, unit)
            == Success(Min(Scaled(delay, 1.0 - b.jitter + Scaled(2.0 * b.jitter, u)), b.max as real))
  {
    var u := if unit <= 0.0 then 0.0 else if unit <= 1.0 then unit else 1.0;
    JitterBand(b, delay, unit);
    OffsetBand(b.jitter, unit);
    Spread(delay, b.jitter, Scaled(b.jitter, 2.0 * u - 1.0));
    EvenOffset(b.jitter, u);
    if b.jitter == 0.0 {
      assert Scaled(2.0 * b.jitter, u) == 0.0;
    }
  }

  lemma {:induction false} EvenOffset(jitter: real, u: real)
    ensures 1.0 + Scaled(jitter, 2.0 * u - 1.0) == 1.0 - jitter + Scaled(2.0 * jitter, u)
  {
  }

  /** For every accepted schedule that fits an `i64`, no input panics or exceeds the
      ceiling; a requested delay is honoured, a rejection waits for the ceiling and
      everything else stays within the jitter band around the documented schedule. */
  lemma {:induction false} DelayEnvelope(b: SafeBackoff, kind: FailureKind, attempts: int,
                      retryAfter: Option<nat>, unit: real)
    ensures NextDelay(b, kind, attempts, retryAfter, unit).Success?
    ensures var d := NextDelay(b, kind, attempts, retryAfter, unit).value;
            && 0.0 <= d <= b.max as real
            && (retryAfter.Some? ==> d == Min(retryAfter.value as real, b.max as real))
            && (retryAfter.None? && kind == Rejected ==> d == b.max as real)
            && (retryAfter.None? && kind == Transient ==>
                  Scaled(Nominal(b, attempts), 1.0 - b.jitter) <= d
                  <= Min(Scaled(Nominal(b, attempts), 1.0 + b.jitter), b.max as real))
  {
    DelayLaw(b, attempts, attempts);
    if retryAfter.None? && kind == Transient {
      Spread(Nominal(b, attempts), b.jitter, b.jitter);
      JitterBand(b, Nominal(b, attempts), unit);
    }
  }

  /** No argument at all makes `next_delay` panic exactly when the largest delay of the
      schedule still fits a `Duration` after the widest jitter, which a unit of 1.0 gives;
      the callers' unit, a fraction of a second, stays just below. */
  lemma {:induction false} PanicFreeIff(b: ForwardBackoff)
    requires Accepted(b)
    ensures (forall kind, attempts, retryAfter, unit ::
               NextDelay(b, kind, attempts, retryAfter, unit).Success?)
        <==> b.jitter == 0.0 || Scaled(Nominal(b, 65), 1.0 + b.jitter) < TWO_TO_64 as real
  {
    if b.jitter == 0.0 || Scaled(Nominal(b, 65), 1.0 + b.jitter) < TWO_TO_64 as real {
      forall kind, attempts, retryAfter, unit
        ensures NextDelay(b, kind, attempts, retryAfter, unit).Success?
      {
        NoPanic(b, kind, attempts, retryAfter, unit);
      }
    } else {
      DelayLaw(b, 65, 65);
      assert Scaled(b.jitter, 2.0 * ClampUnit(1.0) - 1.0) == b.jitter;
      assert NextDelay(b, Transient, 65, None, 1.0).Failure?;
    }
  }

  lemma {:induction false} NoPanic(b: ForwardBackoff, kind: FailureKind, attempts: int, retryAfter: Option<nat>,
                                   unit: real)
    requires Accepted(b)
    requires b.jitter == 0.0 || Scaled(Nominal(b, 65), 1.0 + b.jitter) < TWO_TO_64 as real
    ensures NextDelay(b, kind, attempts, retryAfter, unit).Success?
  {
    var most := if attempts <= 65 then 65 else attempts;
    DelayLaw(b, attempts, most);
    DelayLaw(b, 65, most);
    if b.jitter > 0.0 {
      Scale(1.0 + b.jitter, Nominal(b, attempts), Nominal(b, 65));
      JitterBand(b, Nominal(b, attempts), unit);
    }
  }

  // ---- whole seconds ----

  /** The offset a failed webhook is parked by: `delay.as_secs()`, which the cast to `i64`
      leaves alone. */
  function WholeDelay(b: SafeBackoff, kind: FailureKind, attempts: int,
                      retryAfter: Option<nat>, unit: real): (d: nat)
    ensures d <= b.max
  {
    DelayEnvelope(b, kind, attempts, retryAfter, unit);
    NextDelay(b, kind, attempts, retryAfter, unit).value.Floor
  }

  /** A failure is never parked before the moment it happened exactly when that moment and
      the ceiling together fit an `i64`; beyond, a rejection is due at once. */
  lemma {:induction false} NeverParkedInThePastIff(b: ForwardBackoff, now: int)
    requires Accepted(b) && 0 <= now < TWO_TO_63
    ensures (forall kind, attempts, retryAfter, unit ::
               var d := NextDelay(b, kind, attempts, retryAfter, unit);
               d.Success? ==> 0 <= d.value.Floor && now <= DueAt(now, d.value.Floor))
        <==> now + b.max < TWO_TO_63
  {
    if now + b.max < TWO_TO_63 {
      forall kind, attempts, retryAfter, unit
        ensures var d := NextDelay(b, kind, attempts, retryAfter, unit);
                d.Success? ==> 0 <= d.value.Floor && now <= DueAt(now, d.value.Floor)
      {
        DelayEnvelope(b, kind, attempts, retryAfter, unit);
      }
    } else {
      assert NextDelay(b, Rejected, 1, None, 0.0).value == b.max as real;
      assert DueAt(now, b.max) < now;
    }
  }

  /** The low end of the jitter band around the documented schedule, in whole seconds. */
  function Low(b: ForwardBackoff, attempts: int): int {
    Scaled(Nominal(b, attempts), 1.0 - b.jitter).Floor
  }

  /** The high end of the band, in whole seconds. */
  function High(b: ForwardBackoff, attempts: int): int {
    Min(Scaled(Nominal(b, attempts), 1.0 + b.jitter), b.max as real).Floor
  }

  /** The whole-second delay by branches: what was requested, the ceiling, or something
      within the band. */
  lemma {:induction false} WholeDelayIs(b: SafeBackoff, kind: FailureKind, attempts: int, retryAfter: Option<nat>,
                                        unit: real)
    ensures var delay := WholeDelay(b, kind, attempts, retryAfter, unit);
            match (retryAfter, kind)
            case (Some(requested), _) => delay == if requested < b.max then requested else b.max
            case (None, Rejected) => delay == b.max
            case (None, Transient) => Low(b, attempts) <= delay <= High(b, attempts)
  {
    DelayEnvelope(b, kind, attempts, retryAfter, unit);
  }

  /** Lower bounds of the whole-second delay: a rejection waits the full ceiling, an
      unrequested transient failure at least the low end of the jitter band. */
  lemma {:induction false} WholeDelayBounds(b: SafeBackoff, kind: FailureKind, attempts: int, unit: real)
    ensures kind == Rejected ==> WholeDelay(b, kind, attempts, None, unit) == b.max
    ensures Low(b, attempts) <= WholeDelay(b, kind, attempts, None, unit)
  {
    DelayEnvelope(b, kind, attempts, None, unit);
    DelayLaw(b, attempts, attempts);
    Spread(Nominal(b, attempts), b.jitter, b.jitter);
  }

  /** The least jitter takes an unrequested transient failure to the low end of its band. */
  lemma {:induction false} LowIsReached(b: SafeBackoff, attempts: int)
    ensures WholeDelay(b, Transient, attempts, None, 0.0) == Low(b, attempts)
  {
    DelayLaw(b, attempts, attempts);
    assert Scaled(b.jitter, 2.0 * ClampUnit(0.0) - 1.0) == -b.jitter;
    Spread(Nominal(b, attempts), b.jitter, -b.jitter);
  }

  lemma {:induction false} ScaleFrom(low: real, high: real, factor: real)
    requires low <= high && 0.0 <= factor
    ensures Scaled(low, factor) <= Scaled(high, factor)
  {
    assert (high - low) * factor >= 0.0;
  }

  lemma {:induction false} LowGrows(b: ForwardBackoff, attempts: int, later: int)
    requires Accepted(b) && attempts <= later
    ensures 0 <= Low(b, attempts) <= Low(b, later) <= b.max
    ensures attempts >= 65 ==> Low(b, attempts) == Low(b, later)
  {
    DelayLaw(b, attempts, later);
    Scale(Nominal(b, attempts), 0.0, 1.0 - b.jitter);
    ScaleFrom(Nominal(b, attempts), Nominal(b, later), 1.0 - b.jitter);
    Scale(Nominal(b, later), 1.0 - b.jitter, 1.0);
  }

  lemma {:induction false} LowEndIsLeast(b: SafeBackoff, kind: FailureKind, attempts: int, unit: real)
    ensures Low(b, 1) <= WholeDelay(b, kind, attempts, None, unit)
  {
    if attempts >= 1 {
      LowGrows(b, 1, attempts);
    } else {
      DelayLaw(b, attempts, 1);
    }
    WholeDelayBounds(b, kind, attempts, unit);
  }

  lemma {:induction false} PowerOfOne(n: nat)
    ensures Power(1.0, n) == 1.0
  {
    if n > 0 {
      PowerOfOne(n - 1);
    }
  }

  /** Without growth every delay can be as short as the interval. */
  lemma {:induction false} FlatStaysAtBase(b: ForwardBackoff, attempts: int)
    requires Accepted(b) && b.multiplier == 1.0
    ensures Low(b, attempts) <= b.base
  {
    PowerOfOne(Clamp(attempts - 1, 0, 64));
    Scale(b.base as real, 1.0 - b.jitter, 1.0);
  }

  /** Which refusals make a webhook wait for the whole ceiling, whatever their number and
      the jitter: those classified as rejections, and all of them if the schedule has
      nowhere to grow. */
  lemma {:induction false} WaitsForCeilingIff(b: SafeBackoff, status: int)
    ensures (forall attempts, unit :: WholeDelay(b, ClassifyStatus(status), attempts, None, unit) == b.max)
        <==> (400 <= status < 500 && status != 408 && status != 429) || (b.base == b.max && b.jitter == 0.0)
  {
    var low := Scaled(b.base as real, 1.0 - b.jitter);
    Scale(b.base as real, 1.0 - b.jitter, 1.0);
    LowIsReached(b, 1);
    DelayLaw(b, 1, 1);
    forall attempts, unit
      ensures Low(b, 1) <= WholeDelay(b, ClassifyStatus(status), attempts, None, unit)
      ensures ClassifyStatus(status) == Rejected ==>
          WholeDelay(b, ClassifyStatus(status), attempts, None, unit) == b.max
    {
      LowEndIsLeast(b, ClassifyStatus(status), attempts, unit);
      WholeDelayBounds(b, ClassifyStatus(status), attempts, unit);
    }
    if Low(b, 1) == b.max {
      assert low == b.base as real;
      NoJitter(b.base as real, b.jitter);
    }
  }

  lemma {:induction false} NoJitter(x: real, jitter: real)
    requires x >= 1.0 && Scaled(x, 1.0 - jitter) == x
    ensures jitter == 0.0
  {
    assert x * jitter == 0.0;
  }

  /** A failed webhook always waits longer than `gap` seconds, unless the target asks for
      less, exactly when the low end of the jitter band around the interval does; with a
      requested delay nothing but the ceiling is certain. */
  lemma {:induction false} WaitsLongerIff(b: SafeBackoff, gap: nat)
    ensures (forall kind, attempts, unit :: gap < WholeDelay(b, kind, attempts, None, unit))
        <==> gap < Low(b, 1)
    ensures WholeDelay(b, Transient, 1, Some(0), 0.0) == 0
  {
    LowIsReached(b, 1);
    forall kind, attempts, unit
      ensures Low(b, 1) <= WholeDelay(b, kind, attempts, None, unit)
    {
      LowEndIsLeast(b, kind, attempts, unit);
    }
    DelayEnvelope(b, Transient, 1, Some(0), 0.0);
  }
}
