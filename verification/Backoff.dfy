/** Retry delays (backoff/backoff.go): 64-bit exponential backoff, and adapters for stateful sources. */
module Backoffs {
  import opened Messages

  // ---- 64-bit arithmetic -----------------------------------------------------------

  const TWO_62 := 0x4000_0000_0000_0000
  const TWO_63 := 0x8000_0000_0000_0000
  const TWO_64 := 0x1_0000_0000_0000_0000

  predicate Int64(x: int) {
    -TWO_63 <= x < TWO_63
  }

  /** The int64 that the low 64 bits of `x` spell. */
  function Wrap(x: int): (w: int)
    ensures Int64(w) && (w - x) % TWO_64 == 0
    ensures Int64(x) ==> w == x
  {
    (x + TWO_63) % TWO_64 - TWO_63
  }

  function Pow2(n: nat): (p: nat)
    ensures p >= 1
  {
    if n == 0 then 1 else 2 * Pow2(n - 1)
  }

  lemma {:induction false} Pow2Monotone(a: nat, b: nat)
    requires a <= b
    ensures Pow2(a) <= Pow2(b)
    decreases b
  {
    if a < b { Pow2Monotone(a, b - 1); }
  }

  lemma {:induction false} Pow2Adds(a: nat, b: nat)
    ensures Pow2(a + b) == Pow2(a) * Pow2(b)
  {
    if a > 0 {
      Pow2Adds(a - 1, b);
      assert Pow2(a) * Pow2(b) == 2 * (Pow2(a - 1) * Pow2(b));
    }
  }

  lemma Pow2At62()
    ensures Pow2(62) == TWO_62 && Pow2(63) == TWO_63 && Pow2(64) == TWO_64
  {
    assert Pow2(8) == 0x100;
    Pow2Adds(8, 8);
    Pow2Adds(16, 16);
    Pow2Adds(32, 30);
    Pow2Adds(16, 14);
    assert Pow2(6) == 64;
    Pow2Adds(8, 6);
  }

  // ---- Exp -------------------------------------------------------------------------

  /** A delay, or the panic of rand.Int64N for an argument that is not positive. */
  datatype Outcome = Delay(value: Duration) | Panicked

  /** The exponent for an attempt: attempts count from one, and lower ones count as the first. */
  function Exponent(attempt: int): nat {
    Max(attempt, 1) - 1
  }

  function Shift(attempt: int): nat {
    if Exponent(attempt) > 62 then 62 else Exponent(attempt)
  }

  /** The delay before jitter. */
  function Computed(base: Duration, maxDelay: Duration, attempt: int): Duration {
    Tested(base, maxDelay, Wrap(base * Pow2(Shift(attempt))))
  }

  /** The overflow test and the cap, applied to the shifted base. */
  function Tested(base: Duration, maxDelay: Duration, shifted: Duration): Duration {
    var checked := if shifted < base then maxDelay else shifted;
    if maxDelay > 0 && checked > maxDelay then maxDelay else checked
  }

  /**
   Configurations for which the delay comes out as the largest int64: it is the cap and
   the shift overflows, or it is the base, at its first attempt, and not capped below.
   */
  predicate Unbounded(base: Duration, maxDelay: Duration, attempt: int) {
    || (maxDelay == TWO_63 - 1 && Wrap(base * Pow2(Shift(attempt))) < base)
    || (base == TWO_63 - 1 && attempt <= 1 && (maxDelay <= 0 || maxDelay == TWO_63 - 1))
  }

  lemma UnboundedIff(base: Duration, maxDelay: Duration, attempt: int)
    requires Int64(base) && Int64(maxDelay)
    ensures Computed(base, maxDelay, attempt) == TWO_63 - 1 <==> Unbounded(base, maxDelay, attempt)
  {
    LargestIff(base, maxDelay, Wrap(base * Pow2(Shift(attempt))));
    ShiftedIsLargestIff(base, Shift(attempt));
  }

  lemma LargestIff(base: Duration, maxDelay: Duration, shifted: Duration)
    requires Int64(base) && Int64(maxDelay) && Int64(shifted)
    ensures Tested(base, maxDelay, shifted) == TWO_63 - 1 <==>
            (maxDelay == TWO_63 - 1 && shifted < base)
            || (shifted == TWO_63 - 1 && (maxDelay <= 0 || maxDelay == TWO_63 - 1))
  {
  }

  lemma ShiftedIsLargestIff(base: Duration, s: nat)
    requires Int64(base)
    ensures Wrap(base * Pow2(s)) == TWO_63 - 1 <==> base == TWO_63 - 1 && s == 0
  {
    if s > 0 {
      Regroup(base, 2, Pow2(s - 1));
      assert base * Pow2(s) == 2 * (base * Pow2(s - 1));
      WrapIsEven(base * Pow2(s - 1));
    }
  }

  /** A value shifted at least once is even, so never the largest int64. */
  lemma WrapIsEven(x: int)
    ensures Wrap(2 * x) != TWO_63 - 1
  {
    var k := (Wrap(2 * x) - 2 * x) / TWO_64;
    assert Wrap(2 * x) == 2 * x + k * TWO_64;
  }

  /** Exp: `draw(n)` is what rand.Int64N(n) returns. */
  method Exp(base: Duration, maxDelay: Duration, jitter: bool, attempt: int, draw: int -> int) returns (r: Outcome)
    requires Int64(base) && Int64(maxDelay)
    requires forall n :: n > 0 ==> 0 <= draw(n) < n
    ensures !jitter ==> r == Delay(Computed(base, maxDelay, attempt))
    ensures jitter ==> (r.Panicked? <==> Unbounded(base, maxDelay, attempt))
    ensures jitter && 0 <= Computed(base, maxDelay, attempt) < TWO_63 - 1 ==>
              r == Delay(draw(Computed(base, maxDelay, attempt) + 1))  // 0 up to the computed delay
    ensures jitter && Computed(base, maxDelay, attempt) < 0 ==> r == Delay(Computed(base, maxDelay, attempt))
  {
    UnboundedIff(base, maxDelay, attempt);
    var n := attempt;
    if n < 1 {
      n := 1;
    }
    var shift := n - 1;
    if shift > 62 {
      shift := 62;
    }
    var d := ShiftLeft(base, shift);
    if d < base {
      d := maxDelay;
    }
    if maxDelay > 0 && d > maxDelay {
      d := maxDelay;
    }
    if jitter && d > 0 {
      r := Jittered(d, draw);
      return;
    }
    r := Delay(d);
  }

  /** `rand.Int64N(int64(d) + 1)`, which panics for a bound that is not positive. */
  method Jittered(d: Duration, draw: int -> int) returns (r: Outcome)
    requires 0 < d < TWO_63 && forall n :: n > 0 ==> 0 <= draw(n) < n
    ensures r.Panicked? <==> d == TWO_63 - 1
    ensures r.Delay? ==> r == Delay(draw(d + 1))
  {
    var bound := Wrap(d + 1);
    if bound <= 0 {
      return Panicked;
    }
    r := Delay(draw(bound));
  }

  /** Go's `<<` on int64: one doubling at a time, dropping the bit that overflows. */
  method ShiftLeft(x: int, n: nat) returns (y: int)
    requires Int64(x)
    ensures y == Wrap(x * Pow2(n))
  {
    y := x;
    var i := 0;
    while i < n
      invariant i <= n && y == Wrap(x * Pow2(i))
    {
      WrapDoubles(x * Pow2(i));
      assert 2 * (x * Pow2(i)) == x * Pow2(i + 1);
      y := Wrap(2 * y);
      i := i + 1;
    }
  }

  lemma WrapDoubles(x: int)
    ensures Wrap(2 * Wrap(x)) == Wrap(2 * x)
  {
    var k := (Wrap(x) - x) / TWO_64;
    assert Wrap(x) == x + k * TWO_64;
    WrapShifts(2 * x, 2 * k);
  }

  lemma WrapShifts(x: int, k: int)
    ensures Wrap(x + k * TWO_64) == Wrap(x)
  {
    var a, b := Wrap(x + k * TWO_64), Wrap(x);
    assert (a - b) % TWO_64 == 0 by {
      var p, q := (a - (x + k * TWO_64)) / TWO_64, (b - x) / TWO_64;
      assert a - b == (p + k - q) * TWO_64;
    }
  }

  // ---- what Exp promises ------------------------------------------------------------

  /** The documented delay: `base` doubled each attempt, capped at `maxDelay`. */
  function Promised(base: Duration, maxDelay: Duration, attempt: int): Duration {
    var doubled := base * Pow2(Exponent(attempt));
    if doubled > maxDelay then maxDelay else doubled
  }

  /** The shifted value overflows, yet wraps to something between base and cap: `d < base` does not notice. */
  predicate Escapes(base: Duration, maxDelay: Duration, attempt: int) {
    var doubled := base * Pow2(Shift(attempt));
    doubled >= TWO_63 && base <= Wrap(doubled) < maxDelay
  }

  /** The shift is clamped at 62 where only a larger one would reach the cap. */
  predicate Clamped(base: Duration, maxDelay: Duration, attempt: int) {
    base == 1 && Exponent(attempt) > 62 && maxDelay > TWO_62
  }

  /**
   With a cap, Exp keeps its promise exactly when no overflow escapes its test and the
   clamp does no harm; a negative base it doubles at no attempt but the first.
   */
  lemma ExpIsExactIff(base: Duration, maxDelay: Duration, attempt: int)
    requires Int64(base) && Int64(maxDelay) && maxDelay > 0
    ensures Computed(base, maxDelay, attempt) == Promised(base, maxDelay, attempt)
            <==> (base >= 0 && !Escapes(base, maxDelay, attempt) && !Clamped(base, maxDelay, attempt))
                 || (base < 0 && attempt <= 1)
  {
    if base < 0 {
      NegativeBase(base, maxDelay, attempt);
    } else {
      CappedIsExactIff(base, maxDelay, attempt);
    }
  }

  lemma NegativeBase(base: Duration, maxDelay: Duration, attempt: int)
    requires Int64(base) && Int64(maxDelay) && base < 0
    ensures attempt <= 1 ==> Computed(base, maxDelay, attempt) == base
    ensures attempt > 1 && maxDelay > 0 ==> Computed(base, maxDelay, attempt) != base * Pow2(Exponent(attempt))
    ensures attempt > 1 && maxDelay <= 0 ==>
      (Computed(base, maxDelay, attempt) == base * Pow2(Exponent(attempt)) <==> maxDelay == base * Pow2(Exponent(attempt)))
    ensures base * Pow2(Exponent(attempt)) < 0
  {
    var e, s := Exponent(attempt), Shift(attempt);
    Scaled(-base, 1, Pow2(e));
    if attempt > 1 {
      Pow2Monotone(s, e);
      Scaled(-base, Pow2(s), Pow2(e));
      Scaled(-base, 2, Pow2(s));
      NegativeIsNotDoubled(base, maxDelay, base * Pow2(s), base * Pow2(e));
    }
  }

  lemma NegativeIsNotDoubled(base: Duration, maxDelay: Duration, shifted: int, full: int)
    requires Int64(base) && Int64(maxDelay) && full <= shifted <= 2 * base < 0
    ensures if maxDelay > 0 then Tested(base, maxDelay, Wrap(shifted)) != full
            else Tested(base, maxDelay, Wrap(shifted)) == full <==> maxDelay == full
  {
    if shifted >= -TWO_63 {
      assert Wrap(shifted) == shifted;
    }
  }

  lemma CappedIsExactIff(base: Duration, maxDelay: Duration, attempt: int)
    requires Int64(base) && Int64(maxDelay) && base >= 0 && maxDelay > 0
    ensures Computed(base, maxDelay, attempt) == Promised(base, maxDelay, attempt)
            <==> !Escapes(base, maxDelay, attempt) && !Clamped(base, maxDelay, attempt)
  {
    var e, s := Exponent(attempt), Shift(attempt);
    Pow2At62();
    Pow2Monotone(s, e);
    Scaled(base, Pow2(s), Pow2(e));
    Scaled(base, 1, Pow2(s));
    if e > 62 {
      Pow2Monotone(63, e);
      if base >= 1 { Scaled(Pow2(e), 1, base); }
      if base >= 2 { Scaled(TWO_62, 2, base); }
    }
    CapsExactlyIff(base, maxDelay, base * Pow2(s), base * Pow2(e));
  }

  /** `doubled` is what the code shifts to, before wrapping; `full` the delay without cap. */
  lemma CapsExactlyIff(base: int, maxDelay: int, doubled: int, full: int)
    requires 0 < maxDelay < TWO_63 && 0 <= base <= doubled <= full
    requires doubled == full || full >= TWO_63
    ensures Tested(base, maxDelay, Wrap(doubled)) == (if full > maxDelay then maxDelay else full)
            <==> !(doubled >= TWO_63 && base <= Wrap(doubled) < maxDelay) && !(doubled < full && doubled < maxDelay)
  {
  }

  lemma Scaled(x: nat, a: nat, b: nat)
    requires a <= b
    ensures x * a <= x * b
  {
  }

  /**
   Without a cap it does so exactly as long as the doubled delay fits: on overflow it
   never does. A negative base is doubled only at the first attempt; from then on the
   result is `maxDelay`, whatever that is.
   */
  lemma UncappedIsExactIff(base: Duration, maxDelay: Duration, attempt: int)
    requires Int64(base) && Int64(maxDelay) && maxDelay <= 0
    ensures Computed(base, maxDelay, attempt) == base * Pow2(Exponent(attempt))
            <==> if base >= 0 then base * Pow2(Exponent(attempt)) < TWO_63
                 else attempt <= 1 || maxDelay == base * Pow2(Exponent(attempt))
  {
    if base < 0 {
      NegativeBase(base, maxDelay, attempt);
    } else {
      UncappedFits(base, maxDelay, attempt);
    }
  }

  lemma UncappedFits(base: Duration, maxDelay: Duration, attempt: int)
    requires Int64(base) && Int64(maxDelay) && base >= 0 && maxDelay <= 0
    ensures Computed(base, maxDelay, attempt) == base * Pow2(Exponent(attempt))
            <==> base * Pow2(Exponent(attempt)) < TWO_63
  {
    var e, s := Exponent(attempt), Shift(attempt);
    Pow2At62();
    Scaled(base, 1, Pow2(s));
    if e > 62 {
      Pow2Monotone(63, e);
      if base >= 1 { Scaled(Pow2(e), 1, base); }
    }
  }

  /**
   A bound a configuration can be checked against. If `base` is `m` times a power of
   two, the overflow test is sound for every attempt once `m * maxDelay` is at most
   2^63: whatever survives the wrap is a positive multiple of a power of two that
   is already as large as the cap.
   */
  lemma SmallConfigIsExact(base: Duration, maxDelay: Duration, m: nat, t: nat, attempt: int)
    requires Int64(base) && base > 0 && 0 < maxDelay <= TWO_62
    requires base == m * Pow2(t) && m * maxDelay <= TWO_63
    ensures Computed(base, maxDelay, attempt) == Promised(base, maxDelay, attempt)
  {
    var s := Shift(attempt);
    Pow2Adds(t, s);
    Regroup(m, Pow2(t), Pow2(s));
    if base * Pow2(s) >= TWO_63 && Wrap(base * Pow2(s)) >= base {
      SurvivorIsLarge(m, t + s);
      Cancel(m, maxDelay, Pow2(t + s));
    }
    ExpIsExactIff(base, maxDelay, attempt);
  }

  lemma Regroup(a: int, b: int, c: int)
    ensures a * b * c == a * (b * c)
  {
  }

  lemma Cancel(m: nat, x: int, y: int)
    requires m * x <= TWO_63 <= m * y
    ensures x <= y
  {
    if m > 0 && x > y { StrictlyScaled(m, y, x); }
  }

  lemma StrictlyScaled(m: nat, y: int, x: int)
    requires m > 0 && y < x
    ensures m * y < m * x
  {
  }

  /** A positive wrapped multiple of 2^p is at least 2^p. */
  lemma SurvivorIsLarge(m: nat, p: nat)
    requires Wrap(m * Pow2(p)) > 0
    ensures Wrap(m * Pow2(p)) >= Pow2(p)
  {
    Pow2At62();
    var w := Wrap(m * Pow2(p));
    var k := (w - m * Pow2(p)) / TWO_64;
    assert w == m * Pow2(p) + k * TWO_64;
    if p <= 64 {
      Pow2Adds(p, 64 - p);
      MultipleIsLarge(w, m, Pow2(p), k, Pow2(64 - p));
    } else {
      Pow2Adds(64, p - 64);
      Regroup(m, Pow2(p - 64), TWO_64);
      WrapShifts(0, m * Pow2(p - 64));
    }
  }

  lemma MultipleIsLarge(w: int, m: int, q: nat, k: int, c: int)
    requires w == m * q + k * (q * c) && w > 0
    ensures w >= q
  {
    var f := m + k * c;
    Regroup(k, c, q);
    assert w == f * q;
    if f <= 0 { Negative(f, q); } else { Scaled(q, 1, f); }
  }

  lemma Negative(f: int, x: nat)
    requires f <= 0
    ensures f * x <= 0
  {
  }

  /** Such a backoff never shrinks from one attempt to a later one, and stays positive and within the cap. */
  lemma SmallConfigIsMonotone(base: Duration, maxDelay: Duration, m: nat, t: nat, a: int, b: int)
    requires Int64(base) && base > 0 && 0 < maxDelay <= TWO_62
    requires base == m * Pow2(t) && m * maxDelay <= TWO_63 && a <= b
    ensures 0 < Computed(base, maxDelay, a) <= Computed(base, maxDelay, b) <= maxDelay
  {
    SmallConfigIsExact(base, maxDelay, m, t, a);
    SmallConfigIsExact(base, maxDelay, m, t, b);
    Pow2Monotone(Exponent(a), Exponent(b));
    Scaled(base, Pow2(Exponent(a)), Pow2(Exponent(b)));
    Scaled(base, 1, Pow2(Exponent(a)));
  }

  /** The series itself: the first delay is the base, and every next one twice the last, up to the cap. */
  lemma SmallConfigDoubles(base: Duration, maxDelay: Duration, m: nat, t: nat, n: int)
    requires Int64(base) && base > 0 && 0 < maxDelay <= TWO_62
    requires base == m * Pow2(t) && m * maxDelay <= TWO_63
    ensures n <= 1 ==> Computed(base, maxDelay, n) == if base > maxDelay then maxDelay else base
    ensures n >= 1 ==>
      Computed(base, maxDelay, n + 1) ==
      if 2 * Computed(base, maxDelay, n) > maxDelay then maxDelay else 2 * Computed(base, maxDelay, n)
  {
    SmallConfigIsExact(base, maxDelay, m, t, n);
    SmallConfigIsExact(base, maxDelay, m, t, n + 1);
    PromisedDoubles(base, maxDelay, n);
  }

  lemma PromisedDoubles(base: Duration, maxDelay: Duration, n: int)
    requires base > 0 && maxDelay > 0
    ensures n <= 1 ==> Promised(base, maxDelay, n) == if base > maxDelay then maxDelay else base
    ensures n >= 1 ==>
      Promised(base, maxDelay, n + 1) ==
      if 2 * Promised(base, maxDelay, n) > maxDelay then maxDelay else 2 * Promised(base, maxDelay, n)
  {
    if n >= 1 {
      Regroup(2, base, Pow2(n - 1));
      Regroup(base, 2, Pow2(n - 1));
    }
  }

  const MILLISECOND := 1_000_000
  const SECOND := 1_000_000_000

  /** The default, 100 ms doubling up to 30 s, is within the bound. */
  lemma DefaultIsExact(attempt: int)
    ensures Computed(100 * MILLISECOND, 30 * SECOND, attempt) == Promised(100 * MILLISECOND, 30 * SECOND, attempt)
  {
    assert Pow2(0) == 1;
    SmallConfigIsExact(100 * MILLISECOND, 30 * SECOND, 100 * MILLISECOND, 0, attempt);
  }

  /** A cap does not always cap: about 18 and 37 minutes, and attempt 25 waits less than attempt 2. */
  lemma OverflowEscapes()
    ensures var base, cap := 0x100_0001_0001, 0x200_0000_0000;
            && Computed(base, cap, 2) == Promised(base, cap, 2) == cap
            && Promised(base, cap, 25) == cap
            && Computed(base, cap, 25) == 0x100_0100_0000 < cap
  {
    assert Pow2(8) == 0x100;
    Pow2Adds(8, 8);
    Pow2Adds(8, 16);
    assert Pow2(1) == 2;
  }

  lemma Pow2At34()
    ensures Pow2(34) == 0x4_0000_0000
  {
    assert Pow2(8) == 0x100;
    Pow2Adds(8, 8);
    Pow2Adds(16, 16);
    Pow2Adds(2, 32);
  }

  /** No cap, a base of one second: attempt 35 is retried at once. */
  lemma UncappedCollapses()
    ensures Computed(SECOND, 0, 35) == 0
  {
    Pow2At34();
  }

  /** The largest int64 is no substitute for "no cap": with it, the same attempt panics once there is jitter. */
  lemma LargestCapPanics()
    ensures Computed(SECOND, TWO_63 - 1, 35) == TWO_63 - 1 && Unbounded(SECOND, TWO_63 - 1, 35)
  {
    Pow2At34();
  }

  // ---- adapters -----------------------------------------------------------------------

  const STOP: Duration := -1

  /** A stateful source, as a factory yields it: `delays(k)` is what its call number `k` returns. */
  class NextBackOffer {
    const delays: nat -> Duration
    var calls: nat

    constructor (delays: nat -> Duration)
      ensures this.delays == delays && calls == 0
    {
      this.delays, calls := delays, 0;
    }

    method NextBackOff() returns (d: Duration)
      modifies this
      ensures calls == old(calls) + 1 && d == delays(old(calls))
    {
      d := delays(calls);
      calls := calls + 1;
    }
  }

  /**
   FromNextBackOff: stateless although the source is not. The delay of an attempt is
   the source's answer number max(attempt, 1), or none once any answer up to it was Stop.
   */
  method FromNextBackOff(delays: nat -> Duration, attempt: int) returns (d: Duration)
    ensures (exists k :: 0 <= k < Max(attempt, 1) && delays(k) == STOP) ==> d == 0
    ensures (forall k :: 0 <= k < Max(attempt, 1) ==> delays(k) != STOP) ==> d == delays(Max(attempt, 1) - 1)
  {
    var n := attempt;
    if n < 1 {
      n := 1;
    }
    var b := new NextBackOffer(delays);
    d := 0;
    var i := 0;
    while i < n
      invariant i <= n && b.calls == i && b.delays == delays
      invariant forall k :: 0 <= k < i ==> delays(k) != STOP
      invariant i > 0 ==> d == delays(i - 1)
    {
      d := b.NextBackOff();
      if d == STOP {
        return 0;
      }
      i := i + 1;
    }
  }

  class Nexter {
    const answers: nat -> (Duration, bool)
    var calls: nat

    constructor (answers: nat -> (Duration, bool))
      ensures this.answers == answers && calls == 0
    {
      this.answers, calls := answers, 0;
    }

    method Next() returns (d: Duration, stop: bool)
      modifies this
      ensures calls == old(calls) + 1 && (d, stop) == answers(old(calls))
    {
      d, stop := answers(calls).0, answers(calls).1;
      calls := calls + 1;
    }
  }

  /** FromNexter: the same for sources that signal the end separately; -1 is then an ordinary delay. */
  method FromNexter(answers: nat -> (Duration, bool), attempt: int) returns (d: Duration)
    ensures (exists k :: 0 <= k < Max(attempt, 1) && answers(k).1) ==> d == 0
    ensures (forall k :: 0 <= k < Max(attempt, 1) ==> !answers(k).1) ==> d == answers(Max(attempt, 1) - 1).0
  {
    var n := attempt;
    if n < 1 {
      n := 1;
    }
    var b := new Nexter(answers);
    d := 0;
    var i := 0;
    while i < n
      invariant i <= n && b.calls == i && b.answers == answers
      invariant forall k :: 0 <= k < i ==> !answers(k).1
      invariant i > 0 ==> d == answers(i - 1).0
    {
      var stop;
      d, stop := b.Next();
      if stop {
        return 0;
      }
      i := i + 1;
    }
  }
}
