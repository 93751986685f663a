/** Advancing a recurring schedule, in 64-bit arithmetic. */
module Intervals {
  import opened Wrappers
  import opened Arithmetic

  /** Division rounding toward zero. */
  function Quotient(a: int, b: int): int
    requires b > 0
  {
    if a >= 0 then a / b else -(-a / b)
  }

  /** The closed form of the code: one division, with its overflow guard; none is the overflow error. */
  function AdvanceInterval(period: int, nextFire: int, now: int): Option<int>
    requires period > 0
  {
    if now < nextFire then Some(nextFire)
    else
      var k := Wrap64(Quotient(Wrap64(now - nextFire), period) + 1);
      if k <= 0 || period > Quotient(Wrap64(INT_LIMIT - 1 - nextFire), k) then None
      else Some(Wrap64(nextFire + Wrap64(k * period)))
  }

  /** The loop the closed form replaces: step by one period while not yet past now. */
  function StepPast(next: int, period: int, now: int): (r: int)
    requires period > 0
    ensures r > now || r == next
    decreases now - next
  {
    if next > now then next else StepPast(next + period, period, now)
  }

  lemma {:induction false} StepPastIs(next: int, period: int, now: int)
    requires period > 0 && next <= now
    ensures StepPast(next, period, now) == next + ((now - next) / period + 1) * period
    decreases now - next
  {
    var q, r := (now - next) / period, (now - next) % period;
    assert now - next == q * period + r;
    if next + period <= now {
      StepPastIs(next + period, period, now);
      assert now - next - period == (q - 1) * period + r;
      QuotientIs(now - next - period, period, q - 1, r);
      assert next + period + q * period == next + (q + 1) * period;
    } else {
      QuotientIs(now - next, period, 0, now - next);
    }
  }

  lemma DivisionGuard(m: int, k: int, p: int)
    requires k > 0
    ensures p > m / k <==> k * p > m
  {
    var q, r := m / k, m % k;
    assert m == q * k + r;
    if p > q {
      assert k * p >= k * (q + 1);
    } else {
      assert k * p <= k * q;
    }
  }

  /** From a start at or after the epoch the closed form is the loop, and errs exactly when the loop leaves 64 bits. */
  lemma ClosedFormIsLoop(period: int, nextFire: int, now: int)
    requires 0 < period < INT_LIMIT && 0 <= nextFire <= now < INT_LIMIT
    ensures var r := StepPast(nextFire, period, now);
            && r > now
            && AdvanceInterval(period, nextFire, now) == if IsInt64(r) then Some(r) else None
  {
    hide Wrap64, StepPast;
    var k := (now - nextFire) / period + 1;
    QuotientBounds(now - nextFire, period);
    StepPastIs(nextFire, period, now);
    PastNow(nextFire, period, now);
    if now - nextFire == INT_LIMIT - 1 && period == 1 {
      WrapsToNegative();
    } else {
      KFits(nextFire, period, now);
      DivisionGuard(INT_LIMIT - 1 - nextFire, k, period);
      if k * period <= INT_LIMIT - 1 - nextFire {
        assert k * period >= 0;
      }
    }
  }

  lemma WrapsToNegative()
    ensures Wrap64(INT_LIMIT) == -INT_LIMIT
  {
  }

  lemma PastNow(nextFire: int, period: int, now: int)
    requires period > 0 && nextFire <= now
    ensures nextFire + ((now - nextFire) / period + 1) * period > now
  {
    var q := (now - nextFire) / period;
    assert now - nextFire == q * period + (now - nextFire) % period;
  }

  lemma Halves(a: int, p: int, q: int)
    requires 2 <= p && 0 <= q && q * p <= a
    ensures 2 * q <= a
  {
    assert q * p >= q * 2;
  }

  lemma KFits(nextFire: int, period: int, now: int)
    requires 0 < period && 0 <= nextFire <= now < INT_LIMIT && !(now - nextFire == INT_LIMIT - 1 && period == 1)
    ensures 0 < (now - nextFire) / period + 1 < INT_LIMIT
  {
    var a := now - nextFire;
    QuotientBounds(a, period);
    if period >= 2 {
      assert a / period * period <= a;
      Halves(a, period, a / period);
    }
  }

  /** From a start before the epoch the guard itself overflows: every advance errs, whatever the loop would reach. */
  lemma BeforeEpochAlwaysErrs(period: int, nextFire: int, now: int)
    requires 0 < period < INT_LIMIT && -INT_LIMIT <= nextFire < 0 && nextFire <= now < INT_LIMIT
    ensures AdvanceInterval(period, nextFire, now) == None
  {
    var k := Wrap64(Quotient(Wrap64(now - nextFire), period) + 1);
    if k > 0 {
      var m := Wrap64(INT_LIMIT - 1 - nextFire);
      assert m < 0;
      QuotientBounds(-m, k);
    }
  }

  /**
    The advance is the loop's, error cases included, exactly if the start is not before the epoch or the loop overflows.
  */
  lemma AdvanceRightIff(period: int, nextFire: int, now: int)
    requires 0 < period < INT_LIMIT && -INT_LIMIT <= nextFire <= now < INT_LIMIT
    ensures (AdvanceInterval(period, nextFire, now)
             == if IsInt64(StepPast(nextFire, period, now)) then Some(StepPast(nextFire, period, now)) else None)
       <==> nextFire >= 0 || !IsInt64(StepPast(nextFire, period, now))
  {
    hide AdvanceInterval, StepPast;
    if nextFire >= 0 {
      ClosedFormIsLoop(period, nextFire, now);
    } else {
      BeforeEpochAlwaysErrs(period, nextFire, now);
    }
  }
}
