/**
  The retry delay (pkg/retry/backoff.go) in 64-bit arithmetic. The random draw is a
  parameter, and a panic of the random generator is a missing result.
*/
module Backoff {
  import opened Wrappers

  const TWO63: int := 0x8000_0000_0000_0000
  const MAX64: int := TWO63 - 1

  predicate IsInt64(x: int) { -TWO63 <= x < TWO63 }

  /** Two's complement wrap-around. */
  function Wrap(x: int): (r: int)
    ensures IsInt64(r)
    ensures IsInt64(x) ==> r == x
  {
    (x + TWO63) % (2 * TWO63) - TWO63
  }

  function Pow2(n: nat): (r: int)
    ensures r >= 1
  {
    if n == 0 then 1 else 2 * Pow2(n - 1)
  }

  /** The doubled base after the overflowing shift and product, cut off at `max`. */
  function Clamped(attempt: int, base: int, max: int): int {
    var n := if attempt < 1 then 1 else attempt;
    var d := Wrap(base * Wrap(Pow2(n - 1)));
    if d > max then max else d
  }

  /** `draw` is reduced as Int63n reduces its source: any jitter below half the delay can come out. */
  function Delay(attempt: int, base: int, max: int, draw: nat): Option<int> {
    var d := Clamped(attempt, base, max);
    var half := if d >= 0 then d / 2 else -(-d / 2);
    if half <= 0 then None else Some(Wrap(d + draw % half))
  }

  /** The delay that is meant: the base doubled once a retry, up to the maximum. */
  function Ceiling(n: nat, base: int, max: int): int
    requires n >= 1
  {
    if base * Pow2(n - 1) > max then max else base * Pow2(n - 1)
  }

  lemma {:induction false} Pow2Grows(m: nat, n: nat)
    requires m <= n
    ensures Pow2(m) <= Pow2(n)
  {
    if m < n { Pow2Grows(m, n - 1); }
  }

  lemma ScaledGrows(base: int, m: nat, n: nat)
    requires m <= n && base >= 0
    ensures base * Pow2(m) <= base * Pow2(n)
  {
    Pow2Grows(m, n);
    assert base * (Pow2(n) - Pow2(m)) >= 0;
  }

  /** As long as the doubled base fits, nothing wraps. */
  lemma ClampedIsCeiling(attempt: nat, base: int, max: int)
    requires attempt >= 1 && base >= 1 && base * Pow2(attempt - 1) <= MAX64
    ensures Clamped(attempt, base, max) == Ceiling(attempt, base, max)
  {
    assert (base - 1) * Pow2(attempt - 1) >= 0;
  }

  /** Attempts are counted from one, and what comes before counts as the first. */
  lemma EarlyAttemptsAreFirst(attempt: int, base: int, max: int, draw: nat)
    requires attempt < 1
    ensures Delay(attempt, base, max, draw) == Delay(1, base, max, draw)
    ensures IsInt64(base) ==> Clamped(attempt, base, max) == if base > max then max else base
  {
    assert Pow2(0) == 1;
  }

  /** As long as the doubled base and the longest delay fit, the delay lies in [m, m + m/2). */
  lemma DelayInRange(attempt: nat, base: int, max: int, draw: nat)
    requires attempt >= 1 && base >= 2 && max >= 2
    requires base * Pow2(attempt - 1) <= MAX64 && max + max / 2 <= MAX64
    ensures var m := Ceiling(attempt, base, max);
            && m >= 2 && Delay(attempt, base, max, draw).Some?
            && m <= Delay(attempt, base, max, draw).value < m + m / 2
  {
    ClampedIsCeiling(attempt, base, max);
    ScaledGrows(base, 0, attempt - 1);
    var m := Ceiling(attempt, base, max);
    assert 0 <= draw % (m / 2) < m / 2;
  }

  lemma SmallDraw(draw: nat, half: int)
    requires draw < half
    ensures draw % half == draw
  {
  }

  lemma DrawnDelay(attempt: int, base: int, max: int, draw: nat)
    requires draw < Clamped(attempt, base, max) / 2 && IsInt64(Clamped(attempt, base, max) + draw)
    ensures Delay(attempt, base, max, draw) == Some(Clamped(attempt, base, max) + draw)
  {
    SmallDraw(draw, Clamped(attempt, base, max) / 2);
  }

  /** Every delay in that range can come out. */
  lemma EveryDelayOccurs(attempt: nat, base: int, max: int, r: int)
    requires attempt >= 1 && base >= 2 && max >= 2
    requires base * Pow2(attempt - 1) <= MAX64 && max + max / 2 <= MAX64
    requires var m := Ceiling(attempt, base, max); m <= r < m + m / 2
    ensures exists draw: nat :: Delay(attempt, base, max, draw) == Some(r)
  {
    var m := Ceiling(attempt, base, max);
    ClampedIsCeiling(attempt, base, max);
    DrawnDelay(attempt, base, max, r - m);
    assert Delay(attempt, base, max, r - m) == Some(r);
  }

  lemma CeilingGrows(m: nat, n: nat, base: int, max: int)
    requires 1 <= m <= n && base >= 0
    ensures Ceiling(m, base, max) <= Ceiling(n, base, max)
  {
    ScaledGrows(base, m - 1, n - 1);
  }

  lemma {:induction false} Pow2Adds(m: nat, n: nat)
    ensures Pow2(m + n) == Pow2(m) * Pow2(n)
  {
    if m > 0 {
      Pow2Adds(m - 1, n);
      assert 2 * (Pow2(m - 1) * Pow2(n)) == (2 * Pow2(m - 1)) * Pow2(n);
    }
  }

  lemma Pow2Of64()
    ensures Pow2(64) == 2 * TWO63
  {
    assert Pow2(2) == 4;
    Pow2Adds(2, 2);
    Pow2Adds(4, 4);
    Pow2Adds(8, 8);
    Pow2Adds(16, 16);
    Pow2Adds(32, 32);
  }

  lemma WrapOfMultiple(k: int)
    ensures Wrap(k * (2 * TWO63)) == 0
  {
    assert k * (2 * TWO63) + TWO63 == TWO63 + (2 * TWO63) * k;
    assert (TWO63 + (2 * TWO63) * k) % (2 * TWO63) == TWO63;
  }

  /** At the sixty-fourth attempt the shift gives the sign bit alone, and the product is that or nothing. */
  lemma SignBit(base: int)
    ensures Wrap(base * Wrap(Pow2(63))) == 0 || Wrap(base * Wrap(Pow2(63))) == -TWO63
  {
    Pow2Adds(1, 63);
    Pow2Of64();
    assert Pow2(1) == 2 && Pow2(63) == TWO63 && Wrap(TWO63) == -TWO63;
    var half := base / 2;
    if base % 2 == 0 {
      assert base * -TWO63 == -half * (2 * TWO63);
      WrapOfMultiple(-half);
    } else {
      assert base * -TWO63 == -half * (2 * TWO63) - TWO63;
      assert (-half * (2 * TWO63) - TWO63 + TWO63) == -half * (2 * TWO63);
      MultipleLeavesNothing(-half);
    }
  }

  lemma MultipleLeavesNothing(k: int)
    ensures k * (2 * TWO63) % (2 * TWO63) == 0
  {
    WrapOfMultiple(k);
  }

  /** From the sixty-fourth attempt on the delay panics, whatever the settings. */
  lemma LateAttemptsPanic(attempt: int, base: int, max: int, draw: nat)
    requires attempt >= 64
    ensures Delay(attempt, base, max, draw).None?
  {
    if attempt == 64 {
      SignBit(base);
    } else {
      Pow2Of64();
      Pow2Adds(attempt - 65, 64);
      WrapOfMultiple(Pow2(attempt - 65));
      assert Wrap(Pow2(attempt - 1)) == 0;
    }
  }

  /** Before that there are settings with which it returns. */
  lemma EarlierAttemptsMayReturn(attempt: int, draw: nat)
    requires attempt < 64
    ensures Delay(attempt, if attempt <= 1 then 2 else 1, MAX64, draw).Some?
  {
    var n := if attempt < 1 then 1 else attempt;
    Pow2Adds(1, 63);
    Pow2Of64();
    assert Pow2(1) == 2 && Pow2(63) == TWO63 && Pow2(0) == 1;
    if n > 1 {
      Pow2Grows(1, n - 1);
      Pow2Adds(1, n - 1);
      Pow2Grows(n, 63);
      assert 2 <= Pow2(n - 1) <= MAX64;
    }
  }

  /** An attempt number panics with all settings exactly from 64 on. */
  lemma PanicsWhateverTheSettings(attempt: int)
    ensures (forall base, max, draw: nat :: Delay(attempt, base, max, draw).None?) <==> attempt >= 64
  {
    if attempt >= 64 {
      forall base, max, draw: nat ensures Delay(attempt, base, max, draw).None? {
        LateAttemptsPanic(attempt, base, max, draw);
      }
    } else {
      EarlierAttemptsMayReturn(attempt, 0);
    }
  }

  /** The generator panics exactly when the clamped delay is below two nanoseconds. */
  lemma PanicsExactly(attempt: int, base: int, max: int, draw: nat)
    ensures Delay(attempt, base, max, draw).None? <==> Clamped(attempt, base, max) < 2
  {
  }
}
