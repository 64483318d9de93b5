/**
 The delay between attempts of a playbook (agent/pkg/controllers/playbook.go, getBackoff), in nanoseconds.

 The source computes in float64. The default backoff is 9765625 * 2^10, and multiplying a float64 by a power
 of two never rounds, so a finite product is exact; a product of 2^1024 or more is +Inf. The constant the
 product is compared with, math.MaxInt64, is not a float64: it is rounded up to 2^63.
 */
module Backoff {
  import opened Common

  const DEFAULT_JOB_BACKOFF: int := 10_000_000_000
  const MAX_JOB_BACKOFF: int := 360_000_000_000
  const TWO_63: int := 0x8000_0000_0000_0000

  datatype Float = Finite(v: int) | PosInf

  function Pow2(n: nat): (p: nat)
    ensures p > 0
  {
    if n == 0 then 1 else 2 * Pow2(n - 1)
  }

  function MathPow2(e: nat): Float {
    if e < 1024 then Finite(Pow2(e)) else PosInf
  }

  function Scale(c: int, f: Float): Float {
    match f
    case PosInf => PosInf
    case Finite(v) => if c * v < Pow2(1024) then Finite(c * v) else PosInf
  }

  predicate Exceeds(f: Float, bound: int) {
    f.PosInf? || f.v > bound
  }

  /** Conversion to the 64-bit duration type: meaningful only inside its range. */
  function ToDuration(v: int): int
    requires -TWO_63 <= v < TWO_63
  {
    v
  }

  function GetBackoff(exp: int): int {
    if exp <= 0 then 0
    else
      var backoff := Scale(DEFAULT_JOB_BACKOFF, MathPow2(exp - 1));
      if Exceeds(backoff, TWO_63) then MAX_JOB_BACKOFF
      else
        NeverTwo63(Pow2(exp - 1));
        var calculated := ToDuration(backoff.v);
        if calculated > MAX_JOB_BACKOFF then MAX_JOB_BACKOFF else calculated
  }

  /** The comparison admits 2^63 itself, which the conversion does not; no product takes that value. */
  lemma NeverTwo63(p: nat)
    ensures DEFAULT_JOB_BACKOFF * p != TWO_63
  {
    assert (DEFAULT_JOB_BACKOFF * p) % 5 == (2_000_000_000 * p * 5) % 5 == 0;
  }

  lemma Pow2Monotone(a: nat, b: nat)
    requires a <= b
    ensures Pow2(a) <= Pow2(b)
    decreases b
  {
    if a < b { Pow2Monotone(a, b - 1); }
  }

  lemma {:induction false} Pow2Sum(a: nat, b: nat)
    ensures Pow2(a + b) == Pow2(a) * Pow2(b)
    decreases b
  {
    if b > 0 { Pow2Sum(a, b - 1); }
  }

  lemma Pow2Thirty()
    ensures Pow2(30) == 0x4000_0000
  {
    assert Pow2(10) == 1024;
    Pow2Sum(10, 10);
    Pow2Sum(20, 10);
  }

  /** Up to exponent 30 the product is finite; from 30 on it is far above the cap. */
  lemma Products(e: nat)
    ensures e <= 30 ==> Scale(DEFAULT_JOB_BACKOFF, MathPow2(e)) == Finite(DEFAULT_JOB_BACKOFF * Pow2(e))
    ensures e >= 30 ==> DEFAULT_JOB_BACKOFF * Pow2(e) > MAX_JOB_BACKOFF
  {
    Pow2Thirty();
    if e <= 30 {
      Pow2Monotone(e, 30);
      Pow2Sum(30, 30);
      Pow2Sum(60, 30);
      Pow2Monotone(90, 1024);
    } else {
      Pow2Monotone(30, e);
    }
  }

  /** For every exponent the backoff is the doubled delay, capped: from ten seconds up to six minutes. */
  lemma BackoffIsCappedDoubling(n: int)
    ensures GetBackoff(n) == if n <= 0 then 0 else Min(10_000_000_000 * Pow2(n - 1), 360_000_000_000)
  {
    if n > 0 { Products(n - 1); }
  }

  lemma BackoffIsMonotone(m: int, n: int)
    requires m <= n
    ensures 0 <= GetBackoff(m) <= GetBackoff(n) <= 360_000_000_000
  {
    BackoffIsCappedDoubling(m);
    BackoffIsCappedDoubling(n);
    if 0 < m { Pow2Monotone(m - 1, n - 1); }
  }
}
