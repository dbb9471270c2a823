/** Retry delays: `nextBackoff` and what a job spends waiting before it is given up. */
module Backoff {

  // baseBackoff and maxBackoff, in nanoseconds.
  const BASE: int := 30_000_000_000
  const CAP: int := 1_800_000_000_000
  const MAX_EXP: int := 20
  const INT64_MAX: int := 0x7fff_ffff_ffff_ffff

  function Pow2(n: nat): (r: nat)
    ensures r >= 1
  {
    if n == 0 then 1 else 2 * Pow2(n - 1)
  }

  /** The factor after `time.Duration(math.Pow(2, float64(attempts)))`: a negative exponent
      gives a fraction, which the conversion truncates to zero. */
  function Factor(attempts: int): int {
    if attempts < 0 then 0 else Pow2(attempts)
  }

  /** The code's computation: the exponent is clamped before anything is multiplied. */
  function NextBackoff(attempts: int): int {
    if attempts > MAX_EXP then CAP
    else
      var d := Times30s(Factor(attempts));
      if d > CAP then CAP else d
  }

  function Times30s(factor: int): int {
    factor * 30_000_000_000
  }

  lemma {:induction false} Pow2Monotone(a: nat, b: nat)
    requires a <= b
    ensures Pow2(a) <= Pow2(b)
    decreases b - a
  {
    if a < b { Pow2Monotone(a, b - 1); }
  }

  lemma Pow2Values()
    ensures Pow2(5) == 32 && Pow2(6) == 64 && Pow2(20) == 1048576
  {
    assert Pow2(4) == 16;
    assert Pow2(8) == 256;
    assert Pow2(12) == 4096;
    assert Pow2(16) == 65536;
  }

  /** The clamped computation is the documented formula min(2^attempts * 30s, 30min), and no
      product the code forms leaves int64. */
  lemma {:induction false} BackoffFormula(attempts: nat)
    ensures NextBackoff(attempts) == if Times30s(Pow2(attempts)) <= CAP then Times30s(Pow2(attempts)) else CAP
    ensures attempts <= MAX_EXP ==> Times30s(Pow2(attempts)) <= INT64_MAX
    ensures BASE <= NextBackoff(attempts) <= CAP
  {
    Pow2Values();
    if attempts > MAX_EXP {
      Pow2Monotone(6, attempts);
    } else {
      Pow2Monotone(attempts, 20);
    }
  }

  lemma {:induction false} BackoffCases(attempts: nat)
    ensures attempts <= 5 ==> NextBackoff(attempts) == Times30s(Pow2(attempts))
    ensures attempts >= 6 ==> NextBackoff(attempts) == CAP
  {
    Pow2Values();
    if attempts <= 5 {
      Pow2Monotone(attempts, 5);
    } else {
      Pow2Monotone(6, attempts);
    }
  }

  /** Sum of the first n delays. */
  function Delays(n: nat): int {
    if n == 0 then 0 else Delays(n - 1) + NextBackoff(n - 1)
  }

  lemma {:induction false} DelaysShort(n: nat)
    requires n <= 6
    ensures Delays(n) == Times30s(Pow2(n) - 1)
  {
    if n > 0 {
      DelaysShort(n - 1);
      BackoffCases(n - 1);
    }
  }

  /** Closed form of the waiting time of a job that exhausts m attempts, in nanoseconds. */
  lemma {:induction false} DelaysClosedForm(m: nat)
    requires m >= 1
    ensures m <= 7 ==> Delays(m - 1) == Times30s(Pow2(m - 1) - 1)
    ensures m >= 7 ==> Delays(m - 1) == 1_890_000_000_000 + (m - 7) * 1_800_000_000_000
  {
    if m <= 7 {
      DelaysShort(m - 1);
      Pow2Values();
    } else {
      DelaysClosedForm(m - 1);
      BackoffCases(m - 2);
    }
  }
}
