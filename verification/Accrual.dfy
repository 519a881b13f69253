/** Whole numbers of refill periods, kept as sums so that only this module
    multiplies and divides. */
module Accrual {
  /** The time `n` refills take. */
  function Refills(n: nat, refill: nat): nat {
    if n == 0 then 0 else refill + Refills(n - 1, refill)
  }

  /** How many whole refills fit into a span. */
  function Periods(span: int, refill: nat): int
    requires refill > 0
  {
    span / refill
  }

  lemma {:induction false} RefillsMultiply(n: nat, refill: nat)
    ensures Refills(n, refill) == refill * n
  {
    if n != 0 {
      RefillsMultiply(n - 1, refill);
      assert refill * (n - 1) + refill == refill * n;
    }
  }

  /** `n` refills that fit into `burst` refills and a span are at most `burst` and
      the whole refills of the span. */
  lemma PeriodsBound(n: nat, burst: nat, span: nat, refill: nat)
    requires refill > 0 && Refills(n, refill) <= Refills(burst, refill) + span
    ensures n <= burst + Periods(span, refill)
  {
    RefillsMultiply(n, refill);
    RefillsMultiply(burst, refill);
    Divide(n, burst, span, refill);
  }

  lemma Divide(n: nat, burst: nat, span: nat, refill: nat)
    requires refill > 0 && refill * n <= refill * burst + span
    ensures n <= burst + span / refill
  {
    var q := span / refill;
    assert span == q * refill + span % refill;
    assert (n - burst) * refill == refill * n - refill * burst;
    assert (q + 1) * refill == q * refill + refill;
    LessByFactor(n - burst, q + 1, refill);
  }

  lemma LessByFactor(a: int, b: int, c: nat)
    requires a * c < b * c
    ensures a < b
  {
    assert (b - a) * c == b * c - a * c;
  }
}
