/** The two places where the generators compute in wrapping 64-bit
    arithmetic: the sum in the average point and the product in the
    uniformly spaced point.  The definitions here follow the C++ operator
    by operator; the generators in module DistributionGenerator use the
    exact (intended) values, and the lemmas below say when the two agree
    and exhibit inputs where they do not. */
module Overflow {
  import opened UInt64
  import opened DistributionGenerator

  /** `(max_ + min_) / 2` with the sum reduced modulo 2^64. */
  function AverageAsWritten(min: u64, max: u64): (r: u64)
    ensures 2 * r <= Wrap(min + max)
    ensures min + max < TWO_64 ==> r == Midpoint(min, max)
  {
    Wrap(max + min) / 2
  }

  /** `min_ + (count_ * (max_ - min_)) / count_limit_`, every operation
      reduced modulo 2^64.  Before exhaustion the point as written stays in
      [min, max) even when the product wraps (a wrapped product is smaller
      than the exact one); what wrapping breaks is the order of the points. */
  function UniformAsWritten(min: u64, max: u64, countLimit: u64, count: u64): (r: u64)
    requires 0 < countLimit
    ensures count == 0 ==> r == min
    ensures min < max && count < countLimit ==> min <= r < max
  {
    Wrap(min + WrappedShare(count, countLimit, max - min))
  }

  /** `(count_ * diff) / count_limit_` with the difference and the product
      reduced modulo 2^64.  A wrapped product is never larger than the
      exact one, so for k < n the share stays below a positive difference. */
  function WrappedShare(k: u64, n: u64, diff: int): (q: u64)
    requires 0 < n
    ensures k == 0 ==> q == 0
    ensures k < n && 0 < diff < TWO_64 ==> q < diff
  {
    var w := Wrap(k * Wrap(diff));
    DivAtMost(w, n);
    if k < n && 0 < diff < TWO_64 then
      WrappedShareBelow(k, n, diff);
      w / n
    else
      w / n
  }

  /** Lemma: dividing by a positive number does not make a number larger. */
  lemma {:induction false} DivAtMost(x: nat, n: nat)
    requires 0 < n
    ensures x / n <= x
  {
    var q := x / n;
    assert n * q <= x;
    MulLeftMono(q, 1, n);
  }

  /** Lemma: for k < n the wrapped share of a positive difference stays
      below it. */
  lemma {:induction false} WrappedShareBelow(k: u64, n: u64, d: u64)
    requires k < n && 0 < d
    ensures Wrap(k * Wrap(d)) / n < d
  {
    var x := k * d;
    assert Wrap(d) == d;
    ScaledBelow(k, n, d);
    DivMono(Wrap(x), x, n);
  }

  /** Lemma: while the product does not overflow, the uniformly spaced point
      as written is the exact one. */
  lemma {:induction false} UniformAsWrittenAgrees(min: u64, max: u64, countLimit: u64, count: u64)
    requires min < max && count < countLimit
    requires count * (max - min) < TWO_64
    ensures UniformAsWritten(min, max, countLimit, count) == UniformPoint(min, max, countLimit, count)
  {
  }

  /** Lemma: `make_generator(UINT_FAST64_MAX, UINT_FAST64_MAX)` builds an
      average point over [UINT_FAST64_MAX - 1, UINT_FAST64_MAX); the sum
      wraps and the point as written falls far below the range, while the
      exact midpoint is the lower bound. */
  lemma AverageAsWrittenLeavesRange()
    ensures NormalizedRange(UINT_FAST64_MAX, UINT_FAST64_MAX) == (UINT_FAST64_MAX - 1, UINT_FAST64_MAX)
    ensures AverageAsWritten(UINT_FAST64_MAX - 1, UINT_FAST64_MAX) == 0x7FFF_FFFF_FFFF_FFFE
    ensures AverageAsWritten(UINT_FAST64_MAX - 1, UINT_FAST64_MAX) < UINT_FAST64_MAX - 1
    ensures Midpoint(UINT_FAST64_MAX - 1, UINT_FAST64_MAX) == UINT_FAST64_MAX - 1
  {
  }

  /** Lemma: `make_generator(0, UINT_FAST64_MAX, 3, UNIFORMLY_SPACED)`: the
      third point as written is smaller than the second, because
      2 * UINT_FAST64_MAX wraps; the exact points increase. */
  lemma UniformAsWrittenNotMonotone()
    ensures NormalizedRange(0, UINT_FAST64_MAX) == (0, UINT_FAST64_MAX)
    ensures EffectiveLimit(3, UniformlySpacedKind) == 3
    ensures UniformAsWritten(0, UINT_FAST64_MAX, 3, 2) < UniformAsWritten(0, UINT_FAST64_MAX, 3, 1)
    ensures UniformPoint(0, UINT_FAST64_MAX, 3, 1) < UniformPoint(0, UINT_FAST64_MAX, 3, 2)
  {
  }
}
