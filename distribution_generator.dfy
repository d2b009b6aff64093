/** The distribution generators: a factory that normalises a range and a
    count, and two strategies that hand out sample points of the integer
    interval [min, max) one call at a time. */
module DistributionGenerator {
  import opened UInt64

  /** The kinds of generator the factory can build. */
  datatype Generators = AveragePointKind | UniformlySpacedKind

  /** The half-open range the factory settles on for the bounds it is given:
      the two bounds in order, widened by one when they coincide. */
  function NormalizedRange(min: u64, max: u64): (r: (u64, u64))
    ensures r.0 < r.1
    ensures r.0 <= min <= r.1 && r.0 <= max <= r.1
    ensures min != max ==> r.1 - r.0 == if min < max then max - min else min - max
    ensures min == max ==> r.1 - r.0 == 1
    ensures min == max ==> (r.0 == min <==> max < UINT_FAST64_MAX)
    decreases if min > max then 1 else 0
  {
    if min > max then NormalizedRange(max, min)
    else if min == max then (if max < UINT_FAST64_MAX then (min, max + 1) else (min - 1, max))
    else (min, max)
  }

  /** The number of points a fresh generator of the given kind will produce. */
  function EffectiveLimit(countLimit: u64, kind: Generators): (n: u64)
    ensures n >= 1
    ensures kind == AveragePointKind ==> n == 1
    ensures kind == UniformlySpacedKind && countLimit != 0 ==> n == countLimit
    ensures countLimit == 0 ==> n == 1
  {
    match kind
    case AveragePointKind => 1
    case UniformlySpacedKind => if countLimit == 0 then 1 else countLimit
  }

  /** The point an average-point generator returns: the midpoint of the
      range, rounded down. */
  function Midpoint(min: u64, max: u64): (r: u64)
    ensures 2 * r <= min + max < 2 * r + 2
    ensures min < max ==> min <= r < max
    ensures min == max ==> r == min
  {
    (min + max) / 2
  }

  /** Lemma: x / c < d whenever x < c * d. */
  lemma {:induction false} DivBelow(x: nat, c: nat, d: nat)
    requires 0 < c && x < c * d
    ensures x / c < d
  {
    var q := x / c;
    assert c * q <= x;
    if q >= d {
      MulLeftMono(c, d, q);
    }
  }

  /** Lemma: multiplying by a natural number keeps the order. */
  lemma {:induction false} MulLeftMono(c: nat, a: nat, b: nat)
    requires a <= b
    ensures c * a <= c * b
  {
    assert c * b - c * a == c * (b - a);
  }

  /** Lemma: integer division by a positive number keeps the order. */
  lemma {:induction false} DivMono(x: nat, y: nat, c: nat)
    requires 0 < c && x <= y
    ensures x / c <= y / c
  {
    var p, q := x / c, y / c;
    assert c * p <= x && y < c * q + c;
    if p > q {
      MulLeftMono(c, q + 1, p);
    }
  }

  /** Lemma: k parts of d out of n parts stay below d, for k < n, and are
      nothing for k = 0. */
  lemma {:induction false} ScaledBelow(k: nat, n: nat, d: nat)
    requires k < n && 0 < d
    ensures (k * d) / n < d
    ensures k == 0 ==> (k * d) / n == 0
  {
    MulLeftMono(d, k, n - 1);
    assert d * (n - 1) == n * d - d;
    DivBelow(k * d, n, d);
  }

  /** k n-ths of d, rounded down. */
  function Share(k: nat, n: nat, d: nat): (q: nat)
    requires k < n && 0 < d
    ensures q < d
    ensures k == 0 ==> q == 0
    ensures n * q <= k * d < n * q + n
  {
    ScaledBelow(k, n, d);
    (k * d) / n
  }

  /** The k-th point (k = 0, 1, ...) of a uniformly spaced generator over
      [min, max) with `countLimit` points: the range is cut into
      `countLimit` equal parts and the start of the k-th part is returned. */
  function UniformPoint(min: u64, max: u64, countLimit: u64, k: nat): (r: u64)
    requires min < max && 0 < k + 1 <= countLimit
    ensures min <= r < max
    ensures k == 0 ==> r == min
  {
    min + Share(k, countLimit, max - min)
  }

  /** Lemma: successive uniformly spaced points never decrease. */
  lemma {:induction false} UniformPointMonotone(min: u64, max: u64, countLimit: u64, j: nat, k: nat)
    requires min < max && j <= k < countLimit
    ensures UniformPoint(min, max, countLimit, j) <= UniformPoint(min, max, countLimit, k)
  {
    var d := max - min;
    MulLeftMono(d, j, k);
    assert j * d <= k * d;
    DivMono(j * d, k * d, countLimit);
  }

  /** The point the `k`-th call (k = 0, 1, ...) of `next` returns, for a
      generator of the given kind over [min, max) with limit `countLimit`. */
  function PointAt(kind: Generators, min: u64, max: u64, countLimit: u64, k: nat): (r: u64)
    requires min < max
    requires kind == UniformlySpacedKind ==> k < countLimit
    ensures min <= r < max
    ensures kind == AveragePointKind ==> r == Midpoint(min, max)
  {
    match kind
    case AveragePointKind => Midpoint(min, max)
    case UniformlySpacedKind => UniformPoint(min, max, countLimit, k)
  }

  /** A generator: its bounds and limit are fixed when it is built; `count`
      is the number of points handed out so far. */
  class Generator {
    const kind: Generators
    const min: u64
    const max: u64
    const countLimit: u64
    var count: u64

    /** What the factory guarantees of every generator it builds. */
    ghost predicate Valid()
      reads this
    {
      min < max && 1 <= countLimit && (kind == AveragePointKind ==> countLimit == 1)
    }

    /** An average-point generator over [min, max): one point only. */
    constructor AveragePoint(min: u64, max: u64)
      ensures this.kind == AveragePointKind
      ensures this.min == min && this.max == max && this.countLimit == 1
      ensures this.count == 0
    {
      this.kind := AveragePointKind;
      this.min := min;
      this.max := max;
      this.countLimit := 1;
      this.count := 0;
    }

    /** A uniformly spaced generator over [min, max) with `countLimit` points. */
    constructor UniformlySpaced(min: u64, max: u64, countLimit: u64)
      ensures this.kind == UniformlySpacedKind
      ensures this.min == min && this.max == max && this.countLimit == countLimit
      ensures this.count == 0
    {
      this.kind := UniformlySpacedKind;
      this.min := min;
      this.max := max;
      this.countLimit := countLimit;
      this.count := 0;
    }

    /** Whether the generator has handed out all its points. */
    predicate IsDone()
      reads this
      ensures IsDone() <==> countLimit <= count
    {
      !(count < countLimit)
    }

    /** Hands out the next point and counts the call.  An average-point
        generator may be asked again after it is done; a uniformly spaced
        one may not. */
    method Next() returns (p: u64)
      requires Valid()
      requires kind == UniformlySpacedKind ==> !IsDone()
      modifies this
      ensures Valid()
      ensures p == PointAt(kind, min, max, countLimit, old(count))
      ensures min <= p < max
      ensures count == Wrap(old(count) + 1)
      ensures kind == UniformlySpacedKind ==> count == old(count) + 1
    {
      if kind == AveragePointKind {
        count := Wrap(count + 1);
        p := Midpoint(min, max);
      } else {
        p := UniformPoint(min, max, countLimit, count);
        count := count + 1;
      }
    }
  }

  /** The normalisation steps of the factory: order the bounds, widen a
      degenerate range by one without leaving the type, and raise a zero
      limit to one. */
  method Normalize(min: u64, max: u64, countLimit: u64) returns (lo: u64, hi: u64, limit: u64)
    ensures (lo, hi) == NormalizedRange(min, max)
    ensures lo < hi
    ensures limit >= 1 && (countLimit != 0 ==> limit == countLimit)
    ensures countLimit == 0 ==> limit == 1
  {
    lo, hi, limit := min, max, countLimit;
    if lo > hi {
      lo, hi := hi, lo;
    }
    if lo == hi {
      if hi < UINT_FAST64_MAX {
        hi := hi + 1;
      } else {
        lo := lo - 1;
      }
    }
    if limit == 0 {
      limit := 1;
    }
  }

  /** The factory: never fails, and builds a fresh, not yet done generator
      of the requested kind over the normalised range. */
  method MakeGenerator(min: u64, max: u64, countLimit: u64 := 1, kind: Generators := AveragePointKind)
    returns (g: Generator)
    ensures fresh(g) && g.Valid()
    ensures g.kind == kind && g.count == 0 && !g.IsDone()
    ensures (g.min, g.max) == NormalizedRange(min, max)
    ensures g.countLimit == EffectiveLimit(countLimit, kind)
  {
    var lo, hi, limit := Normalize(min, max, countLimit);
    if kind == AveragePointKind {
      g := new Generator.AveragePoint(lo, hi);
    } else {
      g := new Generator.UniformlySpaced(lo, hi, limit);
    }
  }
}
