/** What a caller sees when it builds a generator with the factory and asks
    for points until the generator says it is done. */
module Sampling {
  import opened UInt64
  import opened DistributionGenerator

  /** The points a fresh generator from `MakeGenerator(min, max, countLimit,
      kind)` hands out, in order, before it is done. */
  function ExpectedPoints(min: u64, max: u64, countLimit: u64, kind: Generators): (s: seq<u64>)
    ensures |s| == EffectiveLimit(countLimit, kind)
    ensures forall k :: 0 <= k < |s| ==> NormalizedRange(min, max).0 <= s[k] < NormalizedRange(min, max).1
  {
    var r := NormalizedRange(min, max);
    var n := EffectiveLimit(countLimit, kind);
    seq(n, k requires 0 <= k < n => PointAt(kind, r.0, r.1, n, k))
  }

  /** Lemma: the points never decrease. */
  lemma {:induction false} ExpectedPointsSorted(min: u64, max: u64, countLimit: u64, kind: Generators)
    ensures var s := ExpectedPoints(min, max, countLimit, kind);
      forall i, j :: 0 <= i <= j < |s| ==> s[i] <= s[j]
  {
    var s := ExpectedPoints(min, max, countLimit, kind);
    var r := NormalizedRange(min, max);
    var n := EffectiveLimit(countLimit, kind);
    forall i, j | 0 <= i <= j < |s|
      ensures s[i] <= s[j]
    {
      if kind == UniformlySpacedKind {
        UniformPointMonotone(r.0, r.1, n, i, j);
      }
    }
  }

  /** Lemma: a uniformly spaced generator starts at the lower bound, and the
      k-th point is `lo + (k * (hi - lo)) / n`, rounded down. */
  lemma UniformPoints(min: u64, max: u64, countLimit: u64, k: nat)
    requires k < EffectiveLimit(countLimit, UniformlySpacedKind)
    ensures var s := ExpectedPoints(min, max, countLimit, UniformlySpacedKind);
      var r := NormalizedRange(min, max);
      var n := EffectiveLimit(countLimit, UniformlySpacedKind);
      s[0] == r.0 && n * (s[k] - r.0) <= k * (r.1 - r.0) < n * (s[k] - r.0 + 1)
  {
  }

  /** Lemma: an average-point generator hands out one point, the midpoint. */
  lemma AveragePoints(min: u64, max: u64, countLimit: u64)
    ensures var r := NormalizedRange(min, max);
      ExpectedPoints(min, max, countLimit, AveragePointKind) == [Midpoint(r.0, r.1)]
  {
  }

  /** Lemma: the order of the bounds does not matter, and a zero limit acts
      as a limit of one. */
  lemma NormalizationInvariance(min: u64, max: u64, countLimit: u64, kind: Generators)
    ensures ExpectedPoints(min, max, countLimit, kind) == ExpectedPoints(max, min, countLimit, kind)
    ensures ExpectedPoints(min, max, 0, kind) == ExpectedPoints(min, max, 1, kind)
  {
  }

  /** Builds a generator and calls `Next` until it is done: exactly
      `EffectiveLimit(countLimit, kind)` calls are made, and they return
      the expected points. */
  method Sample(min: u64, max: u64, countLimit: u64, kind: Generators) returns (points: seq<u64>)
    ensures points == ExpectedPoints(min, max, countLimit, kind)
  {
    var g := MakeGenerator(min, max, countLimit, kind);
    ghost var expected := ExpectedPoints(min, max, countLimit, kind);
    points := [];
    while !g.IsDone()
      invariant fresh(g) && g.Valid() && g.kind == kind
      invariant (g.min, g.max) == NormalizedRange(min, max)
      invariant g.countLimit == EffectiveLimit(countLimit, kind)
      invariant |points| == g.count as int <= g.countLimit as int
      invariant points == expected[..|points|]
      decreases g.countLimit - g.count
    {
      var p := g.Next();
      points := points + [p];
    }
  }

  /** The average-point scenarios of the test suite that agree with the
      source. */
  lemma AveragePointExamples()
    ensures ExpectedPoints(2, 12, 1, AveragePointKind) == [7]
    ensures ExpectedPoints(1000, 0, 1, AveragePointKind) == [500]
    ensures ExpectedPoints(256, 256, 1, AveragePointKind) == [256]
  {
    AveragePoints(2, 12, 1);
    AveragePoints(1000, 0, 1);
    AveragePoints(256, 256, 1);
  }

  /** Uniformly spaced over [0, 100) with 4 points: 0, 25, 50, 75; with 9
      points the first two are 0 and 11. */
  lemma UniformlySpacedExample()
    ensures ExpectedPoints(0, 100, 4, UniformlySpacedKind) == [0, 25, 50, 75]
    ensures ExpectedPoints(0, 100, 9, UniformlySpacedKind)[..2] == [0, 11]
  {
  }

  /** An average point may be asked twice and is done after the first call;
      a fresh one is not done. */
  method AveragePointScenario() returns (first: u64, second: u64, doneAfter: bool, freshDone: bool)
    ensures first == 7 && second == 7
    ensures doneAfter && !freshDone
  {
    var g := MakeGenerator(2, 12);
    first := g.Next();
    second := g.Next();
    doneAfter := g.IsDone();
    g := MakeGenerator(0, 10);
    freshDone := g.IsDone();
  }
}
