# Distribution generators, modelled in Dafny

The library hands out sample points of an integer interval `[min, max)`, one
per call, for picking test and benchmark inputs across a range. A factory,
`DistributionGenerator::make_generator(min, max, count_limit, kind)`, first
normalises its arguments. It orders the bounds. It widens a degenerate range
by one, lowering `min` when `max` is already `UINT_FAST64_MAX`. It raises a
zero `count_limit` to one. It then builds one of two generators:

- `AveragePoint` returns the midpoint `(min + max) / 2` on every call and is
  done after one call.
- `UniformlySpaced` cuts the range into `count_limit` equal parts. Its k-th
  call (k = 0, 1, ...) returns `min + (k * (max - min)) / count_limit`.

Both count their calls in `count_`. `is_done()` holds once
`count_ >= count_limit_`.

The model has four modules:

- `UInt64` (uint64.dfy): the 64-bit unsigned type and its wrap-around.
- `DistributionGenerator` (distribution_generator.dfy): the generator kinds,
  the normalisation as a function and as the step-by-step method, and the
  point each call returns. It also holds the class `Generator` with its two
  constructors, `IsDone` and `Next`, and the factory `MakeGenerator`.
- `Overflow` (overflow.dfy): the two wrapping computations as written, when
  they agree with the exact values, and inputs where they do not.
- `Sampling` (sampling.dfy): the whole sequence of points a fresh generator
  yields. A client method builds a generator and calls `Next` until
  `IsDone`, and is proved to make exactly that many calls and to get exactly
  those points. The test suite's scenarios that agree with the source are
  stated as lemmas.

`uint_fast64_t` is taken to be 64 bits wide, which it is on the platforms the
library targets. Values are the subset type `u64` of the integers below
2^64. `Generator.Next` wraps only the count of an average-point generator;
the wrapping sum and product of the source are written out as `% 2^64` only
in module `Overflow`, and the generators use exact arithmetic instead (see
the `DistributionGenerator.Generator.Next` lines under "## Left out").

## Model

| member | source | states |
|---|---|---|
| DistributionGenerator.NormalizedRange | src/distribution_generator.hpp:76-82 | the normalised bounds satisfy lo < hi and enclose both inputs; distinct inputs keep their distance (they are just ordered); equal inputs give a range of width one that starts at the input unless the input is UINT_FAST64_MAX |
| DistributionGenerator.EffectiveLimit | src/distribution_generator.hpp:84-90 | the limit of a fresh generator is at least 1; it is 1 for an average point whatever was requested; a uniformly spaced generator keeps any non-zero requested limit, and a requested limit of 0 becomes 1 |
| DistributionGenerator.Normalize | src/distribution_generator.hpp:76-84 | the in-place reassignment of min, max and count_limit ends in NormalizedRange, with lo < hi, and a limit that is the requested one or 1 when 0 was requested |
| DistributionGenerator.MakeGenerator | src/distribution_generator.hpp:73-91 | the factory never fails and returns a fresh generator of the requested kind over the normalised range, with count 0, the effective limit, the object invariant, and not done |
| DistributionGenerator.Midpoint | src/distribution_generator.hpp:97 | the average point is the floor of (min + max) / 2 and lies in [min, max) for a non-empty range |
| DistributionGenerator.UniformPoint | src/distribution_generator.hpp:104 | every uniformly spaced point before exhaustion lies in [min, max), and the first one is min |
| DistributionGenerator.UniformPointMonotone | src/distribution_generator.hpp:104 | uniformly spaced points never decrease as the call index grows |
| DistributionGenerator.PointAt | src/distribution_generator.hpp:93-107 | the point of the k-th call of either strategy lies in [min, max); an average point is the midpoint on every call |
| DistributionGenerator.Generator.AveragePoint | src/distribution_generator.hpp:44-48 | the constructor stores the bounds, sets the limit to 1 and the count to 0 |
| DistributionGenerator.Generator.UniformlySpaced | src/distribution_generator.hpp:58-63 | the constructor stores the bounds and the limit unchanged, with count 0 |
| DistributionGenerator.Generator.IsDone | src/distribution_generator.hpp:34 | done exactly when the count has reached the limit; a pure query of the state |
| DistributionGenerator.Generator.Next | src/distribution_generator.hpp:95-107 | returns the point of call number old(count), which lies in [min, max), keeps the invariant, and advances the count by one (modulo 2^64 for an average point) |
| Overflow.AverageAsWritten | src/distribution_generator.hpp:97 | the midpoint with the sum taken modulo 2^64 equals the exact midpoint whenever min + max does not overflow |
| Overflow.UniformAsWritten | src/distribution_generator.hpp:104 | the uniformly spaced point with every operation taken modulo 2^64; the first point is min, and before exhaustion the point stays in [min, max) even when the product wraps, since a wrapped product is never larger than the exact one |
| Overflow.WrappedShare | src/distribution_generator.hpp:104 | the wrapped (count * (max - min)) / count_limit is 0 for the first call and below max - min before exhaustion |
| Overflow.UniformAsWrittenAgrees | src/distribution_generator.hpp:104 | while k * (max - min) < 2^64 the wrapping computation equals the exact point |
| Overflow.AverageAsWrittenLeavesRange | src/distribution_generator.hpp:79-97 | for make_generator(UINT_FAST64_MAX, UINT_FAST64_MAX) the range is [UINT_FAST64_MAX - 1, UINT_FAST64_MAX) and the wrapping midpoint is 2^63 - 2, below the range; the exact midpoint is UINT_FAST64_MAX - 1 |
| Overflow.UniformAsWrittenNotMonotone | src/distribution_generator.hpp:104 | for make_generator(0, UINT_FAST64_MAX, 3, UNIFORMLY_SPACED) the third wrapping point is smaller than the second; the exact points increase |
| Sampling.ExpectedPoints | src/distribution_generator.hpp:73-107 | a fresh generator yields exactly the effective limit of points, each inside the normalised range |
| Sampling.ExpectedPointsSorted | src/distribution_generator.hpp:103-107 | the points of a fresh generator are in non-decreasing order |
| Sampling.UniformPoints | src/distribution_generator.hpp:103-107 | a uniformly spaced generator's first point is the lower bound, and its k-th point p satisfies n * (p - lo) <= k * (hi - lo) < n * (p - lo + 1), the floor of k parts of n |
| Sampling.AveragePoints | src/distribution_generator.hpp:95-98 | an average-point generator yields exactly one point, the midpoint of the normalised range |
| Sampling.NormalizationInvariance | src/distribution_generator.hpp:76-84 | swapping the bounds changes no point, and a limit of 0 behaves as a limit of 1 |
| Sampling.Sample | tests/distribution_generator_test.cpp:56-64 | building a generator and calling next until is_done makes exactly the effective limit of calls and returns exactly the expected points |
| Sampling.AveragePointExamples | tests/distribution_generator_test.cpp:10-34 | the average point of (2, 12) is 7, of (1000, 0) is 500, and of (256, 256) is 256 |
| Sampling.AveragePointScenario | tests/distribution_generator_test.cpp:12-24 | make_generator(2, 12) returns 7 on two successive calls and is done afterwards; a fresh make_generator(0, 10) is not done |
| Sampling.UniformlySpacedExample | tests/distribution_generator_test.cpp:48-66 | uniformly spaced over (0, 100) with limit 4 yields 0, 25, 50, 75: four calls, as the test expects, but the last point is 75 where the test expects 80; with limit 9 the first two points are 0 and 11, where the test expects 10 and 20 |

## Findings

| source | as written | input that shows it | evidently intended | confidence | as-written member | corrected member |
|---|---|---|---|---|---|---|
| src/distribution_generator.hpp:97 | `( max_ + min_ ) / 2` adds in 64 bits and wraps | `make_generator(UINT_FAST64_MAX, UINT_FAST64_MAX)`: range [2^64 - 2, 2^64 - 1), point 2^63 - 2 | the midpoint of the range, which always fits in 64 bits | high (not executed) | Overflow.AverageAsWritten, Overflow.AverageAsWrittenLeavesRange | DistributionGenerator.Midpoint |
| src/distribution_generator.hpp:104 | `count_ * ( max_ - min_ )` multiplies in 64 bits and wraps | `make_generator(0, UINT_FAST64_MAX, 3, UNIFORMLY_SPACED)`: second call 6148914691236517205, third call 6148914691236517204 | non-decreasing points in [min, max), as the exact product gives | high (not executed) | Overflow.UniformAsWritten, Overflow.UniformAsWrittenNotMonotone | DistributionGenerator.UniformPoint, DistributionGenerator.UniformPointMonotone |

The generators of the model use the corrected definitions. `Overflow.AverageAsWritten`
and `Overflow.UniformAsWrittenAgrees` show that they agree with the source whenever
the source does not overflow.

## Left out

- DistributionGenerator.Generator.Next: computes the average and uniformly spaced points with exact arithmetic rather than the wrapping 64-bit arithmetic of the source. The two differ only when the source overflows (see Findings).
- DistributionGenerator.Generator.Next: for a uniformly spaced generator it requires that the generator is not done. The source does not guard against a call after exhaustion, and what it returns then is not promised. An average-point generator may be called any number of times.
- The other strategies (exponentially spaced, log-space midpoint, uniformly random, exponentially random) are not in the source file. The `Generators` enumeration there has only the two kinds. They would also need floating-point `log`/`exp` and a hardware random source.
- Ownership of the heap object the factory allocates with `new`, and virtual dispatch of `next`. One class with a `kind` field and two named constructors stands in for the base class and its two subclasses.
- The test and console-printing helpers in tests/simple_tester.hpp are not part of this model.
- A uniformly spaced generator starts its count at 0 (src/distribution_generator.hpp:26) and stores the requested limit unchanged (src/distribution_generator.hpp:62), so its first point is min itself. The test file passes its arguments in the order (min, max, kind, count) (tests/distribution_generator_test.cpp:45), expects 10 and 20 as the first points of (0, 100, 9) (tests/distribution_generator_test.cpp:51, :53) and 80 as the last point of (0, 100, 4) (tests/distribution_generator_test.cpp:66). The model follows the source's argument order (min, max, count_limit, kind) and its values: 0 and 11, and 75.
