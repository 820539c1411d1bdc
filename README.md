# Streaming statistics accumulators

A Dafny model of `istatistics.hpp`, a small C++ library of streaming
statistics: the interface `IStatistics` (`update(next)`, `eval()`,
`name()`) and its four implementations `Min`, `Max`, `Mean` and `Std`.
Each accumulator is fed observations one at a time and reports its running
result on demand.

The project has three modules:

- `Aggregates` (`aggregates.dfy`) states each statistic as a function of
  the sequence of observations consumed so far (`MinOf`, `MaxOf`, `Sum`,
  `MeanOf`, `SumSqDev`, `VarianceOf`). Its lemmas say what each function
  means and that none of them depends on the order of the observations.
  The two sentinels are exact: `DBL_MAX` is `2^1024 - 2^971`
  (`numeric_limits<double>::max()`), and `DBL_MIN` is `2^-1022`
  (`numeric_limits<double>::min()`, the smallest positive normal double).
- `IStatistics` (`istatistics.dfy`) has one class per C++ class, with the
  same fields, updated in place by `Update`. `Min`, `Max` and `Mean` also keep
  a ghost history `seen`, which an object invariant `Valid()` ties to the
  real fields. `Std` keeps its history for real, as the C++ `std::vector`
  does. `Eval` and `Name` change nothing, as the `const` methods of the
  source do. `Std.Eval` mirrors the two passes of `Std::eval` with two loops.
- `Scenarios` (`scenarios.dfy`) has clients that drive all four accumulators
  over one stream. Each one derives the results from the class contracts
  alone.

Doubles are modelled as `real`. A division `0.0 / 0` yields NaN in the
source. Here it is the `NaN` case of `datatype Num = Real(value) | NaN`, so
`Mean.Eval` and `Std.Eval` return `NaN` exactly when nothing was consumed.

The `Max` sentinel is reproduced as written. `Max` starts at the smallest
*positive normal* double, so a stream whose values are all at or below it
leaves the maximum at `DBL_MIN`. Negative values, zero and the tiny positive
(subnormal) doubles below `2^-1022` all fall in that range.
`MaxOfIsSentinelIff` and `Scenarios.AllNegative` state this hazard.

## Model

| member | source | states |
|---|---|---|
| `Aggregates.SentinelsPositive` | istatistics.hpp:21-41 | Both sentinels are positive, with DBL_MIN below 1 and DBL_MAX above it. So DBL_MIN is not a "most negative" start value. |
| `Aggregates.MinOfIsLeast` | istatistics.hpp:21-29 | The minimum after any stream is at most DBL_MAX and at most every consumed value, and it is DBL_MAX or one of the values. |
| `Aggregates.MinOfNonEmpty` | istatistics.hpp:21-29 | For a non-empty stream of values at most DBL_MAX, the minimum is the stream's own minimum: a member of the stream and a lower bound of it. |
| `Aggregates.MinOfPermutation` | istatistics.hpp:23-27 | Two streams with the same multiset of values give the same minimum. So the order of updates, including two consecutive ones, does not matter. |
| `Aggregates.MaxOfIsGreatest` | istatistics.hpp:41-49 | The maximum after any stream is at least DBL_MIN and at least every consumed value, and it is DBL_MIN or one of the values. |
| `Aggregates.MaxOfIsSentinelIff` | istatistics.hpp:41-47 | The maximum equals the sentinel DBL_MIN if and only if no consumed value exceeds DBL_MIN, for example when every value is negative. |
| `Aggregates.MaxOfAboveSentinel` | istatistics.hpp:41-49 | Once some value exceeds DBL_MIN, the maximum is the stream's own maximum: a member of the stream and an upper bound of it. |
| `Aggregates.MaxOfPermutation` | istatistics.hpp:43-47 | Two streams with the same multiset of values give the same maximum. |
| `Aggregates.SumAppend` | istatistics.hpp:64 | The running sum of a concatenation is the sum of the two parts' sums. |
| `Aggregates.SumPermutation` | istatistics.hpp:63-66 | Two streams with the same multiset of values give the same running sum. |
| `Aggregates.SumBounds` | istatistics.hpp:64 | If every value lies in [lo, hi], the sum of n values lies in [n·lo, n·hi]. |
| `Aggregates.MeanBetween` | istatistics.hpp:68 | The mean of a non-empty stream is a real number, and it lies between any lower and upper bound of the stream's values. |
| `Aggregates.MeanOfConstant` | istatistics.hpp:68 | The mean of a non-empty stream whose values all equal c is c. |
| `Aggregates.MeanOfPermutation` | istatistics.hpp:63-68 | Two streams with the same multiset of values give the same mean. |
| `Aggregates.SqDevZeroIff` | istatistics.hpp:92 | One squared deviation `(d - mean) * (d - mean)` is non-negative, and it is zero if and only if d equals the mean. |
| `Aggregates.SumSqDevNonNegative` | istatistics.hpp:90-92 | The accumulated sum of squared deviations is non-negative for every stream and every mean. |
| `Aggregates.SumSqDevZeroIff` | istatistics.hpp:90-92 | The accumulated sum of squared deviations is zero if and only if every value equals the mean. |
| `Aggregates.SumSqDevAppend` | istatistics.hpp:90-92 | The sum of squared deviations over a concatenation is the sum of the two parts' sums. |
| `Aggregates.SumSqDevPermutation` | istatistics.hpp:90-92 | Two streams with the same multiset of values give the same sum of squared deviations. |
| `Aggregates.VarianceNonNegative` | istatistics.hpp:85-94 | The population variance `accum / size` of a non-empty stream is a real number, at least zero. |
| `Aggregates.VarianceZeroIff` | istatistics.hpp:85-94 | The variance of a non-empty stream is zero if and only if all its values are equal. In particular it is zero for one observation. |
| `Aggregates.VarianceOfPermutation` | istatistics.hpp:85-94 | Two streams with the same multiset of values give the same variance. |
| `IStatistics.Min.constructor` | istatistics.hpp:21 | A new Min has an empty history and holds DBL_MAX. |
| `IStatistics.Min.Update` | istatistics.hpp:23-27 | `next` is appended to the history. The minimum becomes `next` when `next` is strictly smaller and is unchanged otherwise, so it never increases. |
| `IStatistics.Min.Eval` | istatistics.hpp:29 | Returns a real number (never NaN): the least of DBL_MAX and every consumed value, and that result is DBL_MAX or one of the values. It reads the object and changes nothing. |
| `IStatistics.Min.Name` | istatistics.hpp:31 | Returns a non-empty name that reads no field, so it is the same at all times. |
| `IStatistics.Max.constructor` | istatistics.hpp:41 | A new Max has an empty history and holds DBL_MIN, the smallest positive normal double. |
| `IStatistics.Max.Update` | istatistics.hpp:43-47 | `next` is appended to the history. The maximum becomes `next` when `next` is strictly greater and is unchanged otherwise, so it never decreases. |
| `IStatistics.Max.Eval` | istatistics.hpp:49 | Returns a real number (never NaN): the greatest of DBL_MIN and every consumed value, and that result is DBL_MIN or one of the values. The result is DBL_MIN if and only if no value exceeded DBL_MIN. |
| `IStatistics.Max.Name` | istatistics.hpp:51 | Returns a non-empty name that reads no field. |
| `IStatistics.Mean.constructor` | istatistics.hpp:61 | A new Mean has sum 0, count 0 and an empty history. |
| `IStatistics.Mean.Update` | istatistics.hpp:63-66 | `next` is added to the sum, the count grows by one, and `next` is appended to the history. Afterwards the sum is the history's sum and the count is its length. |
| `IStatistics.Mean.Eval` | istatistics.hpp:68 | Returns the mean of the history. The result is NaN if and only if nothing was consumed. |
| `IStatistics.Mean.Name` | istatistics.hpp:70 | Returns a non-empty name that reads no field. |
| `IStatistics.Std.constructor` | istatistics.hpp:81 | A new Std retains no values. |
| `IStatistics.Std.Update` | istatistics.hpp:83 | `next` is appended to the retained values. The length grows by one and every earlier value is unchanged. |
| `IStatistics.Std.Eval` | istatistics.hpp:85-94 | The two loops compute the population variance of the retained values. The result is NaN if and only if no value was retained, and otherwise it is non-negative. |
| `IStatistics.Std.Name` | istatistics.hpp:97 | Returns a non-empty name that reads no field. |
| `Scenarios.FivePointsMoments` | istatistics.hpp:59-95 | For the stream 3, 1, 4, 1, 5 the mean is 2.8 and the population variance is 2.56. |
| `Scenarios.FivePoints` | istatistics.hpp:19-95 | Feeding 3, 1, 4, 1, 5 to all four accumulators gives min 1, max 5, mean 2.8 and variance 2.56. |
| `Scenarios.AllNegative` | istatistics.hpp:41-49 | Feeding -5, -2, -9 gives min -9, while max stays at DBL_MIN and is not -2. |
| `Scenarios.SinglePoint` | istatistics.hpp:19-95 | Feeding the single value 7 gives min, max and mean 7, and variance 0. |
| `Scenarios.NoPoints` | istatistics.hpp:19-95 | With no observations, min is DBL_MAX, max is DBL_MIN, and mean and variance are NaN. |
| `Scenarios.EvalTwice` | istatistics.hpp:85 | Two `Std.Eval` calls with no update between them return the same result. |

## Left out

- IStatistics: the abstract base class and its virtual dispatch (istatistics.hpp:8-15) are not declared, so a caller cannot hold the four accumulators behind one type. All four `Eval`s return `Num`, but their signatures still differ. `Min.Eval`, `Max.Eval` and `Mean.Eval` are functions that require the object invariant `Valid()`. `Std.Eval` is a method with no precondition, because its two loops need a method body. `Min`, `Max` and `Mean` `Update` also require `Valid()`, and `Std.Update` does not.
- IStatistics.Std.Eval: returns the variance `accum / size`, not `sqrt` of it (istatistics.hpp:94). The square root is a floating-point library call with no exact counterpart on `real`.
- IEEE-754 arithmetic: doubles are `real`. `m_sum += next` and the `accum` loop are exact here, with no rounding.
- NaN and infinite observations are not modelled. Every input is a finite real, and the only NaN is the one `0.0 / 0` produces with no observations.
- IStatistics.Mean.Update: the count `m_cnt` is an `int` in the source (istatistics.hpp:74) and a `nat` here, so its overflow after 2^31 - 1 updates is not modelled.
- The virtual destructor and the release of the vector's memory (istatistics.hpp:10, 100) are resource management with no observable behaviour to state.
- `Scenarios.ConsumeAll` feeds a stream to accumulators that may already hold values, one accumulator at a time through `FeedMin`, `FeedMax`, `FeedMean` and `FeedStd`. It stands for the external driver that feeds observations. The source's driver, input parsing and output formatting are not part of this model.
