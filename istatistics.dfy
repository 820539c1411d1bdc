/**
 * The four accumulators of istatistics.hpp.  Each class keeps the fields the
 * C++ class keeps and is updated in place by Update; Eval and Name are
 * queries that change nothing.  Min, Max and Mean also carry a ghost
 * history `seen` of the values consumed so far, which Valid() ties to the
 * real fields through the functions of module Aggregates; Std keeps its
 * history for real, as the C++ vector does.
 *
 * Every class offers the triple Update / Eval / Name of the abstract
 * interface IStatistics, and every Eval returns a `Num`, the model of the
 * interface's `double` result.  The signatures are not uniform: Eval is a
 * function on Min, Max and Mean and a method on Std, and the Update and
 * Eval of Min, Max and Mean require Valid().
 */
module IStatistics {
  import opened Aggregates

  /** class Min: the running minimum, starting at DBL_MAX. */
  class Min {
    var min: real
    ghost var seen: seq<real>

    ghost predicate Valid()
      reads this
    {
      min == MinOf(seen)
    }

    constructor ()
      ensures Valid() && seen == [] && min == DBL_MAX
    {
      min := DBL_MAX;
      seen := [];
    }

    /** Replaces the minimum when `next` is strictly smaller. */
    method Update(next: real)
      requires Valid()
      modifies this
      ensures Valid() && seen == old(seen) + [next]
      ensures min == (if next < old(min) then next else old(min))
      ensures min <= old(min)
    {
      if next < min {
        min := next;
      }
      seen := seen + [next];
      assert seen[..|seen| - 1] == old(seen);
    }

    /**
     * The least of DBL_MAX and every value consumed so far; it is one of
     * them.
     */
    function Eval(): (r: Num)
      reads this
      requires Valid()
      ensures r.Real? && r.value <= DBL_MAX
      ensures forall i :: 0 <= i < |seen| ==> r.value <= seen[i]
      ensures r.value == DBL_MAX || r.value in seen
    {
      MinOfIsLeast(seen);
      Real(min)
    }

    /** A fixed, non-empty display name; it reads no field. */
    function Name(): (n: string)
      ensures n != []
    {
      "min value"
    }
  }

  /**
   * class Max: the running maximum, starting at DBL_MIN, the smallest
   * positive normal double, so that values at or below it (negative values,
   * zero and subnormals) never register.
   */
  class Max {
    var max: real
    ghost var seen: seq<real>

    ghost predicate Valid()
      reads this
    {
      max == MaxOf(seen)
    }

    constructor ()
      ensures Valid() && seen == [] && max == DBL_MIN
    {
      max := DBL_MIN;
      seen := [];
    }

    /** Replaces the maximum when `next` is strictly greater. */
    method Update(next: real)
      requires Valid()
      modifies this
      ensures Valid() && seen == old(seen) + [next]
      ensures max == (if next > old(max) then next else old(max))
      ensures max >= old(max)
    {
      if next > max {
        max := next;
      }
      seen := seen + [next];
      assert seen[..|seen| - 1] == old(seen);
    }

    /**
     * The greatest of DBL_MIN and every value consumed so far; it is one of
     * them, and it is DBL_MIN exactly when no value exceeded DBL_MIN.
     */
    function Eval(): (r: Num)
      reads this
      requires Valid()
      ensures r.Real? && r.value >= DBL_MIN
      ensures forall i :: 0 <= i < |seen| ==> r.value >= seen[i]
      ensures r.value == DBL_MIN || r.value in seen
      ensures r.value == DBL_MIN <==> forall i :: 0 <= i < |seen| ==> seen[i] <= DBL_MIN
    {
      MaxOfIsGreatest(seen);
      MaxOfIsSentinelIff(seen);
      Real(max)
    }

    /** A fixed, non-empty display name; it reads no field. */
    function Name(): (n: string)
      ensures n != []
    {
      "max value"
    }
  }

  /** class Mean: a running sum and count. */
  class Mean {
    var sum: real
    var cnt: nat
    ghost var seen: seq<real>

    ghost predicate Valid()
      reads this
    {
      sum == Sum(seen) && cnt == |seen|
    }

    constructor ()
      ensures Valid() && seen == [] && sum == 0.0 && cnt == 0
    {
      sum, cnt := 0.0, 0;
      seen := [];
    }

    /** Adds `next` to the sum and counts it. */
    method Update(next: real)
      requires Valid()
      modifies this
      ensures Valid() && seen == old(seen) + [next]
      ensures sum == old(sum) + next && cnt == old(cnt) + 1
    {
      sum := sum + next;
      cnt := cnt + 1;
      seen := seen + [next];
      assert seen[..|seen| - 1] == old(seen);
    }

    /**
     * sum / cnt: the arithmetic mean of the values consumed so far, and the
     * NaN of 0.0 / 0 when there are none.
     */
    function Eval(): (r: Num)
      reads this
      requires Valid()
      ensures r == MeanOf(seen)
      ensures r.NaN? <==> seen == []
    {
      if cnt == 0 then NaN else Real(sum / cnt as real)
    }

    /** A fixed, non-empty display name; it reads no field. */
    function Name(): (n: string)
      ensures n != []
    {
      "average value"
    }
  }

  /** class Std: every observation, kept in order. */
  class Std {
    var values: seq<real>

    constructor ()
      ensures values == []
    {
      values := [];
    }

    /** push_back: appends `next` and leaves the earlier values as they were. */
    method Update(next: real)
      modifies this
      ensures values == old(values) + [next]
      ensures |values| == |old(values)| + 1 && values[..|old(values)|] == old(values)
    {
      values := values + [next];
    }

    /**
     * The two passes of Std::eval up to the square root: the mean of the
     * values, then the sum of squared deviations from it, divided by the
     * count.  With no values the first division is 0.0 / 0 and the result
     * is NaN.
     */
    method Eval() returns (r: Num)
      ensures r == VarianceOf(values)
      ensures r.NaN? <==> values == []
      ensures r.Real? ==> r.value >= 0.0
    {
      var total := 0.0;
      var i := 0;
      while i < |values|
        invariant 0 <= i <= |values|
        invariant total == Sum(values[..i])
      {
        assert values[..i + 1][..i] == values[..i];
        total := total + values[i];
        i := i + 1;
      }
      assert values[..i] == values;
      var n := |values|;
      if n == 0 {
        return NaN;
      }
      var mean := total / n as real;
      var accum := 0.0;
      i := 0;
      while i < n
        invariant 0 <= i <= n
        invariant accum == SumSqDev(values[..i], mean)
      {
        assert values[..i + 1][..i] == values[..i];
        accum := accum + (values[i] - mean) * (values[i] - mean);
        assert accum == SumSqDev(values[..i + 1], mean);
        i := i + 1;
      }
      assert values[..i] == values;
      r := Real(accum / n as real);
      VarianceNonNegative(values);
    }

    /** A fixed, non-empty display name; it reads no field. */
    function Name(): (n: string)
      ensures n != []
    {
      "standard deviation"
    }
  }
}
