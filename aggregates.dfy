/**
 * The running statistics of istatistics.hpp, stated as functions of the
 * sequence of observations consumed so far, with the lemmas that say what
 * each of them means.  Every function recurses on the LAST observation, so
 * that a class whose update appends one value matches it step by step.
 * Doubles are modelled as `real`, without rounding.
 */
module Aggregates {

  /** numeric_limits<double>::max(), the largest finite double: 2^1024 - 2^971. */
  const DBL_MAX: real := 179769313486231570814527423731704356798070567525844996598917476803157260780028538760589558632766878171540458953514382464234321326889464182768467546703537516986049910576551282076245490090389328944075868508455133942304583236903222948165808559332123348274797826204144723168738177180919299881250404026184124858368.0

  /**
   * numeric_limits<double>::min(), the smallest POSITIVE normal double:
   * 2^-1022.  It is not the most negative double.
   */
  const DBL_MIN: real := 1.0 / 44942328371557897693232629769725618340449424473557664318357520289433168951375240783177119330601884005280028469967848339414697442203604155623211857659868531094441973356216371319075554900311523529863270738021251442209537670585615720368478277635206809290837627671146574559986811484619929076208839082406056034304.0

  lemma SentinelsPositive()
    ensures 0.0 < DBL_MIN < 1.0 < DBL_MAX
  {
  }

  /**
   * A double result as the model can produce it: a real number, or the
   * not-a-number that 0.0 / 0 yields when nothing has been consumed.
   */
  datatype Num = Real(value: real) | NaN

  // ---------------------------------------------------------------- minimum

  /** One step of Min::update: the new minimum after seeing `x`. */
  function MinStep(m: real, x: real): real
  {
    if x < m then x else m
  }

  /** The value m_min holds after consuming `s` in order, starting at DBL_MAX. */
  function MinOf(s: seq<real>): real
  {
    if s == [] then DBL_MAX else MinStep(MinOf(s[..|s| - 1]), s[|s| - 1])
  }

  /**
   * MinOf(s) is the least of DBL_MAX and every element of s: it is a lower
   * bound of both, and it is one of them.
   */
  lemma {:induction false} MinOfIsLeast(s: seq<real>)
    ensures MinOf(s) <= DBL_MAX
    ensures forall i :: 0 <= i < |s| ==> MinOf(s) <= s[i]
    ensures MinOf(s) == DBL_MAX || MinOf(s) in s
  {
    if s != [] {
      var p := s[..|s| - 1];
      MinOfIsLeast(p);
      assert s == p + [s[|s| - 1]];
    }
  }

  /**
   * On a non-empty stream of finite doubles (all at most DBL_MAX) the
   * sentinel disappears: MinOf is the stream's own minimum.
   */
  lemma MinOfNonEmpty(s: seq<real>)
    requires |s| > 0
    requires forall i :: 0 <= i < |s| ==> s[i] <= DBL_MAX
    ensures MinOf(s) in s
    ensures forall i :: 0 <= i < |s| ==> MinOf(s) <= s[i]
  {
    MinOfIsLeast(s);
    if MinOf(s) == DBL_MAX {
      assert s[0] <= DBL_MAX;
    }
  }

  /** MinOf depends only on the multiset of observations, not on their order. */
  lemma MinOfPermutation(s: seq<real>, t: seq<real>)
    requires multiset(s) == multiset(t)
    ensures MinOf(s) == MinOf(t)
  {
    MinOfIsLeast(s);
    MinOfIsLeast(t);
    var a, b := MinOf(s), MinOf(t);
    if a != DBL_MAX {
      assert a in multiset(t);
      var j :| 0 <= j < |t| && t[j] == a;
    }
    if b != DBL_MAX {
      assert b in multiset(s);
      var j :| 0 <= j < |s| && s[j] == b;
    }
  }

  // ---------------------------------------------------------------- maximum

  /** One step of Max::update: the new maximum after seeing `x`. */
  function MaxStep(m: real, x: real): real
  {
    if x > m then x else m
  }

  /** The value m_max holds after consuming `s` in order, starting at DBL_MIN. */
  function MaxOf(s: seq<real>): real
  {
    if s == [] then DBL_MIN else MaxStep(MaxOf(s[..|s| - 1]), s[|s| - 1])
  }

  /**
   * MaxOf(s) is the greatest of DBL_MIN and every element of s: it is an
   * upper bound of both, and it is one of them.
   */
  lemma {:induction false} MaxOfIsGreatest(s: seq<real>)
    ensures MaxOf(s) >= DBL_MIN
    ensures forall i :: 0 <= i < |s| ==> MaxOf(s) >= s[i]
    ensures MaxOf(s) == DBL_MIN || MaxOf(s) in s
  {
    if s != [] {
      var p := s[..|s| - 1];
      MaxOfIsGreatest(p);
      assert s == p + [s[|s| - 1]];
    }
  }

  /**
   * The sentinel hazard of Max: MaxOf stays at the small positive DBL_MIN
   * exactly when no observation exceeds it, so a stream of only negative
   * values (or zeros) reports DBL_MIN and not its own maximum.
   */
  lemma MaxOfIsSentinelIff(s: seq<real>)
    ensures MaxOf(s) == DBL_MIN <==> forall i :: 0 <= i < |s| ==> s[i] <= DBL_MIN
  {
    MaxOfIsGreatest(s);
    if MaxOf(s) != DBL_MIN {
      var j :| 0 <= j < |s| && s[j] == MaxOf(s);
    }
  }

  /**
   * When some observation exceeds DBL_MIN the sentinel disappears: MaxOf is
   * the stream's own maximum.
   */
  lemma MaxOfAboveSentinel(s: seq<real>, k: nat)
    requires k < |s| && s[k] > DBL_MIN
    ensures MaxOf(s) in s
    ensures forall i :: 0 <= i < |s| ==> MaxOf(s) >= s[i]
  {
    MaxOfIsGreatest(s);
  }

  /** MaxOf depends only on the multiset of observations, not on their order. */
  lemma MaxOfPermutation(s: seq<real>, t: seq<real>)
    requires multiset(s) == multiset(t)
    ensures MaxOf(s) == MaxOf(t)
  {
    MaxOfIsGreatest(s);
    MaxOfIsGreatest(t);
    var a, b := MaxOf(s), MaxOf(t);
    if a != DBL_MIN {
      assert a in multiset(t);
      var j :| 0 <= j < |t| && t[j] == a;
    }
    if b != DBL_MIN {
      assert b in multiset(s);
      var j :| 0 <= j < |s| && s[j] == b;
    }
  }

  // ------------------------------------------------------------------- mean

  /** The left-to-right sum 0.0 + s[0] + s[1] + ..., as std::accumulate and m_sum form it. */
  function Sum(s: seq<real>): real
  {
    if s == [] then 0.0 else Sum(s[..|s| - 1]) + s[|s| - 1]
  }

  /** m_sum / m_cnt: the arithmetic mean, NaN when nothing was consumed. */
  function MeanOf(s: seq<real>): Num
  {
    if |s| == 0 then NaN else Real(Sum(s) / |s| as real)
  }

  lemma {:induction false} SumAppend(s: seq<real>, t: seq<real>)
    ensures Sum(s + t) == Sum(s) + Sum(t)
    decreases |t|
  {
    if t != [] {
      var u := t[..|t| - 1];
      assert (s + t)[..|s + t| - 1] == s + u;
      assert (s + t)[|s + t| - 1] == t[|t| - 1];
      SumAppend(s, u);
    } else {
      assert s + t == s;
    }
  }

  /**
   * Taking the last element off s and a matching element off t keeps two
   * equal multisets equal; the step of every permutation proof below.
   */
  lemma RemoveLast(s: seq<real>, t: seq<real>, i: nat)
    requires multiset(s) == multiset(t)
    requires s != [] && i < |t| && t[i] == s[|s| - 1]
    ensures multiset(s[..|s| - 1]) == multiset(t[..i] + t[i + 1..])
  {
    var p, x, l, r := s[..|s| - 1], s[|s| - 1], t[..i], t[i + 1..];
    assert s == p + [x];
    assert t == l + [x] + r;
    assert multiset(l + r) == multiset(l) + multiset(r);
    assert multiset(p) == multiset(s) - multiset{x};
    assert multiset(l + r) == multiset(t) - multiset{x};
  }

  /** Sum depends only on the multiset of observations, not on their order. */
  lemma {:induction false} SumPermutation(s: seq<real>, t: seq<real>)
    requires multiset(s) == multiset(t)
    ensures Sum(s) == Sum(t)
    decreases |s|
  {
    if s == [] {
      assert |t| == |multiset(t)| == 0;
    } else {
      var p, x := s[..|s| - 1], s[|s| - 1];
      assert s == p + [x];
      assert x in multiset(t);
      var i :| 0 <= i < |t| && t[i] == x;
      var l, r := t[..i], t[i + 1..];
      assert t == l + [x] + r;
      RemoveLast(s, t, i);
      SumPermutation(p, l + r);
      SumAppend(l, r);
      SumAppend(l + [x], r);
      SumAppend(l, [x]);
      assert Sum([x]) == x by {
        assert [x][..0] == [];
      }
    }
  }

  /** Every observation in [lo, hi] puts the sum in [n * lo, n * hi]. */
  lemma {:induction false} SumBounds(s: seq<real>, lo: real, hi: real)
    requires forall i :: 0 <= i < |s| ==> lo <= s[i] <= hi
    ensures |s| as real * lo <= Sum(s) <= |s| as real * hi
  {
    if s != [] {
      var p := s[..|s| - 1];
      SumBounds(p, lo, hi);
    }
  }

  /** The mean of a non-empty stream lies between any bounds of its values. */
  lemma MeanBetween(s: seq<real>, lo: real, hi: real)
    requires |s| > 0
    requires forall i :: 0 <= i < |s| ==> lo <= s[i] <= hi
    ensures MeanOf(s).Real? && lo <= MeanOf(s).value <= hi
  {
    SumBounds(s, lo, hi);
    var n := |s| as real;
    assert Sum(s) / n >= lo by {
      assert Sum(s) >= n * lo;
    }
    assert Sum(s) / n <= hi by {
      assert Sum(s) <= n * hi;
    }
  }

  /** The mean of a stream whose values are all `c` is `c`. */
  lemma MeanOfConstant(s: seq<real>, c: real)
    requires |s| > 0
    requires forall i :: 0 <= i < |s| ==> s[i] == c
    ensures MeanOf(s) == Real(c)
  {
    MeanBetween(s, c, c);
  }

  /** MeanOf depends only on the multiset of observations, not on their order. */
  lemma MeanOfPermutation(s: seq<real>, t: seq<real>)
    requires multiset(s) == multiset(t)
    ensures MeanOf(s) == MeanOf(t)
  {
    assert |s| == |multiset(s)| == |multiset(t)| == |t|;
    SumPermutation(s, t);
  }

  // --------------------------------------------------------------- variance

  /** (d - mean) * (d - mean), one term of Std::eval's second pass. */
  function SqDev(d: real, mean: real): real
  {
    (d - mean) * (d - mean)
  }

  /** The left-to-right sum of squared deviations from `mean`. */
  function SumSqDev(s: seq<real>, mean: real): real
  {
    if s == [] then 0.0 else SumSqDev(s[..|s| - 1], mean) + SqDev(s[|s| - 1], mean)
  }

  /**
   * Population variance: the mean squared deviation from the mean, dividing
   * by the count N (not N - 1); NaN when nothing was consumed.
   */
  function VarianceOf(s: seq<real>): Num
  {
    if |s| == 0 then NaN else Real(SumSqDev(s, Sum(s) / |s| as real) / |s| as real)
  }

  lemma {:induction false} SumSqDevNonNegative(s: seq<real>, mean: real)
    ensures SumSqDev(s, mean) >= 0.0
  {
    if s != [] {
      var d := s[|s| - 1];
      SumSqDevNonNegative(s[..|s| - 1], mean);
      SqDevZeroIff(d, mean);
    }
  }

  lemma ZeroProduct(a: real, b: real)
    requires a * b == 0.0
    ensures a == 0.0 || b == 0.0
  {
  }

  /** A single squared deviation vanishes exactly at the mean. */
  lemma SqDevZeroIff(d: real, mean: real)
    ensures SqDev(d, mean) >= 0.0
    ensures SqDev(d, mean) == 0.0 <==> d == mean
  {
    if SqDev(d, mean) == 0.0 {
      ZeroProduct(d - mean, d - mean);
    }
  }

  /** The squared deviations sum to zero exactly when every value equals `mean`. */
  lemma {:induction false} SumSqDevZeroIff(s: seq<real>, mean: real)
    ensures SumSqDev(s, mean) == 0.0 <==> forall i :: 0 <= i < |s| ==> s[i] == mean
  {
    if s != [] {
      var p, d := s[..|s| - 1], s[|s| - 1];
      SumSqDevZeroIff(p, mean);
      SumSqDevNonNegative(p, mean);
      SqDevZeroIff(d, mean);
      if forall i :: 0 <= i < |p| ==> p[i] == mean {
        if d == mean {
          forall i | 0 <= i < |s| ensures s[i] == mean {
            if i < |p| { assert s[i] == p[i]; }
          }
        }
      }
      if forall i :: 0 <= i < |s| ==> s[i] == mean {
        forall i | 0 <= i < |p| ensures p[i] == mean {
          assert p[i] == s[i];
        }
      }
    }
  }

  /** The variance of a non-empty stream is a real number, at least zero. */
  lemma VarianceNonNegative(s: seq<real>)
    requires |s| > 0
    ensures VarianceOf(s).Real? && VarianceOf(s).value >= 0.0
  {
    SumSqDevNonNegative(s, Sum(s) / |s| as real);
  }

  /**
   * The variance of a non-empty stream is zero exactly when all its values
   * are equal; in particular it is zero for a single observation.
   */
  lemma VarianceZeroIff(s: seq<real>)
    requires |s| > 0
    ensures VarianceOf(s) == Real(0.0) <==>
              forall i, j :: 0 <= i < |s| && 0 <= j < |s| ==> s[i] == s[j]
  {
    var n := |s| as real;
    var mean := Sum(s) / n;
    SumSqDevZeroIff(s, mean);
    if forall i, j :: 0 <= i < |s| && 0 <= j < |s| ==> s[i] == s[j] {
      forall i | 0 <= i < |s| ensures s[i] == s[0] {
      }
      MeanOfConstant(s, s[0]);
    }
    if VarianceOf(s) == Real(0.0) {
      assert SumSqDev(s, mean) / n == 0.0;
      assert SumSqDev(s, mean) == 0.0;
    }
  }

  lemma {:induction false} SumSqDevAppend(s: seq<real>, t: seq<real>, mean: real)
    ensures SumSqDev(s + t, mean) == SumSqDev(s, mean) + SumSqDev(t, mean)
    decreases |t|
  {
    if t != [] {
      var u := t[..|t| - 1];
      assert (s + t)[..|s + t| - 1] == s + u;
      assert (s + t)[|s + t| - 1] == t[|t| - 1];
      SumSqDevAppend(s, u, mean);
    } else {
      assert s + t == s;
    }
  }

  /** SumSqDev depends only on the multiset of observations, not on their order. */
  lemma {:induction false} SumSqDevPermutation(s: seq<real>, t: seq<real>, mean: real)
    requires multiset(s) == multiset(t)
    ensures SumSqDev(s, mean) == SumSqDev(t, mean)
    decreases |s|
  {
    if s == [] {
      assert |t| == |multiset(t)| == 0;
    } else {
      var p, x := s[..|s| - 1], s[|s| - 1];
      assert s == p + [x];
      assert x in multiset(t);
      var i :| 0 <= i < |t| && t[i] == x;
      var l, r := t[..i], t[i + 1..];
      assert t == l + [x] + r;
      RemoveLast(s, t, i);
      SumSqDevPermutation(p, l + r, mean);
      SumSqDevAppend(l, r, mean);
      SumSqDevAppend(l + [x], r, mean);
      SumSqDevAppend(l, [x], mean);
      assert SumSqDev([x], mean) == SqDev(x, mean) by {
        assert [x][..0] == [];
      }
    }
  }

  /** VarianceOf depends only on the multiset of observations, not on their order. */
  lemma VarianceOfPermutation(s: seq<real>, t: seq<real>)
    requires multiset(s) == multiset(t)
    ensures VarianceOf(s) == VarianceOf(t)
  {
    assert |s| == |multiset(s)| == |multiset(t)| == |t|;
    SumPermutation(s, t);
    if |s| > 0 {
      SumSqDevPermutation(s, t, Sum(s) / |s| as real);
    }
  }
}
