/**
 * Clients that drive all four accumulators over one stream, each stating
 * the results that the Update and Eval contracts alone let a caller derive.
 */
module Scenarios {
  import opened Aggregates
  import opened IStatistics

  /** Feeds every value of `xs`, in order, to each of the four accumulators. */
  method ConsumeAll(xs: seq<real>, mn: Min, mx: Max, me: Mean, sd: Std)
    requires mn.Valid() && mx.Valid() && me.Valid()
    modifies mn, mx, me, sd
    ensures mn.Valid() && mx.Valid() && me.Valid()
    ensures mn.seen == old(mn.seen) + xs && mx.seen == old(mx.seen) + xs
    ensures me.seen == old(me.seen) + xs && sd.values == old(sd.values) + xs
  {
    FeedMin(xs, mn);
    FeedMax(xs, mx);
    FeedMean(xs, me);
    FeedStd(xs, sd);
  }

  /** Feeds every value of `xs`, in order, to one Min. */
  method FeedMin(xs: seq<real>, mn: Min)
    requires mn.Valid()
    modifies mn
    ensures mn.Valid()
    ensures mn.seen == old(mn.seen) + xs
  {
    for i := 0 to |xs|
      invariant mn.Valid() && mn.seen == old(mn.seen) + xs[..i]
    {
      assert xs[..i + 1] == xs[..i] + [xs[i]];
      mn.Update(xs[i]);
    }
    assert xs[..|xs|] == xs;
  }

  /** Feeds every value of `xs`, in order, to one Max. */
  method FeedMax(xs: seq<real>, mx: Max)
    requires mx.Valid()
    modifies mx
    ensures mx.Valid()
    ensures mx.seen == old(mx.seen) + xs
  {
    for i := 0 to |xs|
      invariant mx.Valid() && mx.seen == old(mx.seen) + xs[..i]
    {
      assert xs[..i + 1] == xs[..i] + [xs[i]];
      mx.Update(xs[i]);
    }
    assert xs[..|xs|] == xs;
  }

  /** Feeds every value of `xs`, in order, to one Mean. */
  method FeedMean(xs: seq<real>, me: Mean)
    requires me.Valid()
    modifies me
    ensures me.Valid()
    ensures me.seen == old(me.seen) + xs
  {
    for i := 0 to |xs|
      invariant me.Valid() && me.seen == old(me.seen) + xs[..i]
    {
      assert xs[..i + 1] == xs[..i] + [xs[i]];
      me.Update(xs[i]);
    }
    assert xs[..|xs|] == xs;
  }

  /** Feeds every value of `xs`, in order, to one Std. */
  method FeedStd(xs: seq<real>, sd: Std)
    modifies sd
    ensures sd.values == old(sd.values) + xs
  {
    for i := 0 to |xs|
      invariant sd.values == old(sd.values) + xs[..i]
    {
      assert xs[..i + 1] == xs[..i] + [xs[i]];
      sd.Update(xs[i]);
    }
    assert xs[..|xs|] == xs;
  }

  /** The mean and population variance of 3, 1, 4, 1, 5: 2.8 and 2.56. */
  lemma FivePointsMoments()
    ensures MeanOf([3.0, 1.0, 4.0, 1.0, 5.0]) == Real(2.8)
    ensures VarianceOf([3.0, 1.0, 4.0, 1.0, 5.0]) == Real(2.56)
  {
    var p1, p2, p3, p4, s := [3.0], [3.0, 1.0], [3.0, 1.0, 4.0], [3.0, 1.0, 4.0, 1.0], [3.0, 1.0, 4.0, 1.0, 5.0];
    assert p1[..0] == [] && p2[..1] == p1 && p3[..2] == p2 && p4[..3] == p3 && s[..4] == p4;
    assert Sum(p1) == 3.0 && Sum(p2) == 4.0 && Sum(p3) == 8.0 && Sum(p4) == 9.0 && Sum(s) == 14.0;
    var m := 2.8;
    assert SumSqDev(p1, m) == 0.04;
    assert SumSqDev(p2, m) == 0.04 + 3.24;
    assert SumSqDev(p3, m) == 0.04 + 3.24 + 1.44;
    assert SumSqDev(p4, m) == 0.04 + 3.24 + 1.44 + 3.24;
    assert SumSqDev(s, m) == 12.8;
  }

  /** Consumes 3, 1, 4, 1, 5: min 1, max 5, mean 2.8, variance 2.56 (std 1.6). */
  method FivePoints() returns (lo: real, hi: real, avg: Num, variance: Num)
    ensures lo == 1.0 && hi == 5.0 && avg == Real(2.8) && variance == Real(2.56)
  {
    var mn := new Min();
    var mx := new Max();
    var me := new Mean();
    var sd := new Std();
    var xs := [3.0, 1.0, 4.0, 1.0, 5.0];
    ConsumeAll(xs, mn, mx, me, sd);
    assert mn.seen == mx.seen == me.seen == sd.values == xs;
    lo := mn.Eval().value;
    assert lo == 1.0 by {
      assert lo <= xs[1] && lo in xs + [DBL_MAX];
    }
    hi := mx.Eval().value;
    assert hi == 5.0 by {
      assert hi >= xs[4] && hi in xs + [DBL_MIN];
      SentinelsPositive();
    }
    avg := me.Eval();
    FivePointsMoments();
    variance := sd.Eval();
  }

  /**
   * Consumes -5, -2, -9: min -9, but max stays at the sentinel DBL_MIN
   * instead of -2, because no value exceeds the smallest positive normal double.
   */
  method AllNegative() returns (lo: real, hi: real)
    ensures lo == -9.0 && hi == DBL_MIN && hi != -2.0
  {
    var mn := new Min();
    var mx := new Max();
    var me := new Mean();
    var sd := new Std();
    var xs := [-5.0, -2.0, -9.0];
    ConsumeAll(xs, mn, mx, me, sd);
    assert mn.seen == mx.seen == me.seen == sd.values == xs;
    SentinelsPositive();
    lo := mn.Eval().value;
    assert lo == -9.0 by {
      assert lo <= xs[2] && lo in xs + [DBL_MAX];
    }
    hi := mx.Eval().value;
  }

  /** Consumes the single value 7: min, max and mean are 7, the variance 0. */
  method SinglePoint() returns (lo: real, hi: real, avg: Num, variance: Num)
    ensures lo == 7.0 && hi == 7.0 && avg == Real(7.0) && variance == Real(0.0)
  {
    var mn := new Min();
    var mx := new Max();
    var me := new Mean();
    var sd := new Std();
    ConsumeAll([7.0], mn, mx, me, sd);
    assert mn.seen == mx.seen == me.seen == sd.values == [7.0];
    SentinelsPositive();
    lo := mn.Eval().value;
    hi := mx.Eval().value;
    avg := me.Eval();
    assert [7.0][..0] == [];
    variance := sd.Eval();
    VarianceZeroIff([7.0]);
  }

  /**
   * Consumes nothing: min and max report their sentinels, mean and
   * variance the NaN of 0.0 / 0.
   */
  method NoPoints() returns (lo: real, hi: real, avg: Num, variance: Num)
    ensures lo == DBL_MAX && hi == DBL_MIN && avg == NaN && variance == NaN
  {
    var mn := new Min();
    var mx := new Max();
    var me := new Mean();
    var sd := new Std();
    lo := mn.Eval().value;
    hi := mx.Eval().value;
    avg := me.Eval();
    variance := sd.Eval();
  }

  /** Std::eval is const: two evaluations with no update between them agree. */
  method EvalTwice(sd: Std) returns (first: Num, second: Num)
    ensures first == second
  {
    first := sd.Eval();
    second := sd.Eval();
  }
}
