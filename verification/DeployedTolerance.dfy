/** The deployed step with tolerances other than the default: enough for every one up to twenty nodes. */
module DeployedTolerance {
  import opened Powers
  import opened RatioSearch
  import opened DeployedRatio
  import opened ToleranceRange

  predicate SecondTest(n: nat, t: nat, r: real)
    requires t < n
  {
    0.5 * (Pow(r, n) + 1.0) > Pow(r, n - t - 1)
  }

  // ---- One ratio serves a span of cluster sizes ----

  /** At a fixed ratio and tolerance, the first test holds from some size on. */
  lemma {:induction false} FirstTestUp(n: nat, t: nat, r: real, more: nat)
    requires t <= n <= more && r > 1.0 && FirstTest(n, t, r)
    ensures FirstTest(more, t, r)
    decreases more - n
  {
    if n < more {
      PowStep(r, n - t);
      PowStep(r, n);
      Raised(r, Pow(r, n - t), Pow(r, n));
      FirstTestUp(n + 1, t, r, more);
    }
  }

  lemma Raised(r: real, e: real, n: real)
    requires r > 1.0 && e > 0.5 * (n + 1.0)
    ensures r * e > 0.5 * (r * n + 1.0)
  {
    ScaleLess(r, 0.5 * (n + 1.0), e, r * (0.5 * (n + 1.0)), r * e);
  }

  /** And the second up to some size. */
  lemma {:induction false} SecondTestDown(n: nat, t: nat, r: real, more: nat)
    requires t < n <= more && r > 1.0 && SecondTest(more, t, r)
    ensures SecondTest(n, t, r)
    decreases more - n
  {
    if n < more {
      SecondTestDown(n + 1, t, r, more);
      PowStep(r, n - t - 1);
      PowStep(r, n);
      Lowered(r, Pow(r, n - t - 1), Pow(r, n));
    }
  }

  lemma Lowered(r: real, e: real, n: real)
    requires r > 1.0 && 0.5 * (r * n + 1.0) > r * e
    ensures 0.5 * (n + 1.0) > e
  {
    ScaleLess(r, e, 0.5 * (n + 1.0), r * e, r * (0.5 * (n + 1.0)));
  }

  /** The k-th ratio tried serves tolerance t from lo to hi nodes. */
  predicate Serves(t: nat, k: nat, lo: nat, hi: nat)
    requires t < lo <= hi
  {
    Tried(STEP, k) > 1.0 && FirstTest(lo, t, Tried(STEP, k)) && SecondTest(hi, t, Tried(STEP, k))
  }

  lemma SpanPasses(t: nat, k: nat, lo: nat, hi: nat, n: nat)
    requires t < lo <= n <= hi && Serves(t, k, lo, hi)
    ensures FindsPositive(n, t + 1, STEP)
  {
    FirstTestUp(lo, t, Tried(STEP, k), n);
    SecondTestDown(n, t, Tried(STEP, k), hi);
    assert Passes(n, t + 1, Tried(STEP, k));
  }

  // ---- The ratios ----

  lemma LowTolerances()
    ensures Serves(1, 1, 10, 20) && Serves(2, 70, 10, 20) && Serves(3, 81, 10, 20)
    ensures Serves(4, 92, 10, 13) && Serves(4, 87, 14, 20)
  {
    assert Tried(STEP, 1) == 1.99 && Tried(STEP, 70) == 1.3 && Tried(STEP, 81) == 1.19;
    assert Tried(STEP, 92) == 1.08 && Tried(STEP, 87) == 1.13;
  }

  lemma MiddleTolerances()
    ensures Serves(5, 97, 11, 13) && Serves(5, 91, 14, 19) && Serves(5, 90, 20, 20)
    ensures Serves(6, 98, 13, 15) && Serves(6, 95, 16, 17) && Serves(6, 93, 18, 20)
  {
    assert Tried(STEP, 97) == 1.03 && Tried(STEP, 91) == 1.09 && Tried(STEP, 90) == 1.1;
    assert Tried(STEP, 98) == 1.02 && Tried(STEP, 95) == 1.05 && Tried(STEP, 93) == 1.07;
  }

  lemma HighTolerances()
    ensures Serves(7, 99, 15, 16) && Serves(7, 97, 17, 18) && Serves(7, 95, 19, 20)
    ensures Serves(8, 99, 17, 18) && Serves(8, 97, 19, 20) && Serves(9, 99, 19, 20)
  {
    assert Tried(STEP, 99) == 1.01 && Tried(STEP, 97) == 1.03 && Tried(STEP, 95) == 1.05;
  }

  lemma TenToTwenty(n: nat, t: nat)
    requires 10 <= n <= 20 && 1 <= t && 2 * t < n
    ensures FindsPositive(n, t + 1, STEP)
  {
    LowTolerances();
    MiddleTolerances();
    HighTolerances();
    match t {
      case 1 => SpanPasses(1, 1, 10, 20, n);
      case 2 => SpanPasses(2, 70, 10, 20, n);
      case 3 => SpanPasses(3, 81, 10, 20, n);
      case 4 => if n <= 13 { SpanPasses(4, 92, 10, 13, n); } else { SpanPasses(4, 87, 14, 20, n); }
      case 5 =>
        if n <= 13 { SpanPasses(5, 97, 11, 13, n); }
        else if n <= 19 { SpanPasses(5, 91, 14, 19, n); }
        else { SpanPasses(5, 90, 20, 20, n); }
      case 6 =>
        if n <= 15 { SpanPasses(6, 98, 13, 15, n); }
        else if n <= 17 { SpanPasses(6, 95, 16, 17, n); }
        else { SpanPasses(6, 93, 18, 20, n); }
      case 7 =>
        if n <= 16 { SpanPasses(7, 99, 15, 16, n); }
        else if n <= 18 { SpanPasses(7, 97, 17, 18, n); }
        else { SpanPasses(7, 95, 19, 20, n); }
      case 8 => if n <= 18 { SpanPasses(8, 99, 17, 18, n); } else { SpanPasses(8, 97, 19, 20, n); }
      case _ => SpanPasses(9, 99, 19, 20, n);
    }
  }

  /** With the deployed step, up to twenty nodes, every tolerance below half of them finds a usable ratio. */
  lemma MinorityFindsRatio(n: nat, t: nat)
    requires 2 * t < n <= 20
    ensures FindsPositive(n, t + 1, STEP)
  {
    if t == 0 {
      ZeroTolerancePasses(n);
      assert Tried(STEP, 0) == 2.0;
      assert Passes(n, 1, Tried(STEP, 0));
    } else if n <= 9 {
      MulMono(n as real, 9.0, n as real, 9.0);
      SearchHaltsForMinority(n, t, STEP);
    } else {
      TenToTwenty(n, t);
    }
  }

  /** With twenty-one and tolerance 10 there is none. */
  lemma TwentyOneIsTheFirstGap()
    ensures !FindsPositive(21, 10 + 1, STEP)
  {
    DeployedSearchExact(21);
  }
}
