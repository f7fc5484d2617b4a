/** The ratio search as the server runs it: default tolerance and step 0.01. */
module DeployedRatio {
  import opened Powers
  import opened RatioSearch

  const STEP: real := 0.01

  /** The cluster sizes for which the deployed search meets a usable ratio. */
  predicate Supported(n: nat) {
    if n % 2 == 1 then n <= 19 else n <= 28
  }

  /** The deployed search meets a ratio with positive weights exactly for these sizes. */
  lemma DeployedSearchExact(n: nat)
    requires n >= 1
    ensures FindsPositive(n, DefaultQuorum(n), STEP) <==> Supported(n)
  {
    LowestDeployed();
    FindsPositiveIffLowest(n, STEP, 99);
    LoadIsPasses(n, STEP);
    if Supported(n) {
      SupportedIsLight(n);
    } else {
      UnsupportedIsHeavy(n);
    }
  }

  lemma LowestDeployed()
    ensures Tried(STEP, 99) == 1.01
  {
  }

  lemma SupportedIsLight(n: nat)
    requires n >= 1 && Supported(n)
    ensures Load(n, STEP) < Cap(n, STEP)
  {
    if n == 28 {
      TwentyEight();
    } else {
      var m := n / 2;
      assert FineEnough(n, STEP) by {
        if n % 2 == 1 {
          MulMono(m as real, 9.0, (m as real) + 2.0, 11.0);
        } else {
          MulMono(m as real, 13.0, (m as real) + 2.0, 15.0);
        }
      }
      FineEnoughPasses(n, STEP);
      LoadIsPasses(n, STEP);
    }
  }

  lemma TwentyEight()
    ensures Load(28, STEP) < Cap(28, STEP)
  {
    var p, g := Pow(1.01, 13), Geometric(1.01, 13);
    PowThirteen();
    GeometricClosed(1.01, 13);
    GeometricMono(1.0, 1.01, 13);
    assert g <= 14.0;
    MulMono(g, 14.0, g, 14.0);
    EvenLoad(13, STEP, 1.01, g, STEP * ((1.01 * 1.01) * (g * g)));
  }

  lemma PowThirteen()
    ensures Pow(1.01, 13) <= 1.14
  {
    var two, four, six, twelve := Pow(1.01, 2), Pow(1.01, 4), Pow(1.01, 6), Pow(1.01, 12);
    PowStep(1.01, 0);
    PowStep(1.01, 1);
    assert two == 1.0201;
    PowSquare(1.01, 2);
    PowAdd(1.01, 4, 2);
    assert six <= 1.062;
    PowSquare(1.01, 6);
    PowPositive(1.01, 6);
    MulMono(six, 1.062, six, 1.062);
    PowStep(1.01, 12);
  }

  lemma UnsupportedIsHeavy(n: nat)
    requires n >= 1 && !Supported(n)
    ensures Load(n, STEP) >= Cap(n, STEP)
  {
    var k := (n - 1) / 2;
    var g := Geometric(1.01, k);
    GeometricLower(1.01, k);
    if n % 2 == 1 {
      assert g >= 10.0;
      MulMono(10.0, g, 10.0, g);
      OddLoad(k, STEP, 1.01, g, STEP * (1.01 * (g * g)));
    } else {
      assert g >= 14.13;
      MulMono(14.13, g, 14.13, g);
      EvenLoad(k, STEP, 1.01, g, STEP * ((1.01 * 1.01) * (g * g)));
    }
  }

  // ---- When the search ends at all ----

  /** The loop ends exactly for the supported sizes and for n = 3 mod 4, where -1 passes. */
  lemma DeployedSearchHaltsExact(n: nat)
    requires n >= 1
    ensures Halts(n, DefaultQuorum(n), STEP) <==> Supported(n) || n % 4 == 3
  {
    DeployedSearchExact(n);
    if n % 4 == 3 {
      MinusOnePasses(n);
    } else if !Supported(n) {
      forall k: nat
        ensures !Passes(n, DefaultQuorum(n), Tried(STEP, k))
      {
        if Tried(STEP, k) <= 0.0 {
          NegativeFails(n, k);
        }
      }
    }
  }

  lemma MinusOnePasses(n: nat)
    requires n % 4 == 3
    ensures Passes(n, DefaultQuorum(n), Tried(STEP, 300))
  {
    assert Tried(STEP, 300) == -1.0;
    var m := n / 2;
    MinusOnePowers(m);
    MinusOnePowers(m / 2);
    PowStep(-1.0, m);
  }

  lemma {:induction false} MinusOnePowers(k: nat)
    ensures Pow(-1.0, 2 * k) == 1.0 && Pow(-1.0, 2 * k + 1) == -1.0
  {
    if k > 0 {
      MinusOnePowers(k - 1);
      PowStep(-1.0, 2 * k - 1);
      PowStep(-1.0, 2 * k);
    }
  }

  lemma SquareNonNegative(a: real)
    ensures a * a >= 0.0
  {
    if a >= 0.0 {
      MulMono(0.0, a, 0.0, a);
    } else {
      MulMono(0.0, -a, 0.0, -a);
    }
  }

  /** Even powers lose the sign. */
  lemma {:induction false} EvenPowSign(r: real, k: nat)
    ensures Pow(r, 2 * k) == Pow(-r, 2 * k) >= 0.0
  {
    if k > 0 {
      EvenPowSign(r, k - 1);
      var p := Pow(r, 2 * (k - 1));
      PowStep(r, 2 * k - 2);
      PowStep(r, 2 * k - 1);
      PowStep(-r, 2 * k - 2);
      PowStep(-r, 2 * k - 1);
      SquareNonNegative(r);
      MulMono(0.0, r * r, 0.0, p);
      assert r * (r * p) == (r * r) * p;
      assert (-r) * ((-r) * p) == (r * r) * p;
    }
  }

  /** An even lower exponent rules out every ratio that is not positive. */
  lemma EvenHalfFails(n: nat, f: nat, j: nat, r: real)
    requires f <= n && n - f == 2 * j && r <= 0.0
    ensures !Passes(n, f, r)
  {
    EvenPowSign(r, j);
    PowStep(r, 2 * j);
    MulMono(0.0, -r, 0.0, Pow(r, 2 * j));
  }

  lemma OddHalfFails(n: nat, f: nat, k: nat, j: nat, r: real)
    requires n == 2 * (2 * j + 1) && f == 2 * j + 1 && !Supported(n) && r == Tried(STEP, k) && r <= 0.0
    ensures !Passes(n, f, r)
  {
    EvenPowSign(r, j + 1);
    EvenPowSign(r, 2 * j + 1);
    MirrorFails(n, k, 2 * j + 1, -r);
  }

  lemma NegativeFails(n: nat, k: nat)
    requires n >= 1 && !Supported(n) && n % 4 != 3 && Tried(STEP, k) <= 0.0
    ensures !Passes(n, DefaultQuorum(n), Tried(STEP, k))
  {
    if n % 4 == 2 {
      OddHalfFails(n, DefaultQuorum(n), k, n / 4, Tried(STEP, k));
    } else {
      EvenHalfFails(n, DefaultQuorum(n), n / 4, Tried(STEP, k));
    }
  }

  /** For even n a negative ratio passes the first test only if its mirror image s passes both. */
  lemma MirrorFails(n: nat, k: nat, m: nat, s: real)
    requires n == 2 * m && m >= 1 && !Supported(n) && s == -Tried(STEP, k) && s >= 0.0
    ensures Pow(s, m + 1) <= 0.5 * (Pow(s, n) + 1.0)
  {
    var x := Pow(s, m);
    PowSquare(s, m);
    MeanAboveRoot(x, x * x);
    if s > 1.0 {
      assert s >= 1.01;
      if Pow(s, m + 1) > 0.5 * (Pow(s, n) + 1.0) {
        PowMono(1.0, s, m - 1);
        PowOfOne(m - 1);
        AboveOne(s, Pow(s, m - 1), x);
        assert Passes(n, DefaultQuorum(n), 1.0 + (s - 1.0));
        LoadIsPasses(n, s - 1.0);
        LoadMonotone(n, STEP, s - 1.0);
        UnsupportedIsHeavy(n);
      }
    } else if s > 0.0 {
      PowAtMostOne(s, m);
    } else {
      PowStep(s, m);
    }
  }

  /** With 21 nodes the deployed search never ends. */
  lemma TwentyOneNodesNeverHalts()
    ensures !Halts(21, DefaultQuorum(21), STEP)
  {
    DeployedSearchHaltsExact(21);
  }

  /** With 23 nodes it ends, but only at a ratio that is not positive. */
  lemma TwentyThreeNodesHaltsNegative()
    ensures Halts(23, DefaultQuorum(23), STEP) && !FindsPositive(23, DefaultQuorum(23), STEP)
  {
    DeployedSearchHaltsExact(23);
    DeployedSearchExact(23);
  }
}
