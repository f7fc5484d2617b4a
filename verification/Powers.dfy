/** Powers and geometric sums over exact reals, standing in for math.Pow. */
module Powers {

  function Pow(x: real, k: nat): real {
    if k == 0 then 1.0 else x * Pow(x, k - 1)
  }

  /** 1 + x + ... + x^(k-1). */
  function Geometric(x: real, k: nat): real {
    if k == 0 then 0.0 else Geometric(x, k - 1) + Pow(x, k - 1)
  }

  lemma {:induction false} PowPositive(x: real, k: nat)
    requires x > 0.0
    ensures Pow(x, k) > 0.0
  {
    if k > 0 {
      PowPositive(x, k - 1);
    }
  }

  lemma {:induction false} PowAdd(x: real, j: nat, k: nat)
    ensures Pow(x, j + k) == Pow(x, j) * Pow(x, k)
  {
    if j > 0 {
      PowAdd(x, j - 1, k);
      Regroup(x, Pow(x, j - 1), Pow(x, k), Pow(x, j - 1 + k));
    }
  }

  lemma Regroup(a: real, b: real, c: real, bc: real)
    requires bc == b * c
    ensures a * bc == (a * b) * c
  {
  }

  lemma MulMono(a: real, b: real, c: real, d: real)
    requires 0.0 <= a <= b && 0.0 <= c <= d
    ensures 0.0 <= a * c <= b * d
  {
    assert a * c <= b * c;
    assert b * c <= b * d;
  }

  lemma {:induction false} PowMono(x: real, y: real, k: nat)
    requires 0.0 < x <= y
    ensures 0.0 < Pow(x, k) <= Pow(y, k)
  {
    PowPositive(x, k);
    if k > 0 {
      PowMono(x, y, k - 1);
      MulMono(x, y, Pow(x, k - 1), Pow(y, k - 1));
    }
  }

  lemma {:induction false} PowAtMostOne(x: real, k: nat)
    requires 0.0 < x <= 1.0
    ensures Pow(x, k + 1) <= Pow(x, k)
  {
    PowPositive(x, k);
    MulMono(x, 1.0, Pow(x, k), Pow(x, k));
  }

  /** The closed form of the geometric sum. */
  lemma {:induction false} GeometricClosed(x: real, k: nat)
    ensures (x - 1.0) * Geometric(x, k) == Pow(x, k) - 1.0
  {
    if k > 0 {
      GeometricClosed(x, k - 1);
      var g, p := Geometric(x, k - 1), Pow(x, k - 1);
      assert (x - 1.0) * (g + p) == (x - 1.0) * g + (x - 1.0) * p;
      assert (x - 1.0) * p == x * p - p;
    }
  }

  lemma {:induction false} GeometricMono(x: real, y: real, k: nat)
    requires 0.0 < x <= y
    ensures 0.0 <= Geometric(x, k) <= Geometric(y, k)
  {
    if k > 0 {
      GeometricMono(x, y, k - 1);
      PowMono(x, y, k - 1);
    }
  }

  /** Bernoulli's inequality. */
  lemma {:induction false} Bernoulli(d: real, k: nat)
    requires d >= 0.0
    ensures Pow(1.0 + d, k) >= 1.0 + k as real * d
  {
    if k > 0 {
      Bernoulli(d, k - 1);
      var c := (k - 1) as real;
      MulMono(1.0 + d, 1.0 + d, 1.0 + c * d, Pow(1.0 + d, k - 1));
      assert (1.0 + d) * (1.0 + c * d) == 1.0 + k as real * d + c * (d * d);
      assert c * (d * d) >= 0.0;
    }
  }

  /** Bernoulli's inequality read upwards: (1+d)^k <= 1/(1-m) for m = kd < 1. */
  lemma {:induction false} BernoulliUpper(d: real, k: nat, m: real)
    requires d >= 0.0 && m == k as real * d && m < 1.0
    ensures Pow(1.0 + d, k) * (1.0 - m) <= 1.0
  {
    if k > 0 {
      var c := (k - 1) as real;
      assert m == c * d + d;
      MulMono(0.0, c, 0.0, d);
      BernoulliUpper(d, k - 1, m - d);
      PowPositive(1.0 + d, k - 1);
      BernoulliUpperStep(d, m - d, Pow(1.0 + d, k - 1));
    }
  }

  lemma BernoulliUpperStep(d: real, m: real, p: real)
    requires d >= 0.0 && m >= 0.0 && p > 0.0
    requires p * (1.0 - m) <= 1.0
    ensures ((1.0 + d) * p) * (1.0 - (m + d)) <= 1.0
  {
    var f, g := (1.0 + d) * (1.0 - (m + d)), 1.0 - m;
    assert f == g - (m * d + d * d);
    MulMono(0.0, m, 0.0, d);
    MulMono(0.0, d, 0.0, d);
    assert ((1.0 + d) * p) * (1.0 - (m + d)) == p * f;
    assert p * f <= p * g;
  }

  /** Every term after the first is at least x. */
  lemma {:induction false} GeometricLower(x: real, k: nat)
    requires x >= 1.0 && k >= 1
    ensures Geometric(x, k) >= 1.0 + (k - 1) as real * x
  {
    if k > 1 {
      GeometricLower(x, k - 1);
      PowMono(1.0, x, k - 2);
      PowOfOne(k - 2);
      MulMono(x, x, 1.0, Pow(x, k - 2));
      assert (k - 1) as real * x == (k - 2) as real * x + x;
    } else {
      assert Geometric(x, 1) == Geometric(x, 0) + Pow(x, 0);
    }
  }

  lemma {:induction false} PowOfOne(k: nat)
    ensures Pow(1.0, k) == 1.0
  {
    if k > 0 {
      PowOfOne(k - 1);
    }
  }
}
