/** The search for the geometric ratio of the weight scheme (calcInitPrioRatio). */
module RatioSearch {
  import opened Powers

  function Inverse(x: real): real {
    if x == 0.0 then 0.0 else 1.0 / x
  }

  /** math.Pow with an integer exponent, away from the pole at zero. */
  function Power(r: real, i: int): real {
    if i >= 0 then Pow(r, i) else Inverse(Pow(r, -i))
  }

  /** The loop's exit test: f is the quorum size t+1. For f > n the exponents turn negative, and at zero
      the second power is then infinite, so the test fails. */
  predicate Passes(n: nat, f: nat, r: real) {
    && (f <= n || r != 0.0)
    && Power(r, n - f + 1) > 0.5 * (Pow(r, n) + 1.0)
    && 0.5 * (Pow(r, n) + 1.0) > Power(r, n - f)
  }

  /** The k-th ratio tried. */
  function Tried(step: real, k: nat): real {
    2.0 - k as real * step
  }

  /** The k-th ratio tried passes and none tried before it does. */
  ghost predicate FirstPassing(n: nat, f: nat, step: real, k: nat) {
    Passes(n, f, Tried(step, k)) && forall j: nat :: j < k ==> !Passes(n, f, Tried(step, j))
  }

  /** The search has one outcome. */
  lemma FirstPassingUnique(n: nat, f: nat, step: real, j: nat, k: nat)
    requires FirstPassing(n, f, step, j) && FirstPassing(n, f, step, k)
    ensures j == k
  {
    assert Passes(n, f, Tried(step, j)) && Passes(n, f, Tried(step, k));
  }

  ghost predicate Halts(n: nat, f: nat, step: real) {
    exists k: nat :: Passes(n, f, Tried(step, k))
  }

  /** Some ratio tried passes the test and is positive, so the scheme has positive weights. */
  ghost predicate FindsPositive(n: nat, f: nat, step: real) {
    exists k: nat :: Tried(step, k) > 0.0 && Passes(n, f, Tried(step, k))
  }

  /** The downward search. The source loops forever when no ratio it tries passes. */
  method CalcInitPrioRatio(n: nat, f: nat, step: real) returns (r: real, ghost tries: nat)
    requires Halts(n, f, step)
    ensures r == Tried(step, tries) && FirstPassing(n, f, step, tries)
    ensures step > 0.0 && 1 <= f && FindsPositive(n, f, step) ==> r > 1.0
  {
    r := 2.0;
    tries := 0;
    ghost var last: nat :| Passes(n, f, Tried(step, last));
    while !((f <= n || r != 0.0)
            && Power(r, n - f + 1) > 0.5 * (Pow(r, n) + 1.0) && 0.5 * (Pow(r, n) + 1.0) > Power(r, n - f))
      invariant r == Tried(step, tries)
      invariant tries <= last
      invariant forall j: nat :: j < tries ==> !Passes(n, f, Tried(step, j))
      decreases last - tries
    {
      assert !Passes(n, f, Tried(step, tries));
      r := r - step;
      tries := tries + 1;
    }
    if step > 0.0 && 1 <= f && FindsPositive(n, f, step) {
      FirstPassingIsAboveOne(n, f, step, tries);
    }
  }

  /** If any ratio tried is positive and passes, the first that passes exceeds 1. */
  lemma FirstPassingIsAboveOne(n: nat, f: nat, step: real, tries: nat)
    requires step > 0.0 && 1 <= f && FindsPositive(n, f, step) && FirstPassing(n, f, step, tries)
    ensures Tried(step, tries) > 1.0
  {
    var k: nat :| Tried(step, k) > 0.0 && Passes(n, f, Tried(step, k));
    TriedDecreases(step, tries, k);
    PositiveIsAboveOne(n, f, Tried(step, tries));
  }

  lemma TriedDecreases(step: real, j: nat, k: nat)
    requires step > 0.0 && j <= k
    ensures Tried(step, j) >= Tried(step, k)
    ensures j < k ==> Tried(step, j) >= Tried(step, k) + step
  {
    var a, b := j as real, k as real;
    assert b * step - a * step == (b - a) * step;
    if j < k {
      MulMono(1.0, b - a, step, step);
    }
  }

  /** The two halves of the test contradict each other on (0, 1]. */
  lemma PositiveIsAboveOne(n: nat, f: nat, r: real)
    requires 1 <= f && r > 0.0 && Passes(n, f, r)
    ensures r > 1.0
  {
    if r <= 1.0 {
      PowerAtMostOne(r, n - f);
    }
  }

  /** Up to one, a higher power is no larger. */
  lemma PowerAtMostOne(r: real, i: int)
    requires 0.0 < r <= 1.0
    ensures Power(r, i + 1) <= Power(r, i)
  {
    if i >= 0 {
      PowAtMostOne(r, i);
    } else {
      var j := -i - 1;
      PowPositive(r, j);
      PowPositive(r, j + 1);
      PowAtMostOne(r, j);
      InverseAntitone(Pow(r, j + 1), Pow(r, j));
    }
  }

  lemma InverseAntitone(x: real, y: real)
    requires 0.0 < x <= y
    ensures 0.0 < Inverse(y) <= Inverse(x)
  {
    var p, q := 1.0 / x, 1.0 / y;
    assert p * x == 1.0 && q * y == 1.0;
    if q > p {
      MulMono(p, q, x, y);
      ScaleLess(y, p, q, y * p, y * q);
      ScaleAtMost(p, x, y);
    }
  }

  lemma ScaleAtMost(p: real, x: real, y: real)
    requires p >= 0.0 && x <= y
    ensures p * x <= p * y
  {
  }

  /** The tolerance a node uses when none is given on the command line. */
  function DefaultTolerance(n: nat): nat
    requires n >= 1
  {
    (n - 1) / 2
  }

  function DefaultQuorum(n: nat): (f: nat)
    requires n >= 1
    ensures 1 <= f <= n
  {
    DefaultTolerance(n) + 1
  }

  /** The test at r = 1+d restated without a difference of large powers: Load < Cap. */
  function Load(n: nat, d: real): real
    requires n >= 1
  {
    var r := 1.0 + d;
    var g := Geometric(r, (n - 1) / 2);
    if n % 2 == 1 then d * (r * (g * g)) else d * ((r * r) * (g * g))
  }

  function Cap(n: nat, d: real): real {
    if n % 2 == 1 then 1.0 else 2.0 + d
  }

  lemma PositiveProduct(a: real, b: real, p: real)
    requires a > 0.0 && b > 0.0 && p == a * b
    ensures p > 0.0
  {
  }

  /** Scaling both sides by d > 0 keeps the comparison. */
  lemma ScaleLess(d: real, a: real, b: real, da: real, db: real)
    requires d > 0.0 && da == d * a && db == d * b
    ensures a < b <==> da < db
  {
    if a < b {
      var p := d * (b - a);
      PositiveProduct(d, b - a, p);
      assert p == db - da;
    } else {
      var p := d * (a - b);
      MulMono(0.0, a - b, d, d);
      assert p >= 0.0;
      assert p == da - db;
    }
  }

  /** Completing the square for odd n: x = r^m, h = d r g^2. */
  lemma OddSquare(d: real, r: real, x: real, g: real, rx: real, rxx: real, dh: real)
    requires r == 1.0 + d && x == 1.0 + d * g
    requires rx == r * x && rxx == r * (x * x) && dh == d * (d * (r * (g * g)))
    ensures rxx - 2.0 * rx + 1.0 == dh - d
  {
    var e := d * g;
    var ree := r * (e * e);
    assert rx == r + r * e;
    assert rxx == r + 2.0 * (r * e) + ree by {
      assert x * x == 1.0 + 2.0 * e + e * e;
    }
    assert ree == dh by {
      assert e * e == d * (d * (g * g));
    }
  }

  /** Completing the square for even n: x = r^m, h = d r^2 g^2. */
  lemma EvenSquare(d: real, r: real, x: real, y: real, g: real, rx: real, xx: real, dh: real, dd: real)
    requires r == 1.0 + d && x == r * y && y == 1.0 + d * g
    requires rx == r * x && xx == x * x && dh == d * (d * ((r * r) * (g * g))) && dd == d * (2.0 + d)
    ensures xx + 1.0 - 2.0 * rx == dh - dd
  {
    var e := d * g;
    var u := r * e;
    assert x == r + u;
    var uu, rr, ru := u * u, r * r, r * u;
    assert xx == rr + 2.0 * ru + uu;
    assert rx == rr + ru;
    assert uu == dh by {
      assert e * e == d * (d * (g * g));
      assert uu == (r * r) * (e * e);
    }
    assert rr == 1.0 + dd;
  }

  /** The arithmetic mean of 1 and x^2 exceeds x, unless x is 1. */
  lemma MeanAboveRoot(x: real, xx: real)
    requires xx == x * x
    ensures xx + 1.0 >= 2.0 * x
    ensures x > 1.0 ==> xx + 1.0 > 2.0 * x
  {
    var y := x - 1.0;
    var yy := y * y;
    assert xx == yy + 2.0 * x - 1.0;
    if x > 1.0 {
      PositiveProduct(y, y, yy);
    } else {
      MulMono(0.0, 1.0 - x, 0.0, 1.0 - x);
      assert (1.0 - x) * (1.0 - x) == yy;
    }
  }

  lemma OddTest(d: real, r: real, x: real, g: real, rx: real, rxx: real, h: real)
    requires d > 0.0 && r == 1.0 + d && x == 1.0 + d * g && x >= 1.0
    requires rx == r * x && rxx == r * (x * x) && h == d * (r * (g * g))
    ensures rx > 0.5 * (rxx + 1.0) <==> h < 1.0
    ensures 0.5 * (rxx + 1.0) > x
  {
    OddSquare(d, r, x, g, rx, rxx, d * h);
    ScaleLess(d, h, 1.0, d * h, d);
    MeanAboveRoot(x, x * x);
    var xx := x * x;
    var dxx := d * xx;
    PositiveProduct(x, x, xx);
    PositiveProduct(d, xx, dxx);
    assert rxx == xx + dxx;
  }

  lemma EvenTest(d: real, r: real, x: real, y: real, g: real, rx: real, xx: real, h: real)
    requires d > 0.0 && r == 1.0 + d && x == r * y && y == 1.0 + d * g && x > 1.0
    requires rx == r * x && xx == x * x && h == d * ((r * r) * (g * g))
    ensures rx > 0.5 * (xx + 1.0) <==> h < 2.0 + d
    ensures 0.5 * (xx + 1.0) > x
  {
    EvenSquare(d, r, x, y, g, rx, xx, d * h, d * (2.0 + d));
    ScaleLess(d, h, 2.0 + d, d * h, d * (2.0 + d));
    MeanAboveRoot(x, xx);
  }

  /** Powers of r = 1+d through the geometric sum. */
  lemma PowByGeometric(d: real, k: nat)
    requires d > 0.0
    ensures Geometric(1.0 + d, k) >= 0.0
    ensures Pow(1.0 + d, k) == 1.0 + d * Geometric(1.0 + d, k) >= 1.0
  {
    GeometricMono(1.0, 1.0 + d, k);
    GeometricClosed(1.0 + d, k);
    MulMono(0.0, d, 0.0, Geometric(1.0 + d, k));
  }

  lemma OddPowers(d: real, r: real, m: nat) returns (g: real, x: real, rx: real, rxx: real)
    requires d > 0.0 && r == 1.0 + d
    ensures g == Geometric(r, m) && x == Pow(r, m) && rx == Pow(r, m + 1) && rxx == Pow(r, 2 * m + 1)
    ensures x == 1.0 + d * g && x >= 1.0 && rx == r * x && rxx == r * (x * x)
  {
    g, x, rx, rxx := Geometric(r, m), Pow(r, m), Pow(r, m + 1), Pow(r, 2 * m + 1);
    PowByGeometric(d, m);
    PowAdd(r, m, m);
  }

  lemma EvenPowers(d: real, r: real, k: nat) returns (g: real, y: real, x: real, rx: real, xx: real)
    requires d > 0.0 && r == 1.0 + d
    ensures g == Geometric(r, k) && x == Pow(r, k + 1) && rx == Pow(r, k + 2) && xx == Pow(r, 2 * (k + 1))
    ensures y == 1.0 + d * g && x == r * y && x > 1.0 && rx == r * x && xx == x * x
  {
    g, y, x := Geometric(r, k), Pow(r, k), Pow(r, k + 1);
    rx, xx := Pow(r, k + 2), Pow(r, 2 * (k + 1));
    PowByGeometric(d, k);
    PowStep(r, k);
    PowStep(r, k + 1);
    PowSquare(r, k + 1);
    AboveOne(r, y, x);
  }

  lemma PowStep(r: real, k: nat)
    ensures Pow(r, k + 1) == r * Pow(r, k)
  {
  }

  lemma PowSquare(r: real, k: nat)
    ensures Pow(r, 2 * k) == Pow(r, k) * Pow(r, k)
  {
    PowAdd(r, k, k);
  }

  lemma AboveOne(r: real, y: real, x: real)
    requires r > 1.0 && y >= 1.0 && x == r * y
    ensures x > 1.0
  {
    MulMono(r, r, 1.0, y);
  }

  lemma OddLoadIsPasses(m: nat, d: real)
    requires d > 0.0
    ensures Passes(2 * m + 1, m + 1, 1.0 + d) <==> Load(2 * m + 1, d) < Cap(2 * m + 1, d)
  {
    var r := 1.0 + d;
    var g, x, rx, rxx := OddPowers(d, r, m);
    var h := d * (r * (g * g));
    OddTest(d, r, x, g, rx, rxx, h);
    OddLoad(m, d, r, g, h);
  }

  lemma EvenLoadIsPasses(k: nat, d: real)
    requires d > 0.0
    ensures Passes(2 * (k + 1), k + 1, 1.0 + d) <==> Load(2 * (k + 1), d) < Cap(2 * (k + 1), d)
  {
    var r := 1.0 + d;
    var g, y, x, rx, xx := EvenPowers(d, r, k);
    var h := d * ((r * r) * (g * g));
    EvenTest(d, r, x, y, g, rx, xx, h);
    EvenLoad(k, d, r, g, h);
  }

  lemma OddLoad(k: nat, d: real, r: real, g: real, h: real)
    requires r == 1.0 + d && g == Geometric(r, k) && h == d * (r * (g * g))
    ensures Load(2 * k + 1, d) == h && Cap(2 * k + 1, d) == 1.0
  {
  }

  lemma EvenLoad(k: nat, d: real, r: real, g: real, h: real)
    requires r == 1.0 + d && g == Geometric(r, k) && h == d * ((r * r) * (g * g))
    ensures Load(2 * (k + 1), d) == h && Cap(2 * (k + 1), d) == 2.0 + d
  {
  }

  lemma LoadIsPasses(n: nat, d: real)
    requires n >= 1 && d > 0.0
    ensures Passes(n, DefaultQuorum(n), 1.0 + d) <==> Load(n, d) < Cap(n, d)
  {
    if n % 2 == 1 {
      OddLoadIsPasses(n / 2, d);
    } else {
      EvenLoadIsPasses(n / 2 - 1, d);
    }
  }

  // ---- Smaller steps above one are easier to pass ----

  lemma OddLoadMonotone(k: nat, c: real, d: real)
    requires 0.0 < c <= d
    ensures Load(2 * k + 1, c) <= Load(2 * k + 1, d)
  {
    var q, r := 1.0 + c, 1.0 + d;
    var f, g := Geometric(q, k), Geometric(r, k);
    var y, z := c * (q * (f * f)), d * (r * (g * g));
    GeometricMono(q, r, k);
    OddMonotone(c, d, q, r, f, g, y, z);
    OddLoad(k, c, q, f, y);
    OddLoad(k, d, r, g, z);
  }

  lemma EvenLoadMonotone(k: nat, c: real, d: real)
    requires 0.0 < c <= d && Load(2 * (k + 1), d) < 2.0 + d
    ensures Load(2 * (k + 1), c) < 2.0 + c
  {
    var q, r := 1.0 + c, 1.0 + d;
    var f, g := Geometric(q, k), Geometric(r, k);
    GeometricMono(q, r, k);
    SquaresMonotone(q, r, f, g);
    var y, z := c * ((q * q) * (f * f)), d * ((r * r) * (g * g));
    EvenLoad(k, c, q, f, y);
    EvenLoad(k, d, r, g, z);
    EvenMonotone(c, d, q, r, f, g, y, z);
  }

  lemma LoadMonotone(n: nat, c: real, d: real)
    requires n >= 1 && 0.0 < c <= d
    requires Load(n, d) < Cap(n, d)
    ensures Load(n, c) < Cap(n, c)
  {
    if n % 2 == 1 {
      assert n == 2 * (n / 2) + 1;
      OddLoadMonotone(n / 2, c, d);
    } else {
      assert n == 2 * ((n / 2 - 1) + 1);
      EvenLoadMonotone(n / 2 - 1, c, d);
    }
  }

  lemma OddMonotone(c: real, d: real, q: real, r: real, f: real, g: real, y: real, z: real)
    requires 0.0 < c <= d && 0.0 < q <= r && 0.0 <= f <= g
    requires y == c * (q * (f * f)) && z == d * (r * (g * g))
    ensures y <= z
  {
    MulMono(f, g, f, g);
    MulMono(q, r, f * f, g * g);
    MulMono(c, d, q * (f * f), r * (g * g));
  }

  lemma SquaresMonotone(q: real, r: real, f: real, g: real)
    requires 0.0 < q <= r && 0.0 <= f <= g
    ensures 0.0 <= (q * q) * (f * f) <= (r * r) * (g * g)
  {
    MulMono(f, g, f, g);
    MulMono(q, r, q, r);
    MulMono(q * q, r * r, f * f, g * g);
  }

  lemma EvenMonotone(c: real, d: real, q: real, r: real, f: real, g: real, y: real, z: real)
    requires 0.0 < c <= d && 0.0 < q <= r && 0.0 <= f <= g
    requires y == c * ((q * q) * (f * f)) && z == d * ((r * r) * (g * g)) && z < 2.0 + d
    ensures y < 2.0 + c
  {
    var a, b := (q * q) * (f * f), (r * r) * (g * g);
    SquaresMonotone(q, r, f, g);
    BelowTwoPlus(c, d, a, b, y, z);
  }

  lemma CapAtOne(c: real, b: real, cb: real)
    requires 0.0 < c && b <= 1.0 && cb == c * b
    ensures cb <= c
  {
    assert c * (1.0 - b) >= 0.0;
  }

  lemma BelowTwoPlus(c: real, d: real, a: real, b: real, ca: real, db: real)
    requires 0.0 < c <= d && 0.0 <= a <= b && ca == c * a && db == d * b && db < 2.0 + d
    ensures ca < 2.0 + c
  {
    var cb := c * b;
    MulMono(c, c, a, b);
    if b >= 1.0 {
      var p, q := c * (b - 1.0), d * (b - 1.0);
      MulMono(c, d, b - 1.0, b - 1.0);
      assert p == cb - c && q == db - d;
    } else {
      CapAtOne(c, b, cb);
    }
  }

  // ---- The lowest ratio tried above one ----

  lemma LowestAboveOne(step: real) returns (k: nat)
    requires 0.0 < step <= 1.0
    ensures 1.0 < Tried(step, k) <= 1.0 + step
    ensures forall j: nat :: Tried(step, j) > 1.0 ==> Tried(step, j) >= Tried(step, k)
  {
    k := 0;
    while Tried(step, k + 1) > 1.0
      invariant Tried(step, k) > 1.0
      decreases (1.0 / step).Floor - k
    {
      FloorBound(step, k + 1);
      k := k + 1;
    }
    TriedDecreases(step, k, k + 1);
    assert Tried(step, k) == Tried(step, k + 1) + step by {
      var a := k as real;
      assert (k + 1) as real * step == a * step + step;
    }
    forall j: nat | Tried(step, j) > 1.0
      ensures Tried(step, j) >= Tried(step, k)
    {
      if j > k {
        TriedDecreases(step, k + 1, j);
      } else {
        TriedDecreases(step, j, k);
      }
    }
  }

  lemma FloorBound(step: real, k: nat)
    requires 0.0 < step && Tried(step, k) > 1.0
    ensures k <= (1.0 / step).Floor
  {
    var q := 1.0 / step;
    assert q * step == 1.0;
    var a := k as real;
    var p := a * step;
    assert p < 1.0;
    ScaleLess(step, a, q, p, 1.0);
  }

  /** The search meets a usable ratio exactly when the lowest one it tries above 1 is usable. */
  lemma FindsPositiveIffLowest(n: nat, step: real, k: nat)
    requires n >= 1 && 0.0 < step <= 1.0
    requires 1.0 < Tried(step, k) <= 1.0 + step
    ensures FindsPositive(n, DefaultQuorum(n), step) <==> Passes(n, DefaultQuorum(n), Tried(step, k))
  {
    if FindsPositive(n, DefaultQuorum(n), step) {
      var j: nat :| Tried(step, j) > 0.0 && Passes(n, DefaultQuorum(n), Tried(step, j));
      PositiveIsAboveOne(n, DefaultQuorum(n), Tried(step, j));
      if j > k {
        TriedDecreases(step, k, j);
      } else {
        TriedDecreases(step, j, k);
        var c, d := Tried(step, k) - 1.0, Tried(step, j) - 1.0;
        assert Tried(step, j) == 1.0 + d && Tried(step, k) == 1.0 + c;
        LoadIsPasses(n, d);
        LoadMonotone(n, c, d);
        LoadIsPasses(n, c);
      }
    }
  }

  // ---- A step small enough for the cluster size ----

  /** The step bound under which a default-tolerance cluster of n nodes finds its ratio. */
  predicate FineEnough(n: nat, step: real) {
    Demand((n / 2) as real, step) < (if n % 2 == 1 then 1.0 else 2.0)
  }

  function Demand(m: real, step: real): real {
    m * (m + 2.0) * step
  }

  /** (1 - kd) times the geometric sum is at most k. */
  lemma GeometricUpper(d: real, k: nat, m: real, g: real)
    requires d > 0.0 && m == k as real * d && m < 1.0 && g == Geometric(1.0 + d, k)
    ensures 0.0 <= g && (1.0 - m) * g <= k as real
  {
    PowByGeometric(d, k);
    BernoulliUpper(d, k, m);
    SumUpper(d, k as real, m, g, Pow(1.0 + d, k));
  }

  lemma SumUpper(d: real, c: real, m: real, g: real, p: real)
    requires d > 0.0 && m == c * d && p == 1.0 + d * g && p * (1.0 - m) <= 1.0
    ensures (1.0 - m) * g <= c
  {
    var u := (1.0 - m) * g;
    var pu, dg, du, dc := p * (1.0 - m), d * g, d * u, d * c;
    assert p == 1.0 + dg;
    assert pu == 1.0 - m + du;
    if u > c {
      ScaleLess(d, c, u, dc, du);
    }
  }

  /** With (1-m)g <= c and m = cd: a bound on d r g^2 that does not mention g. */
  lemma SquaredUpper(c: real, m: real, g: real, w: real, z: real, bound: real)
    requires 0.0 <= m < 1.0 && 0.0 <= g && 0.0 <= c && (1.0 - m) * g <= c
    requires w >= 0.0 && z == w * (g * g)
    requires w * (c * c) < bound * ((1.0 - m) * (1.0 - m))
    ensures z < bound
  {
    var v := 1.0 - m;
    var vv := v * v;
    var vg := v * g;
    MulMono(0.0, v, 0.0, g);
    MulMono(vg, c, vg, c);
    MulMono(w, w, vg * vg, c * c);
    assert w * (vg * vg) == vv * z by {
      assert vg * vg == vv * (g * g);
    }
    PositiveProduct(v, v, vv);
    ScaleLess(vv, z, bound, vv * z, vv * bound);
  }

  lemma OddFineEnough(k: nat, d: real)
    requires 0.0 < d <= 1.0 && Demand(k as real, d) < 1.0
    ensures Load(2 * k + 1, d) < Cap(2 * k + 1, d)
  {
    var c, r, g := k as real, 1.0 + d, Geometric(1.0 + d, k);
    var m, h := c * d, d * (r * (g * g));
    MulMono(0.0, c, 0.0, d);
    OddRoom(c, d, m, (d * (1.0 + d)) * (c * c), (1.0 - m) * (1.0 - m));
    GeometricUpper(d, k, m, g);
    OddSquaredUpper(c, d, m, g, r, h);
    OddLoad(k, d, r, g, h);
  }

  lemma OddSquaredUpper(c: real, d: real, m: real, g: real, r: real, h: real)
    requires 0.0 < d && r == 1.0 + d && h == d * (r * (g * g))
    requires 0.0 <= m < 1.0 && 0.0 <= g && 0.0 <= c && (1.0 - m) * g <= c
    requires (d * (1.0 + d)) * (c * c) < (1.0 - m) * (1.0 - m)
    ensures h < 1.0
  {
    var w := d * r;
    MulMono(0.0, d, 0.0, r);
    assert h == w * (g * g);
    SquaredUpper(c, m, g, w, h, 1.0);
  }

  lemma OddRoom(c: real, d: real, m: real, left: real, right: real)
    requires 0.0 < d <= 1.0 && c >= 0.0 && m == c * d
    requires left == (d * (1.0 + d)) * (c * c) && right == (1.0 - m) * (1.0 - m)
    requires Demand(c, d) < 1.0
    ensures m < 1.0 && left < right
  {
    var cm, s, mm := c * m, Demand(c, d), m * m;
    assert s == cm + 2.0 * m;
    MulMono(0.0, c, 0.0, d);
    MulMono(0.0, c, 0.0, m);
    assert left == cm + mm;
    assert right == 1.0 - 2.0 * m + mm;
  }

  lemma EvenFineEnough(k: nat, d: real)
    requires 0.0 < d <= 1.0 && Demand((k + 1) as real, d) < 2.0
    ensures Load(2 * (k + 1), d) < Cap(2 * (k + 1), d)
  {
    var c, r, g := k as real, 1.0 + d, Geometric(1.0 + d, k);
    var m, h := c * d, d * ((r * r) * (g * g));
    MulMono(0.0, c, 0.0, d);
    assert (k + 1) as real == c + 1.0;
    EvenRoom(c, d, m, (d * ((1.0 + d) * (1.0 + d))) * (c * c), (2.0 + d) * ((1.0 - m) * (1.0 - m)));
    GeometricUpper(d, k, m, g);
    EvenSquaredUpper(c, d, m, g, r, h);
    EvenLoad(k, d, r, g, h);
  }

  lemma EvenSquaredUpper(c: real, d: real, m: real, g: real, r: real, h: real)
    requires 0.0 < d && r == 1.0 + d && h == d * ((r * r) * (g * g))
    requires 0.0 <= m < 1.0 && 0.0 <= g && 0.0 <= c && (1.0 - m) * g <= c
    requires (d * ((1.0 + d) * (1.0 + d))) * (c * c) < (2.0 + d) * ((1.0 - m) * (1.0 - m))
    ensures h < 2.0 + d
  {
    var w := d * (r * r);
    MulMono(1.0, r, 1.0, r);
    MulMono(0.0, d, 0.0, r * r);
    assert h == w * (g * g);
    SquaredUpper(c, m, g, w, h, 2.0 + d);
  }

  lemma EvenRoom(c: real, d: real, m: real, left: real, right: real)
    requires 0.0 < d <= 1.0 && c >= 0.0 && m == c * d
    requires left == (d * ((1.0 + d) * (1.0 + d))) * (c * c)
    requires right == (2.0 + d) * ((1.0 - m) * (1.0 - m))
    requires Demand(c + 1.0, d) < 2.0
    ensures m < 1.0 && left < right
  {
    var cm, s := c * m, Demand(c + 1.0, d);
    var md, mm := m * d, m * m;
    var mmd := mm * d;
    MulMono(0.0, c, 0.0, d);
    MulMono(0.0, c, 0.0, m);
    assert s == cm + 4.0 * m + 3.0 * d;
    assert m < 1.0;
    MulMono(m, 1.0, d, d);
    assert s < 2.0 && md <= d;
    EvenExpansion(c, d, m, cm, mm, md, mmd, left, right);
  }

  lemma EvenExpansion(c: real, d: real, m: real, cm: real, mm: real, md: real, mmd: real, left: real, right: real)
    requires m == c * d && cm == c * m && mm == m * m && md == m * d && mmd == mm * d
    requires left == (d * ((1.0 + d) * (1.0 + d))) * (c * c)
    requires right == (2.0 + d) * ((1.0 - m) * (1.0 - m))
    ensures left == cm + 2.0 * mm + mmd
    ensures right == 2.0 - 4.0 * m + 2.0 * mm + d - 2.0 * md + mmd
  {
  }

  lemma OddPasses(k: nat, d: real)
    requires 0.0 < d <= 1.0 && Demand(k as real, d) < 1.0
    ensures Passes(2 * k + 1, k + 1, 1.0 + d)
  {
    OddFineEnough(k, d);
    OddLoadIsPasses(k, d);
  }

  lemma EvenPasses(k: nat, d: real)
    requires 0.0 < d <= 1.0 && Demand((k + 1) as real, d) < 2.0
    ensures Passes(2 * (k + 1), k + 1, 1.0 + d)
  {
    EvenFineEnough(k, d);
    EvenLoadIsPasses(k, d);
  }

  lemma FineEnoughPasses(n: nat, d: real)
    requires n >= 1 && 0.0 < d <= 1.0 && FineEnough(n, d)
    ensures Passes(n, DefaultQuorum(n), 1.0 + d)
  {
    if n % 2 == 1 {
      OddPasses(n / 2, d);
    } else {
      EvenPasses(n / 2 - 1, d);
    }
  }

  /** With the default tolerance and a fine enough step the search halts, at a ratio above 1. */
  lemma SearchHalts(n: nat, step: real)
    requires n >= 1 && 0.0 < step <= 1.0 && FineEnough(n, step)
    ensures Halts(n, DefaultQuorum(n), step) && FindsPositive(n, DefaultQuorum(n), step)
  {
    var k := LowestAboveOne(step);
    var d := Tried(step, k) - 1.0;
    var m := (n / 2) as real;
    MulMono(0.0, m, 0.0, m + 2.0);
    MulMono(m * (m + 2.0), m * (m + 2.0), d, step);
    FineEnoughPasses(n, d);
    assert Tried(step, k) == 1.0 + d;
  }
}
