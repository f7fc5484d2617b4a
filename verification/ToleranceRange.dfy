/** The ratio search for every tolerance the command line accepts, not only the default. */
module ToleranceRange {
  import opened Powers
  import opened RatioSearch

  // ---- Differences of powers ----

  /** With s = r + d: the k-th powers differ by at most k d s^(k-1), up to a factor s. */
  lemma {:induction false} GapAtMost(r: real, s: real, d: real, k: nat, l: real)
    requires 0.0 < r && d >= 0.0 && s == r + d && l == k as real * d
    ensures (Pow(s, k) - Pow(r, k)) * s <= l * Pow(s, k)
  {
    if k > 0 {
      var c := (k - 1) as real;
      GapAtMost(r, s, d, k - 1, c * d);
      PowMono(r, s, k - 1);
      assert l == c * d + d;
      GapAtMostStep(r, s, d, c * d, Pow(r, k - 1), Pow(s, k - 1));
    }
  }

  lemma GapAtMostStep(r: real, s: real, d: real, l: real, a: real, b: real)
    requires 0.0 < r && d >= 0.0 && s == r + d && 0.0 < a <= b && (b - a) * s <= l * b
    ensures (s * b - r * a) * s <= (l + d) * (s * b)
  {
    var gap, bound := (b - a) * s, l * b;
    ScaleAtMost(s, gap, bound);
    MulMono(d * s, d * s, a, b);
    assert (s * b - r * a) * s == s * gap + (d * s) * a;
    assert (l + d) * (s * b) == s * bound + (d * s) * b;
  }

  /** And by at least k d r^(k-1), up to a factor r. */
  lemma {:induction false} GapAtLeast(r: real, s: real, d: real, k: nat, l: real)
    requires 0.0 < r && d >= 0.0 && s == r + d && l == k as real * d
    ensures (Pow(s, k) - Pow(r, k)) * r >= l * Pow(r, k)
  {
    if k > 0 {
      var c := (k - 1) as real;
      GapAtLeast(r, s, d, k - 1, c * d);
      PowMono(r, s, k - 1);
      assert l == c * d + d;
      MulMono(0.0, c, 0.0, d);
      GapAtLeastStep(r, s, d, c * d, Pow(r, k - 1), Pow(s, k - 1));
    }
  }

  lemma GapAtLeastStep(r: real, s: real, d: real, l: real, a: real, b: real)
    requires 0.0 < r && d >= 0.0 && s == r + d && 0.0 < a <= b && l >= 0.0 && (b - a) * r >= l * a
    ensures (s * b - r * a) * r >= (l + d) * (r * a)
  {
    var gap, bound := (b - a) * r, l * a;
    MulMono(0.0, b - a, 0.0, r);
    MulMono(r, s, gap, gap);
    ScaleAtMost(r, bound, gap);
    assert (s * b - r * a) * r == s * gap + (d * r) * a;
    assert (l + d) * (r * a) == r * bound + (d * r) * a;
  }

  lemma {:induction false} PowOfProduct(x: real, y: real, xy: real, k: nat)
    requires xy == x * y
    ensures Pow(xy, k) == Pow(x, k) * Pow(y, k)
  {
    if k > 0 {
      PowOfProduct(x, y, xy, k - 1);
      Interleave(x, y, xy, Pow(x, k - 1), Pow(y, k - 1), Pow(xy, k - 1));
    }
  }

  lemma Interleave(x: real, y: real, xy: real, a: real, b: real, ab: real)
    requires ab == a * b && xy == x * y
    ensures xy * ab == (x * a) * (y * b)
  {
  }

  // ---- The second test follows where the first one starts to hold ----

  /** The change from r to s = r + d, where the first test still fails, splits into a gain and a loss. */
  lemma LosingPart(r: real, re: real, rt: real, rn: real, q: real, l: real, loss: real)
    requires l > 0.0 && re >= 1.0 && rn == re * rt && 2.0 * re > rn + 1.0
    requires q * r >= l * re && loss == (2.0 - rt) * q
    ensures r * loss > l
  {
    var u := 2.0 - rt;
    var reu := re * u;
    assert reu == 2.0 * re - rn;
    if u <= 0.0 {
      MulMono(0.0, -u, 0.0, re);
    }
    ScaleAtMost(u, l * re, q * r);
    ScaleLess(l, 1.0, reu, l, l * reu);
    assert u * (l * re) == l * reu;
    assert r * loss == u * (q * r);
  }

  lemma GainingPart(r: real, s: real, p: real, se: real, st: real, sn: real, td: real, gain: real, g: real)
    requires 0.0 < r <= s && se > 0.0 && p >= 0.0 && sn == se * st && p * s <= td * st
    requires gain == p * se && g == td * sn
    ensures r * gain <= g
  {
    var x, y := p * s, td * st;
    MulMono(0.0, p, 0.0, se);
    MulMono(r, s, gain, gain);
    ScaleAtMost(se, x, y);
    assert s * gain == se * x;
    assert g == se * y;
  }

  lemma Split(re: real, rt: real, rn: real, se: real, st: real, sn: real)
    requires rn == re * rt && sn == se * st
    ensures (sn - rn) - 2.0 * (se - re) == (st - rt) * se - (2.0 - rt) * (se - re)
  {
  }

  lemma Balance(r: real, re: real, rl: real, rn: real, se: real, sn: real, diff: real, w: real)
    requires r > 1.0 && re >= 1.0 && re == r * rl && w == (r - 1.0) * re
    requires 2.0 * se <= sn + 1.0 && diff == (sn - rn) - 2.0 * (se - re) && r * diff < w
    ensures rn + 1.0 > 2.0 * rl
  {
    var h, rre := rn + 1.0 - 2.0 * re, r * re;
    MulMono(0.0, r, 0.0, h + diff);
    assert r * h + r * diff >= 0.0;
    assert r * (rn + 1.0) == r * h + 2.0 * rre;
    assert w == rre - re;
    ScaleLess(re, 1.0, r, re, rre);
    ScaleLess(r, 2.0 * rl, rn + 1.0, r * (2.0 * rl), r * (rn + 1.0));
  }

  /** If the gain exceeds the loss by less than w, the second test holds at r. */
  lemma SecondTestCore(r: real, re: real, rt: real, rn: real, rl: real, se: real, st: real, sn: real,
                       gain: real, loss: real, g: real, l: real, w: real)
    requires r > 1.0 && re >= 1.0 && re == r * rl && w == (r - 1.0) * re
    requires rn == re * rt && sn == se * st && 2.0 * se <= sn + 1.0
    requires gain == (st - rt) * se && loss == (2.0 - rt) * (se - re)
    requires r * gain <= g && r * loss > l && g - l < w
    ensures rn + 1.0 > 2.0 * rl
  {
    var diff := gain - loss;
    Split(re, rt, rn, se, st, sn);
    assert r * diff == r * gain - r * loss;
    Balance(r, re, rl, rn, se, sn, diff, w);
  }

  // ---- How small the step must be ----

  /** n nodes, tolerance t, e = n - t, step d; m is n d. */
  predicate Sizes(n: real, t: real, e: real, d: real, m: real) {
    t >= 1.0 && n == t + e && 2.0 * t + 1.0 <= n && d > 0.0 && m == n * d && m * n + m < 1.0
  }

  /** The gain is at most t r^n + t/n steps, and r^n is below 2y + 1, y being the excess of r^e over one. */
  lemma ScaledGain(n: real, t: real, c: real, y: real, rn: real, a: real)
    requires t > 0.0 && n > 0.0 && c == t * n + t && rn < 2.0 * y + 1.0 && a <= n * rn + rn
    ensures t * a < 2.0 * (c * y) + c
  {
    var b := n * rn + rn;
    ScaleAtMost(t, a, b);
    assert t * b == c * rn;
    MulMono(0.0, t, 0.0, n);
    ScaleLess(c, rn, 2.0 * y + 1.0, c * rn, c * (2.0 * y + 1.0));
    assert c * (2.0 * y + 1.0) == 2.0 * (c * y) + c;
  }

  lemma GainAgainst(n: real, t: real, e: real, c: real, ne: real, y: real, sn: real, a: real)
    requires n > 0.0 && a == n * sn && t * a < 2.0 * (c * y) + c
    requires ne == n * e && c < ne && 2.0 * (c * y) <= n * (n * y)
    ensures t * sn - e < n * y
  {
    var left, right := t * sn - e, n * y;
    assert n * left == t * a - ne;
    ScaleLess(n, left, right, n * left, n * right);
  }

  lemma SizeProducts(n: real, t: real, e: real, c: real, ne: real, y: real)
    requires t >= 1.0 && n == t + e && 2.0 * t + 1.0 <= n && y >= 0.0 && c == t * n + t && ne == n * e
    ensures c < ne && 2.0 * (c * y) <= n * (n * y)
  {
    var tn, nn := t * n, n * n;
    assert ne == nn - tn;
    MulMono(2.0 * t, n - 1.0, n, n);
    assert (n - 1.0) * n == nn - n;
    assert 2.0 * t * n == 2.0 * tn;
    MulMono(2.0 * c, nn, y, y);
    assert 2.0 * c * y == 2.0 * (c * y);
    assert nn * y == n * (n * y);
  }

  lemma SmallGain(n: real, t: real, e: real, y: real, rn: real, sn: real, a: real)
    requires t >= 1.0 && n == t + e && 2.0 * t + 1.0 <= n
    requires y >= 0.0 && rn < 2.0 * y + 1.0 && a == n * sn && a <= n * rn + rn
    ensures t * sn - e < n * y
  {
    var c, ne := t * n + t, n * e;
    SizeProducts(n, t, e, c, ne, y);
    ScaledGain(n, t, c, y, rn, a);
    GainAgainst(n, t, e, c, ne, y, sn, a);
  }

  /** n d y is in turn at most w, when y is at most e w. */
  lemma ExcessFits(n: real, e: real, d: real, m: real, y: real, w: real)
    requires 0.0 <= e <= n && d > 0.0 && m == n * d && m >= 0.0 && m * n < 1.0 && 0.0 <= y <= e * w && w > 0.0
    ensures d * (n * y) <= w
  {
    var nw, mn := n * w, m * n;
    MulMono(e, n, w, w);
    MulMono(0.0, m, 0.0, n);
    ScaleAtMost(m, y, nw);
    AtMostOnce(m, n, mn, w, nw);
    Swap(n, d, m, y);
  }

  lemma AtMostOnce(m: real, n: real, mn: real, w: real, nw: real)
    requires mn == m * n && mn < 1.0 && w > 0.0 && nw == n * w
    ensures m * nw <= w
  {
    assert m * nw == w * mn;
    ScaleAtMost(w, mn, 1.0);
  }

  lemma Swap(n: real, d: real, m: real, y: real)
    requires m == n * d
    ensures d * (n * y) == m * y
  {
  }

  lemma ScaleGain(d: real, t: real, e: real, sn: real, ny: real, td: real, g: real, l: real)
    requires d > 0.0 && t * sn - e < ny && td == t * d && g == td * sn && l == e * d
    ensures g - l < d * ny
  {
    var left := t * sn - e;
    ScaleLess(d, left, ny, d * left, d * ny);
    assert d * left == g - l;
  }

  lemma DifferenceFits(n: real, t: real, e: real, d: real, m: real, y: real, w: real, rn: real, sn: real,
                       td: real, g: real, l: real)
    requires Sizes(n, t, e, d, m)
    requires 0.0 <= y <= e * w && w > 0.0 && rn < 2.0 * y + 1.0 && n * sn <= n * rn + rn
    requires td == t * d && g == td * sn && l == e * d
    ensures g - l < w
  {
    SmallGain(n, t, e, y, rn, sn, n * sn);
    PositiveProduct(n, d, m);
    ExcessFits(n, e, d, m, y, w);
    ScaleGain(d, t, e, sn, n * y, td, g, l);
  }

  // ---- From the arithmetic to the powers ----

  predicate FirstTest(n: nat, t: nat, r: real)
    requires t <= n
  {
    Pow(r, n - t) > 0.5 * (Pow(r, n) + 1.0)
  }

  /** n (n + 1) steps fit between one and two. */
  predicate FineFor(n: nat, step: real) {
    var m := n as real * step;
    step > 0.0 && m * n as real + m < 1.0
  }

  lemma StepGrowth(n: nat, r: real, s: real, d: real, x: real)
    requires r > 1.0 && d > 0.0 && s == r + d && x == 1.0 + d
    ensures Pow(s, n) <= Pow(r, n) * Pow(x, n)
  {
    var rx := r * x;
    GrowthCovers(r, s, d, x, rx);
    PowMono(s, rx, n);
    PowOfProduct(r, x, rx, n);
  }

  lemma GrowthCovers(r: real, s: real, d: real, x: real, rx: real)
    requires r > 1.0 && d > 0.0 && s == r + d && x == 1.0 + d && rx == r * x
    ensures s <= rx
  {
    MulMono(1.0, r, d, d);
  }

  lemma FineGrowth(n: nat, d: real, x: real, p: real)
    requires n >= 1 && FineFor(n, d) && x == 1.0 + d && p == Pow(x, n)
    ensures n as real * p <= n as real + 1.0
  {
    var c := n as real;
    var m := c * d;
    PositiveProduct(c, d, m);
    BernoulliUpper(d, n, m);
    PowPositive(x, n);
    RatioBound(c, m, p);
  }

  lemma RatioBound(c: real, m: real, p: real)
    requires c >= 1.0 && m > 0.0 && m * c + m < 1.0 && p > 0.0 && p * (1.0 - m) <= 1.0
    ensures c * p <= c + 1.0
  {
    var pm := p * m;
    assert p * (1.0 - m) == p - pm;
    ScaleAtMost(c, p, 1.0 + pm);
    assert c * (1.0 + pm) == c + c * pm;
    ScaleAtMost(p, m * c + m, 1.0);
    assert p * (m * c + m) == c * pm + pm;
  }

  /** One step multiplies the n-th power by at most (n+1)/n. */
  lemma StepRatio(n: nat, r: real, s: real, d: real, rn: real, sn: real)
    requires n >= 1 && r > 1.0 && FineFor(n, d) && s == r + d && rn == Pow(r, n) && sn == Pow(s, n)
    ensures n as real * sn <= n as real * rn + rn
  {
    var x := 1.0 + d;
    StepGrowth(n, r, s, d, x);
    FineGrowth(n, d, x, Pow(x, n));
    PowPositive(r, n);
    ScaleRatio(n as real, Pow(x, n), rn, sn);
  }

  lemma ScaleRatio(c: real, p: real, rn: real, sn: real)
    requires c >= 1.0 && rn > 0.0 && sn <= rn * p && c * p <= c + 1.0
    ensures c * sn <= c * rn + rn
  {
    var cp := c * p;
    ScaleAtMost(c, sn, rn * p);
    ScaleAtMost(rn, cp, c + 1.0);
    assert c * (rn * p) == rn * cp;
  }

  lemma LossAt(n: nat, t: nat, r: real, s: real, d: real, re: real, rt: real, se: real, loss: real, l: real)
    requires t < n && r > 1.0 && d > 0.0 && s == r + d && FirstTest(n, t, r)
    requires re == Pow(r, n - t) && rt == Pow(r, t) && se == Pow(s, n - t)
    requires loss == (2.0 - rt) * (se - re) && l == (n - t) as real * d
    ensures r * loss > l
  {
    PowAdd(r, n - t, t);
    PowMono(1.0, r, n - t);
    PowOfOne(n - t);
    GapAtLeast(r, s, d, n - t, l);
    PositiveProduct((n - t) as real, d, l);
    LosingPart(r, re, rt, Pow(r, n), se - re, l, loss);
  }

  lemma GainAt(n: nat, t: nat, r: real, s: real, d: real, rt: real, se: real, st: real, sn: real,
               td: real, gain: real, g: real)
    requires t < n && r > 1.0 && d > 0.0 && s == r + d
    requires rt == Pow(r, t) && se == Pow(s, n - t) && st == Pow(s, t) && sn == Pow(s, n)
    requires td == t as real * d && gain == (st - rt) * se && g == td * sn
    ensures r * gain <= g
  {
    PowAdd(s, n - t, t);
    PowMono(r, s, t);
    PowPositive(s, n - t);
    GapAtMost(r, s, d, t, td);
    GainingPart(r, s, st - rt, se, st, sn, td, gain, g);
  }

  lemma ExcessAt(r: real, e: nat, re: real, w: real)
    requires r > 1.0 && re == Pow(r, e) && w == (r - 1.0) * re
    ensures 0.0 <= re - 1.0 <= e as real * w && w > 0.0
  {
    PowMono(1.0, r, e);
    PowOfOne(e);
    var d, y := r - 1.0, re - 1.0;
    var l := e as real * d;
    GapAtMost(1.0, r, d, e, l);
    MulMono(1.0, r, y, y);
    PositiveProduct(d, re, w);
    assert l * re == e as real * w;
  }

  lemma FitsAt(n: nat, t: nat, r: real, s: real, d: real, re: real, sn: real, td: real, g: real, l: real, w: real)
    requires 1 <= t && 2 * t < n && r > 1.0 && FineFor(n, d) && s == r + d && FirstTest(n, t, r)
    requires re == Pow(r, n - t) && sn == Pow(s, n) && w == (r - 1.0) * re
    requires td == t as real * d && g == td * sn && l == (n - t) as real * d
    ensures g - l < w
  {
    ExcessAt(r, n - t, re, w);
    StepRatio(n, r, s, d, Pow(r, n), sn);
    DifferenceFits(n as real, t as real, (n - t) as real, d, n as real * d, re - 1.0, w, Pow(r, n), sn, td, g, l);
  }

  /** Where the first test holds but fails one step above, the second test holds as well. */
  lemma SecondTestForced(n: nat, t: nat, r: real, s: real, d: real)
    requires 1 <= t && 2 * t < n && r > 1.0 && FineFor(n, d) && s == r + d
    requires FirstTest(n, t, r) && !FirstTest(n, t, s)
    ensures 0.5 * (Pow(r, n) + 1.0) > Pow(r, n - t - 1)
  {
    var re, rt, se, st, sn := Pow(r, n - t), Pow(r, t), Pow(s, n - t), Pow(s, t), Pow(s, n);
    var td, l, w := t as real * d, (n - t) as real * d, (r - 1.0) * re;
    var gain, loss, g := (st - rt) * se, (2.0 - rt) * (se - re), td * sn;
    LossAt(n, t, r, s, d, re, rt, se, loss, l);
    GainAt(n, t, r, s, d, rt, se, st, sn, td, gain, g);
    FitsAt(n, t, r, s, d, re, sn, td, g, l, w);
    SecondTestPowers(n, t, r, s, re, rt, se, st, sn, gain, loss, g, l, w);
  }

  lemma LowerPowers(n: nat, t: nat, r: real, re: real, rt: real, rn: real, rl: real)
    requires t < n && r > 1.0 && re == Pow(r, n - t) && rt == Pow(r, t) && rn == Pow(r, n) && rl == Pow(r, n - t - 1)
    ensures rn == re * rt && re == r * rl && re >= 1.0
  {
    PowAdd(r, n - t, t);
    PowStep(r, n - t - 1);
    PowMono(1.0, r, n - t);
    PowOfOne(n - t);
  }

  lemma SecondTestPowers(n: nat, t: nat, r: real, s: real, re: real, rt: real, se: real, st: real, sn: real,
                         gain: real, loss: real, g: real, l: real, w: real)
    requires t < n && r > 1.0 && !FirstTest(n, t, s)
    requires re == Pow(r, n - t) && rt == Pow(r, t) && se == Pow(s, n - t) && st == Pow(s, t) && sn == Pow(s, n)
    requires gain == (st - rt) * se && loss == (2.0 - rt) * (se - re) && w == (r - 1.0) * re
    requires r * gain <= g && r * loss > l && g - l < w
    ensures 0.5 * (Pow(r, n) + 1.0) > Pow(r, n - t - 1)
  {
    var rn, rl := Pow(r, n), Pow(r, n - t - 1);
    LowerPowers(n, t, r, re, rt, rn, rl);
    PowAdd(s, n - t, t);
    SecondTestCore(r, re, rt, rn, rl, se, st, sn, gain, loss, g, l, w);
  }

  // ---- The first test near one and at two ----

  lemma LowerAt(e: nat, d: real, x: real, ed: real)
    requires d > 0.0 && x == 1.0 + d && ed == e as real * d
    ensures Pow(x, e) >= 1.0 + ed
  {
    Bernoulli(d, e);
  }

  lemma UpperAt(n: nat, d: real, x: real, m: real)
    requires d > 0.0 && x == 1.0 + d && m == n as real * d && m < 1.0
    ensures Pow(x, n) * (1.0 - m) <= 1.0
  {
    BernoulliUpper(d, n, m);
  }

  lemma NearOne(n: nat, t: nat, d: real, x: real)
    requires 2 * t < n && FineFor(n, d) && x == 1.0 + d
    ensures FirstTest(n, t, x)
  {
    var c, e, p := n as real, (n - t) as real, Pow(x, n);
    var m, ed := c * d, e * d;
    PositiveProduct(c, d, m);
    NearOneSum(c, e, d, m, ed);
    UpperAt(n, d, x, m);
    NearOneReal(c, 2.0 * e - c, d, m, 2.0 * ed - m, p);
    LowerAt(n - t, d, x, ed);
  }

  lemma NearOneSum(c: real, e: real, d: real, m: real, ed: real)
    requires c >= 1.0 && m == c * d && ed == e * d && m > 0.0 && m * c + m < 1.0
    ensures 2.0 * ed - m == (2.0 * e - c) * d && m < 1.0
  {
    MulMono(m, m, 1.0, c);
  }

  lemma NearOneReal(c: real, a: real, d: real, m: real, ad: real, p: real)
    requires c >= 1.0 && a >= 1.0 && d > 0.0 && m == c * d && ad == a * d && 0.0 < m && m * c + m < 1.0
    requires p * (1.0 - m) <= 1.0
    ensures p < 1.0 + (m + ad)
  {
    var u, v := m + ad, 1.0 - m;
    ProductAboveOne(c, a, d, m, ad, u);
    MulMono(m, m, 1.0, c);
    ScaleLess(v, p, 1.0 + u, v * p, v * (1.0 + u));
  }

  lemma ProductAboveOne(c: real, a: real, d: real, m: real, ad: real, u: real)
    requires c >= 1.0 && a >= 1.0 && d > 0.0 && m == c * d && ad == a * d && 0.0 < m && m * c + m < 1.0
    requires u == m + ad
    ensures (1.0 + u) * (1.0 - m) > 1.0
  {
    var mc, mu, cu := m * c, m * u, c * u;
    MulMono(0.0, m, 0.0, c);
    assert cu == mc + c * ad;
    assert c * ad == a * m;
    MulMono(1.0, a, mc, mc);
    var x := mc + m;
    assert a * x == a * mc + a * m;
    ScaleLess(a, x, 1.0, a * x, a);
    ScaleLess(d, cu, a, d * cu, d * a);
    assert d * cu == mu;
    assert (1.0 + u) * (1.0 - m) == 1.0 + ad - mu;
  }

  lemma FailsAtTwo(n: nat, t: nat)
    requires 1 <= t && 2 * t < n
    ensures !FirstTest(n, t, 2.0)
  {
    PowStep(2.0, n - t);
    PowAdd(2.0, n - t + 1, t - 1);
    PowMono(1.0, 2.0, t - 1);
    PowOfOne(t - 1);
    PowPositive(2.0, n - t + 1);
    MulMono(1.0, Pow(2.0, t - 1), Pow(2.0, n - t + 1), Pow(2.0, n - t + 1));
  }

  // ---- The search ----

  /** With tolerance 0 the very first ratio passes. */
  lemma ZeroTolerancePasses(n: nat)
    requires n >= 1
    ensures Passes(n, 1, 2.0)
  {
    PowStep(2.0, n - 1);
    PowMono(1.0, 2.0, n - 1);
    PowOfOne(n - 1);
  }

  lemma FinerStill(n: nat, d: real, step: real)
    requires FineFor(n, step) && 0.0 < d <= step
    ensures FineFor(n, d)
  {
    var c := n as real;
    MulMono(c, c, d, step);
    MulMono(c * d, c * step, c, c);
  }

  lemma StepBelowOne(n: nat, step: real)
    requires n >= 1 && FineFor(n, step)
    ensures step <= 1.0
  {
    var c := n as real;
    MulMono(1.0, c, step, step);
    MulMono(0.0, c * step, 0.0, c);
  }

  lemma OneStepDown(step: real, k: nat)
    requires k > 0
    ensures Tried(step, k - 1) == Tried(step, k) + step
  {
    assert k as real * step == (k - 1) as real * step + step;
  }

  lemma {:induction false} FirstChange(p: nat -> bool, k: nat) returns (j: nat)
    requires !p(0) && p(k)
    ensures 0 < j <= k && p(j) && !p(j - 1)
  {
    j := k;
    if p(k - 1) {
      j := FirstChange(p, k - 1);
    }
  }

  /** The highest ratio tried above one at which the first test holds. */
  lemma FirstTestStarts(n: nat, t: nat, step: real) returns (k: nat)
    requires 1 <= t && 2 * t < n && step > 0.0
    requires exists j: nat :: Tried(step, j) > 1.0 && FirstTest(n, t, Tried(step, j))
    ensures k > 0 && Tried(step, k) > 1.0 && FirstTest(n, t, Tried(step, k)) && !FirstTest(n, t, Tried(step, k - 1))
  {
    var j: nat :| Tried(step, j) > 1.0 && FirstTest(n, t, Tried(step, j));
    FailsAtTwo(n, t);
    assert Tried(step, 0) == 2.0;
    k := FirstChange((i: nat) => FirstTest(n, t, Tried(step, i)), j);
    TriedDecreases(step, k, j);
  }

  lemma FirstTestMet(n: nat, t: nat, step: real)
    requires 2 * t < n && FineFor(n, step)
    ensures exists j: nat :: Tried(step, j) > 1.0 && FirstTest(n, t, Tried(step, j))
  {
    StepBelowOne(n, step);
    var k := LowestAboveOne(step);
    FinerStill(n, Tried(step, k) - 1.0, step);
    NearOne(n, t, Tried(step, k) - 1.0, Tried(step, k));
  }

  /** For every tolerance below half the nodes and every step with n(n+1) step < 1 the search meets a
      ratio above 1. */
  lemma SearchHaltsForMinority(n: nat, t: nat, step: real)
    requires 2 * t < n && FineFor(n, step)
    ensures exists k: nat :: Tried(step, k) > 1.0 && Passes(n, t + 1, Tried(step, k))
    ensures FindsPositive(n, t + 1, step) && Halts(n, t + 1, step)
  {
    if t == 0 {
      ZeroTolerancePasses(n);
      assert Tried(step, 0) == 2.0;
      assert Passes(n, 1, Tried(step, 0));
    } else {
      FirstTestMet(n, t, step);
      var k := FirstTestStarts(n, t, step);
      OneStepDown(step, k);
      SecondTestForced(n, t, Tried(step, k), Tried(step, k - 1), step);
      assert Passes(n, t + 1, Tried(step, k));
    }
  }

  /** Some step is fine enough. */
  lemma SomeStepIsFine(n: nat) returns (step: real)
    ensures FineFor(n, step)
  {
    var c := n as real;
    var a := c + 1.0;
    var u := 1.0 / a;
    step := u * u;
    assert u * a == 1.0;
    PositiveProduct(u, u, step);
    FineStep(c, u, step, c * step);
  }

  lemma FineStep(c: real, u: real, step: real, m: real)
    requires c >= 0.0 && u > 0.0 && u * (c + 1.0) == 1.0 && step == u * u && m == c * step
    ensures m * c + m < 1.0
  {
    var cu := c * u;
    assert cu + u == 1.0;
    assert m == cu * u;
    assert m * c + m == cu * (cu + u);
  }
}
