/** Weight schemes, the weight of a set of nodes, and weighted quorums. */
module Weights {
  import opened Powers
  import opened RatioSearch

  // ---- The scheme and its two invariants ----

  /** The sum of the k heaviest weights; with k = |scheme| the source's sum loop. */
  function TopSum(scheme: seq<real>, k: nat): real
    requires k <= |scheme|
  {
    if k == 0 then 0.0 else TopSum(scheme, k - 1) + scheme[k - 1]
  }

  function Term(base: real, r: real, i: nat): real {
    base * Pow(r, i)
  }

  /** The geometric scheme base * r^i, heaviest first. */
  function BuiltScheme(base: real, r: real, n: nat): (scheme: seq<real>)
    ensures |scheme| == n
  {
    seq(n, i requires 0 <= i < n => Term(base, r, n - 1 - i))
  }

  predicate Decreasing(scheme: seq<real>) {
    && (forall i :: 0 <= i < |scheme| ==> scheme[i] > 0.0)
    && (forall i, j :: 0 <= i < j < |scheme| ==> scheme[i] > scheme[j])
  }

  /** I1 and I2: the top t+1 weights exceed the majority, the top t do not reach it. */
  predicate Sound(scheme: seq<real>, t: nat, majority: real) {
    && t < |scheme|
    && Decreasing(scheme)
    && TopSum(scheme, |scheme|) == 2.0 * majority
    && TopSum(scheme, t) < majority < TopSum(scheme, t + 1)
  }

  lemma {:induction false} BuiltTopSum(base: real, r: real, n: nat, k: nat, e: nat, sum: real)
    requires n == k + e && sum == TopSum(BuiltScheme(base, r, n), k)
    ensures (r - 1.0) * sum == base * (Pow(r, n) - Pow(r, e))
  {
    if k == 0 {
      EmptySum(base, r, sum, Pow(r, n));
    } else {
      var before, next := TopSum(BuiltScheme(base, r, n), k - 1), Term(base, r, e);
      BuiltTopSum(base, r, n, k - 1, e + 1, before);
      PowStep(r, e);
      BuiltTopSumStep(base, r, before, next, Pow(r, n), Pow(r, e + 1), Pow(r, e));
    }
  }

  lemma EmptySum(base: real, r: real, sum: real, top: real)
    requires sum == 0.0
    ensures (r - 1.0) * sum == base * (top - top)
  {
  }

  lemma BuiltTopSumStep(base: real, r: real, sum: real, next: real, top: real, high: real, low: real)
    requires (r - 1.0) * sum == base * (top - high) && next == base * low && high == r * low
    ensures (r - 1.0) * (sum + next) == base * (top - low)
  {
    assert (r - 1.0) * next == base * high - base * low;
  }

  /** For ratios above 1 the search's test says exactly that the built scheme has I1 and I2. */
  lemma SoundIffPasses(base: real, r: real, n: nat, t: nat)
    requires base > 0.0 && r > 1.0 && t < n
    ensures var s := BuiltScheme(base, r, n);
            Sound(s, t, TopSum(s, n) / 2.0) <==> Passes(n, t + 1, r)
  {
    var e := n - t - 1;
    BuiltDecreasing(base, r, n);
    var s := BuiltScheme(base, r, n);
    var all, top := TopSum(s, n), Pow(r, n);
    SumAgainstHalf(base, r, n, t, e + 1, TopSum(s, t), all, top, Pow(r, e + 1));
    SumAgainstHalf(base, r, n, t + 1, e, TopSum(s, t + 1), all, top, Pow(r, e));
  }

  /** A positive ratio that passed the search gives a scheme with I1 and I2. */
  lemma BuiltSchemeIsSound(base: real, r: real, n: nat, t: nat)
    requires base > 0.0 && r > 0.0 && t < n && Passes(n, t + 1, r)
    ensures var s := BuiltScheme(base, r, n); Sound(s, t, TopSum(s, n) / 2.0)
  {
    PositiveIsAboveOne(n, t + 1, r);
    SoundIffPasses(base, r, n, t);
  }

  lemma BuiltTotal(base: real, r: real, n: nat, all: real, top: real)
    requires all == TopSum(BuiltScheme(base, r, n), n) && top == Pow(r, n)
    ensures (r - 1.0) * all == base * (top - 1.0)
  {
    BuiltTopSum(base, r, n, n, 0, all);
    assert top - Pow(r, 0) == top - 1.0;
  }

  /** How the top k weights compare with half the total, told by the power left over. */
  lemma SumAgainstHalf(base: real, r: real, n: nat, k: nat, e: nat, sum: real, all: real, top: real, low: real)
    requires base > 0.0 && r > 1.0 && n == k + e && top == Pow(r, n) && low == Pow(r, e)
    requires sum == TopSum(BuiltScheme(base, r, n), k) && all == TopSum(BuiltScheme(base, r, n), n)
    ensures sum < all / 2.0 <==> low > 0.5 * (top + 1.0)
    ensures sum > all / 2.0 <==> low < 0.5 * (top + 1.0)
  {
    BuiltTopSum(base, r, n, k, e, sum);
    BuiltTotal(base, r, n, all, top);
    CompareHalf(base, r, sum, all, top, low);
  }

  lemma CompareHalf(base: real, r: real, sum: real, all: real, top: real, low: real)
    requires base > 0.0 && r > 1.0
    requires (r - 1.0) * all == base * (top - 1.0) && (r - 1.0) * sum == base * (top - low)
    ensures sum < all / 2.0 <==> low > 0.5 * (top + 1.0)
    ensures sum > all / 2.0 <==> low < 0.5 * (top + 1.0)
  {
    var c, half, mid := r - 1.0, all / 2.0, 0.5 * (top + 1.0);
    var x, y, p, q := c * sum, c * half, base * low, base * mid;
    assert y - x == p - q;
    ScaleLess(c, sum, half, x, y);
    ScaleLess(c, half, sum, y, x);
    ScaleLess(base, mid, low, q, p);
    ScaleLess(base, low, mid, p, q);
  }

  lemma {:induction false} PowStrict(r: real, j: nat, k: nat)
    requires r > 1.0 && j < k
    ensures 0.0 < Pow(r, j) < Pow(r, k)
    decreases k - j
  {
    PowPositive(r, j);
    var p, q := Pow(r, j), r * Pow(r, j);
    ScaleLess(p, 1.0, r, p, q);
    if j + 1 < k {
      PowStrict(r, j + 1, k);
    }
  }

  lemma BuiltDecreasing(base: real, r: real, n: nat)
    requires base > 0.0 && r > 1.0
    ensures Decreasing(BuiltScheme(base, r, n))
  {
    var s := BuiltScheme(base, r, n);
    forall i | 0 <= i < n
      ensures s[i] > 0.0
    {
      TermPositive(base, r, n - 1 - i);
    }
    forall i, j | 0 <= i < j < n
      ensures s[i] > s[j]
    {
      TermStrict(base, r, n - 1 - j, n - 1 - i);
    }
  }

  lemma TermPositive(base: real, r: real, i: nat)
    requires base > 0.0 && r > 0.0
    ensures Term(base, r, i) > 0.0
  {
    PowPositive(r, i);
    PositiveProduct(base, Pow(r, i), Term(base, r, i));
  }

  lemma TermStrict(base: real, r: real, j: nat, k: nat)
    requires base > 0.0 && r > 1.0 && j < k
    ensures Term(base, r, j) < Term(base, r, k)
  {
    PowStrict(r, j, k);
    ScaleLess(base, Pow(r, j), Pow(r, k), Term(base, r, j), Term(base, r, k));
  }

  lemma {:induction false} TopSumMono(scheme: seq<real>, j: nat, k: nat)
    requires Decreasing(scheme) && j <= k <= |scheme|
    ensures TopSum(scheme, j) <= TopSum(scheme, k)
  {
    if j < k {
      TopSumMono(scheme, j, k - 1);
    }
  }

  // ---- The weight of a set of nodes ----

  /** A Go map read: absent keys give zero. */
  function Lookup(w: map<int, real>, id: int): real {
    if id in w then w[id] else 0.0
  }

  /** The nodes 0..n-1. */
  function Ids(n: nat): (ids: set<int>)
    ensures forall id :: id in ids <==> 0 <= id < n
    ensures |ids| == n
  {
    if n == 0 then {} else Ids(n - 1) + {n - 1}
  }

  /** The weight of the nodes of s among 0..n-1. */
  function Weigh(w: map<int, real>, s: set<int>, n: nat): real {
    if n == 0 then 0.0
    else Weigh(w, s, n - 1) + if n - 1 in s then Lookup(w, n - 1) else 0.0
  }

  lemma {:induction false} WeighCongruent(w: map<int, real>, s: set<int>, u: set<int>, n: nat)
    requires forall id :: 0 <= id < n ==> (id in s <==> id in u)
    ensures Weigh(w, s, n) == Weigh(w, u, n)
  {
    if n > 0 {
      WeighCongruent(w, s, u, n - 1);
    }
  }

  lemma {:induction false} WeighDisjoint(w: map<int, real>, s: set<int>, u: set<int>, n: nat)
    requires s !! u
    ensures Weigh(w, s + u, n) == Weigh(w, s, n) + Weigh(w, u, n)
  {
    if n > 0 {
      WeighDisjoint(w, s, u, n - 1);
    }
  }

  lemma {:induction false} WeighSingleton(w: map<int, real>, id: int, n: nat)
    ensures Weigh(w, {id}, n) == if 0 <= id < n then Lookup(w, id) else 0.0
  {
    if n > 0 {
      WeighSingleton(w, id, n - 1);
    }
  }

  lemma WeighInsert(w: map<int, real>, s: set<int>, id: int, n: nat)
    requires 0 <= id < n && id !in s
    ensures Weigh(w, s + {id}, n) == Weigh(w, s, n) + Lookup(w, id)
  {
    WeighDisjoint(w, s, {id}, n);
    WeighSingleton(w, id, n);
  }

  predicate Distinct(q: seq<int>) {
    forall i, j :: 0 <= i < j < |q| ==> q[i] != q[j]
  }

  predicate Within(q: seq<int>, n: nat) {
    forall i :: 0 <= i < |q| ==> 0 <= q[i] < n
  }

  function Members(q: seq<int>): set<int> {
    set id | id in q
  }

  lemma MembersAppend(q: seq<int>, id: int)
    ensures Members(q + [id]) == Members(q) + {id}
  {
  }

  lemma {:induction false} MembersCount(q: seq<int>)
    requires Distinct(q)
    ensures |Members(q)| == |q|
  {
    if q != [] {
      var p, id := q[..|q| - 1], q[|q| - 1];
      assert q == p + [id];
      MembersCount(p);
      MembersAppend(p, id);
      assert id !in p;
    }
  }

  lemma SubsetCount(s: set<int>, u: set<int>)
    requires s <= u
    ensures |s| <= |u|
  {
    assert u == s + (u - s);
  }

  lemma RangeSize(lo: nat, hi: nat)
    requires lo <= hi
    ensures |Ids(hi) - Ids(lo)| == hi - lo
  {
    assert Ids(hi) == (Ids(hi) - Ids(lo)) + Ids(lo);
  }

  /** Distinct ids below n that miss one of them are fewer than n. */
  lemma DistinctFewer(q: seq<int>, n: nat, missing: int)
    requires Distinct(q) && Within(q, n) && 0 <= missing < n && missing !in q
    ensures |q| < n
  {
    MembersCount(q);
    SubsetCount(Members(q), Ids(n) - {missing});
  }

  /** The sum over the first k replies, as the wait loop accumulates it. */
  function RunningSum(w: map<int, real>, q: seq<int>, k: nat): real
    requires k <= |q|
  {
    if k == 0 then 0.0 else RunningSum(w, q, k - 1) + Lookup(w, q[k - 1])
  }

  lemma {:induction false} RunningSumPrefix(w: map<int, real>, q: seq<int>, more: seq<int>, k: nat)
    requires k <= |q| && q <= more
    ensures RunningSum(w, more, k) == RunningSum(w, q, k)
  {
    if k > 0 {
      RunningSumPrefix(w, q, more, k - 1);
    }
  }

  /** For distinct replies the running sum is the weight of the set that replied. */
  lemma {:induction false} RunningSumIsWeigh(w: map<int, real>, q: seq<int>, k: nat, n: nat)
    requires Distinct(q) && Within(q, n) && k <= |q|
    ensures RunningSum(w, q, k) == Weigh(w, First(q, k), n)
  {
    if k == 0 {
      WeighEmpty(w, n);
    } else {
      RunningSumIsWeigh(w, q, k - 1, n);
      FirstFresh(q, k - 1);
      WeighInsert(w, First(q, k - 1), q[k - 1], n);
    }
  }

  lemma {:induction false} WeighEmpty(w: map<int, real>, n: nat)
    ensures Weigh(w, {}, n) == 0.0
  {
    if n > 0 {
      WeighEmpty(w, n - 1);
    }
  }

  // ---- Rankings ----

  /** An order of the nodes 0..n-1, each exactly once. */
  predicate Permutation(order: seq<int>, n: nat) {
    && |order| == n
    && Distinct(order)
    && Within(order, n)
    && (forall id :: 0 <= id < n ==> id in order)
  }

  /** w hands scheme[i] to order[i]: a bijection of the nodes onto the scheme. */
  predicate RankedBy(w: map<int, real>, order: seq<int>, scheme: seq<real>) {
    && Permutation(order, |scheme|)
    && w.Keys == Ids(|scheme|)
    && (forall i :: 0 <= i < |scheme| ==> order[i] in w && w[order[i]] == scheme[i])
  }

  /** The weight of s summed in rank order over the first k ranks. */
  function RankSum(order: seq<int>, scheme: seq<real>, s: set<int>, k: nat): real
    requires k <= |order| == |scheme|
  {
    if k == 0 then 0.0
    else RankSum(order, scheme, s, k - 1) + if order[k - 1] in s then scheme[k - 1] else 0.0
  }

  lemma RankLookup(w: map<int, real>, order: seq<int>, scheme: seq<real>, i: nat)
    requires RankedBy(w, order, scheme) && i < |scheme|
    ensures 0 <= order[i] < |scheme| && Lookup(w, order[i]) == scheme[i]
  {
  }

  /** The k highest ranked nodes. */
  function First(order: seq<int>, k: nat): set<int>
    requires k <= |order|
  {
    if k == 0 then {} else First(order, k - 1) + {order[k - 1]}
  }

  lemma {:induction false} InFirst(order: seq<int>, k: nat, id: int)
    requires k <= |order|
    ensures id in First(order, k) <==> exists i :: 0 <= i < k && order[i] == id
  {
    if k > 0 {
      InFirst(order, k - 1, id);
    }
  }

  lemma FirstFresh(order: seq<int>, k: nat)
    requires Distinct(order) && k < |order|
    ensures order[k] !in First(order, k)
  {
    InFirst(order, k, order[k]);
  }

  lemma MeetInsert(s: set<int>, f: set<int>, id: int)
    requires id !in f
    ensures s * (f + {id}) == if id in s then s * f + {id} else s * f
    ensures |s * (f + {id})| == |s * f| + if id in s then 1 else 0
  {
    if id in s {
      assert s * (f + {id}) == s * f + {id};
    } else {
      assert s * (f + {id}) == s * f;
    }
  }

  /** All ranked nodes together are the nodes 0..n-1. */
  lemma FirstAll(order: seq<int>, n: nat)
    requires Permutation(order, n)
    ensures First(order, n) == Ids(n)
  {
    forall id
      ensures id in First(order, n) <==> id in Ids(n)
    {
      InFirst(order, n, id);
      assert 0 <= id < n ==> id in order;
    }
  }

  lemma {:induction false} WeighIsRankSum(w: map<int, real>, order: seq<int>, scheme: seq<real>, s: set<int>, k: nat)
    requires RankedBy(w, order, scheme) && k <= |scheme|
    ensures Weigh(w, s * First(order, k), |scheme|) == RankSum(order, scheme, s, k)
  {
    if k == 0 {
      WeighEmpty(w, |scheme|);
      assert s * First(order, 0) == {};
    } else {
      var id, f := order[k - 1], First(order, k - 1);
      WeighIsRankSum(w, order, scheme, s, k - 1);
      FirstFresh(order, k - 1);
      MeetInsert(s, f, id);
      RankLookup(w, order, scheme, k - 1);
      if id in s {
        WeighInsert(w, s * f, id, |scheme|);
      }
    }
  }

  /** How many of the first k ranked nodes are in s. */
  function Hits(order: seq<int>, s: set<int>, k: nat): (c: nat)
    requires k <= |order|
    ensures c <= k
  {
    if k == 0 then 0 else Hits(order, s, k - 1) + if order[k - 1] in s then 1 else 0
  }

  lemma {:induction false} HitsCount(order: seq<int>, s: set<int>, k: nat)
    requires Distinct(order) && k <= |order|
    ensures Hits(order, s, k) == |s * First(order, k)|
  {
    if k == 0 {
      assert s * First(order, 0) == {};
    } else {
      HitsCount(order, s, k - 1);
      FirstFresh(order, k - 1);
      MeetInsert(s, First(order, k - 1), order[k - 1]);
    }
  }

  /** Any c nodes weigh at most the top c weights. */
  lemma {:induction false} RankSumAtMostTop(order: seq<int>, scheme: seq<real>, s: set<int>, k: nat)
    requires k <= |order| == |scheme| && Decreasing(scheme)
    ensures RankSum(order, scheme, s, k) <= TopSum(scheme, Hits(order, s, k))
  {
    if k > 0 {
      RankSumAtMostTop(order, scheme, s, k - 1);
      var c := Hits(order, s, k - 1);
      assert scheme[k - 1] <= scheme[c];
    }
  }

  lemma AtMostTop(w: map<int, real>, order: seq<int>, scheme: seq<real>, s: set<int>)
    requires RankedBy(w, order, scheme) && Decreasing(scheme) && s <= Ids(|scheme|)
    ensures |s| <= |scheme| && Weigh(w, s, |scheme|) <= TopSum(scheme, |s|)
  {
    var n := |scheme|;
    FirstAll(order, n);
    assert s * Ids(n) == s;
    WeighIsRankSum(w, order, scheme, s, n);
    HitsCount(order, s, n);
    RankSumAtMostTop(order, scheme, s, n);
  }

  /** The first k of the order weigh exactly the top k weights. */
  lemma {:induction false} FirstWeighTop(w: map<int, real>, order: seq<int>, scheme: seq<real>, k: nat)
    requires RankedBy(w, order, scheme) && k <= |scheme|
    ensures Weigh(w, First(order, k), |scheme|) == TopSum(scheme, k)
  {
    if k == 0 {
      WeighEmpty(w, |scheme|);
    } else {
      FirstWeighTop(w, order, scheme, k - 1);
      FirstFresh(order, k - 1);
      RankLookup(w, order, scheme, k - 1);
      WeighInsert(w, First(order, k - 1), order[k - 1], |scheme|);
    }
  }

  /** Every ranking weighs twice the majority in all. */
  lemma TotalWeight(w: map<int, real>, order: seq<int>, scheme: seq<real>, t: nat, majority: real)
    requires RankedBy(w, order, scheme) && Sound(scheme, t, majority)
    ensures Weigh(w, Ids(|scheme|), |scheme|) == 2.0 * majority
  {
    FirstAll(order, |scheme|);
    FirstWeighTop(w, order, scheme, |scheme|);
  }

  // ---- Weighted quorums ----

  predicate Quorum(w: map<int, real>, s: set<int>, n: nat, majority: real) {
    s <= Ids(n) && Weigh(w, s, n) > majority
  }

  /** I2 under any ranking: at most t nodes never weigh a majority. */
  lemma FewAreNoQuorum(w: map<int, real>, order: seq<int>, scheme: seq<real>, t: nat, majority: real, s: set<int>)
    requires RankedBy(w, order, scheme) && Sound(scheme, t, majority)
    requires s <= Ids(|scheme|) && |s| <= t
    ensures Weigh(w, s, |scheme|) < majority
  {
    AtMostTop(w, order, scheme, s);
    TopSumMono(scheme, |s|, t);
  }

  /** A weighted quorum has at least t+1 members. */
  lemma QuorumIsLarge(w: map<int, real>, order: seq<int>, scheme: seq<real>, t: nat, majority: real, s: set<int>)
    requires RankedBy(w, order, scheme) && Sound(scheme, t, majority)
    requires Quorum(w, s, |scheme|, majority)
    ensures |s| >= t + 1
  {
    if |s| <= t {
      FewAreNoQuorum(w, order, scheme, t, majority, s);
    }
  }

  /** Two weighted quorums of one ranking share a node. */
  lemma QuorumsIntersect(w: map<int, real>, order: seq<int>, scheme: seq<real>, t: nat, majority: real, s: set<int>,
                         u: set<int>)
    requires RankedBy(w, order, scheme) && Sound(scheme, t, majority)
    requires Quorum(w, s, |scheme|, majority) && Quorum(w, u, |scheme|, majority)
    ensures s * u != {}
  {
    if s * u == {} {
      var n := |scheme|;
      var rest := Ids(n) - s;
      TotalWeight(w, order, scheme, t, majority);
      assert Ids(n) == s + rest;
      WeighDisjoint(w, s, rest, n);
      assert forall id :: id in u ==> id !in s * u;
      assert rest == u + (rest - u);
      WeighDisjoint(w, u, rest - u, n);
      RankedNonNegative(w, order, scheme, rest - u, n);
    }
  }

  lemma {:induction false} RankedNonNegative(w: map<int, real>, order: seq<int>, scheme: seq<real>, s: set<int>, k: nat)
    requires RankedBy(w, order, scheme) && Decreasing(scheme) && k <= |scheme|
    ensures Weigh(w, s, k) >= 0.0
  {
    if k > 0 {
      RankedNonNegative(w, order, scheme, s, k - 1);
      assert k - 1 in order;
      var i :| 0 <= i < |order| && order[i] == k - 1;
      assert w[order[i]] == scheme[i] > 0.0;
    }
  }

  /** Worst-case tolerance: any n-t nodes weigh more than the majority under any ranking. */
  lemma ManyAreQuorum(w: map<int, real>, order: seq<int>, scheme: seq<real>, t: nat, majority: real, s: set<int>)
    requires RankedBy(w, order, scheme) && Sound(scheme, t, majority)
    requires s <= Ids(|scheme|) && |s| >= |scheme| - t
    ensures Quorum(w, s, |scheme|, majority)
  {
    var n := |scheme|;
    var rest := Ids(n) - s;
    assert Ids(n) == s + rest;
    TotalWeight(w, order, scheme, t, majority);
    WeighDisjoint(w, s, rest, n);
    FewAreNoQuorum(w, order, scheme, t, majority, rest);
  }

  /** Best-case tolerance: the t+1 highest ranked nodes alone weigh more than the majority. */
  lemma TopRankedAreQuorum(w: map<int, real>, order: seq<int>, scheme: seq<real>, t: nat, majority: real)
    requires RankedBy(w, order, scheme) && Sound(scheme, t, majority)
    ensures Quorum(w, First(order, t + 1), |scheme|, majority)
  {
    FirstWeighTop(w, order, scheme, t + 1);
    forall id | id in First(order, t + 1)
      ensures id in Ids(|scheme|)
    {
      InFirst(order, t + 1, id);
    }
  }
}
