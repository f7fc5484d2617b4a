/** When a round's count can be trusted: exactly which weights and own weight let it exit too early. */
module Miscounts {
  import opened Weights
  import opened PriorityManagers
  import opened KVStore
  import opened Rounds

  /** The leader and the followers whose replies were weighed. */
  function Counted(leader: int, r: Round): set<int>
    requires r.counted <= |r.queue|
  {
    {leader} + First(r.queue, r.counted)
  }

  predicate Follower(n: nat, leader: int, id: int) {
    0 <= id < n && id != leader
  }

  lemma CountedFollowers(n: nat, leader: int, queue: seq<int>, k: nat)
    requires Replies(n, leader, queue) && k <= |queue|
    ensures First(queue, k) <= Ids(n) - {leader}
  {
    forall id | id in First(queue, k)
      ensures Follower(n, leader, id)
    {
      InFirst(queue, k, id);
    }
  }

  /** The sum is off from the true weight of those counted by exactly what the leader's PrioVal is off
      from its own entry in the map. */
  lemma SumAgainstWeight(leader: int, n: nat, r: Round, majority: real)
    requires Tally(r, majority) && Replies(n, leader, r.queue)
    ensures r.prioSum - Weigh(r.weights, Counted(leader, r), n) == r.base - Lookup(r.weights, leader)
    ensures r.prioSum == r.base + Weigh(r.weights, First(r.queue, r.counted), n)
  {
    var heard := First(r.queue, r.counted);
    CountedFollowers(n, leader, r.queue, r.counted);
    RunningSumIsWeigh(r.weights, r.queue, r.counted, n);
    WeighInsert(r.weights, heard, leader, n);
    assert heard + {leader} == Counted(leader, r);
  }

  /** A round of these weights and this PrioVal that left the wait loop on its count. */
  ghost predicate Exit(n: nat, leader: int, w: map<int, real>, base: real, majority: real, r: Round) {
    && r.weights == w && r.base == base && Tally(r, majority) && Replies(n, leader, r.queue)
    && Settled(r.status) && !r.status.TimedOut?
  }

  /** Some followers that push the sum over the majority. */
  predicate Passing(n: nat, leader: int, w: map<int, real>, base: real, majority: real, f: set<int>) {
    f <= Ids(n) - {leader} && f != {} && base + Weigh(w, f, n) > majority
  }

  /** And with the leader's own entry do not in truth exceed it. */
  predicate Misleading(n: nat, leader: int, w: map<int, real>, base: real, majority: real, f: set<int>) {
    Passing(n, leader, w, base, majority, f) && Weigh(w, f, n) + Lookup(w, leader) <= majority
  }

  ghost predicate NonNegative(w: map<int, real>) {
    forall id :: id in w ==> w[id] >= 0.0
  }

  // ---- Every passing set contains an exit ----

  lemma {:induction false} ListSet(s: set<int>, n: nat) returns (q: seq<int>)
    requires s <= Ids(n)
    ensures Distinct(q) && Members(q) == s
  {
    if n == 0 {
      q := [];
    } else {
      q := ListSet(s - {n - 1}, n - 1);
      if n - 1 in s {
        assert n - 1 !in Members(q);
        MembersAppend(q, n - 1);
        q := q + [n - 1];
      }
    }
  }

  lemma {:induction false} FirstIsMembers(q: seq<int>, k: nat)
    requires k <= |q|
    ensures First(q, k) <= Members(q) && (k == |q| ==> First(q, k) == Members(q))
  {
    forall id | id in First(q, k)
      ensures id in q
    {
      InFirst(q, k, id);
    }
    if k == |q| {
      forall id | id in q
        ensures id in First(q, k)
      {
        InFirst(q, k, id);
      }
    }
  }

  /** The first prefix whose sum passes, if the whole sum does. */
  lemma {:induction false} FirstPassing(w: map<int, real>, q: seq<int>, base: real, majority: real,
                                        k: nat) returns (j: nat)
    requires 0 < k <= |q| && base + RunningSum(w, q, k) > majority
    ensures 0 < j <= k && base + RunningSum(w, q, j) > majority
    ensures forall i :: 0 < i < j ==> base + RunningSum(w, q, i) <= majority
    decreases k
  {
    if i: nat :| 0 < i < k && base + RunningSum(w, q, i) > majority {
      j := FirstPassing(w, q, base, majority, i);
    } else {
      j := k;
    }
  }

  /** List a passing set and stop where the wait loop would. */
  lemma PassingExits(n: nat, leader: int, w: map<int, real>, base: real, majority: real, f: set<int>, cmd: Command)
    returns (r: Round)
    requires 0 <= leader < n && Passing(n, leader, w, base, majority, f)
    ensures Exit(n, leader, w, base, majority, r) && r.counted <= |r.queue| && First(r.queue, r.counted) <= f
  {
    var q := ListSet(f, n);
    FirstIsMembers(q, |q|);
    ListedFollowers(n, leader, q, f);
    RunningSumIsWeigh(w, q, |q|, n);
    var j := FirstPassing(w, q, base, majority, |q|);
    r := StoppedAt(w, base, q, j, cmd);
    StoppedIsExit(n, leader, w, base, majority, q, j, cmd);
    FirstIsMembers(q, j);
  }

  /** The round that exited on the first j replies of q. */
  function StoppedAt(w: map<int, real>, base: real, q: seq<int>, j: nat, cmd: Command): Round
    requires j <= |q|
  {
    Round(cmd, w, base, base + RunningSum(w, q, j), [], q, j, Committed)
  }

  lemma StoppedIsExit(n: nat, leader: int, w: map<int, real>, base: real, majority: real, q: seq<int>, j: nat,
                      cmd: Command)
    requires Replies(n, leader, q) && 0 < j <= |q| && base + RunningSum(w, q, j) > majority
    requires forall i :: 0 < i < j ==> base + RunningSum(w, q, i) <= majority
    ensures Exit(n, leader, w, base, majority, StoppedAt(w, base, q, j, cmd))
  {
  }

  lemma ListedFollowers(n: nat, leader: int, q: seq<int>, f: set<int>)
    requires 0 <= leader < n && Distinct(q) && Members(q) == f && f <= Ids(n) - {leader}
    ensures Replies(n, leader, q)
  {
    forall i | 0 <= i < |q|
      ensures Follower(n, leader, q[i])
    {
      assert q[i] in Members(q);
    }
  }

  lemma {:induction false} WeighSubset(w: map<int, real>, s: set<int>, u: set<int>, n: nat)
    requires NonNegative(w) && s <= u
    ensures Weigh(w, s, n) <= Weigh(w, u, n)
  {
    if n > 0 {
      WeighSubset(w, s, u, n - 1);
    }
  }

  lemma {:induction false} NothingWeighsNothing(p: set<int>, n: nat)
    ensures Weigh(map[], p, n) == 0.0
  {
    if n > 0 {
      NothingWeighsNothing(p, n - 1);
    }
  }

  // ---- The exact conditions ----

  /** Every count that exits is a weighted quorum if and only if no set of followers is misleading; the
      leader holds everything this asks for before the round starts. */
  lemma QuorumExitExact(n: nat, leader: int, w: map<int, real>, base: real, majority: real)
    requires 0 <= leader < n && NonNegative(w)
    ensures (forall r :: Exit(n, leader, w, base, majority, r) ==> Quorum(w, Counted(leader, r), n, majority))
       <==> !exists f :: Misleading(n, leader, w, base, majority, f)
  {
    if f :| Misleading(n, leader, w, base, majority, f) {
      var r := PassingExits(n, leader, w, base, majority, f, Command(Delete, "", None));
      SumAgainstWeight(leader, n, r, majority);
      WeighSubset(w, First(r.queue, r.counted), f, n);
      assert !Quorum(w, Counted(leader, r), n, majority);
    } else {
      forall r | Exit(n, leader, w, base, majority, r)
        ensures Quorum(w, Counted(leader, r), n, majority)
      {
        ExitIsPassing(n, leader, w, base, majority, r);
        assert !Misleading(n, leader, w, base, majority, First(r.queue, r.counted));
      }
    }
  }

  lemma ExitIsPassing(n: nat, leader: int, w: map<int, real>, base: real, majority: real, r: Round)
    requires 0 <= leader < n && Exit(n, leader, w, base, majority, r)
    ensures r.counted <= |r.queue| && Passing(n, leader, w, base, majority, First(r.queue, r.counted))
    ensures Counted(leader, r) <= Ids(n) && |Counted(leader, r)| == 1 + |First(r.queue, r.counted)|
    ensures Weigh(w, Counted(leader, r), n) == Weigh(w, First(r.queue, r.counted), n) + Lookup(w, leader)
  {
    CountedFollowers(n, leader, r.queue, r.counted);
    SumAgainstWeight(leader, n, r, majority);
    InFirst(r.queue, r.counted, r.queue[0]);
  }

  /** Every count that exits has at least t+1 nodes if and only if no fewer than t followers can push the
      sum over the majority. */
  lemma LargeExitIffManyPass(n: nat, leader: int, w: map<int, real>, base: real, majority: real, t: nat)
    requires 0 <= leader < n
    ensures (forall r :: Exit(n, leader, w, base, majority, r) ==> |Counted(leader, r)| >= t + 1)
       <==> forall f :: Passing(n, leader, w, base, majority, f) ==> |f| >= t
  {
    if f :| Passing(n, leader, w, base, majority, f) && |f| < t {
      var r := PassingExits(n, leader, w, base, majority, f, Command(Delete, "", None));
      ExitIsPassing(n, leader, w, base, majority, r);
      SubsetCount(First(r.queue, r.counted), f);
    } else {
      forall r | Exit(n, leader, w, base, majority, r)
        ensures |Counted(leader, r)| >= t + 1
      {
        ExitIsPassing(n, leader, w, base, majority, r);
      }
    }
  }

  /** The weight of the t-1 heaviest nodes other than one that weighs own. */
  function TopOthers(scheme: seq<real>, own: real, t: nat): real
    requires 2 <= t <= |scheme|
  {
    if own >= scheme[t - 1] then TopSum(scheme, t) - own else TopSum(scheme, t - 1)
  }

  /** What the leader can check before the round: its PrioVal and the t-1 heaviest other nodes stay within
      the majority. */
  predicate Guarded(scheme: seq<real>, own: real, t: nat, base: real, majority: real)
    requires t <= |scheme|
  {
    t <= 1 || base + TopOthers(scheme, own, t) <= majority
  }

  lemma FewOthersWeigh(w: map<int, real>, order: seq<int>, scheme: seq<real>, i: nat, t: nat, f: set<int>)
    requires RankedBy(w, order, scheme) && Decreasing(scheme) && i < |scheme| && 2 <= t <= |scheme|
    requires f <= Ids(|scheme|) - {order[i]} && |f| < t
    ensures Weigh(w, f, |scheme|) <= TopOthers(scheme, scheme[i], t)
  {
    if i < t {
      RankLookup(w, order, scheme, i);
      WeighInsert(w, f, order[i], |scheme|);
      AtMostTop(w, order, scheme, f + {order[i]});
      TopSumMono(scheme, |f + {order[i]}|, t);
    } else {
      AtMostTop(w, order, scheme, f);
      TopSumMono(scheme, |f|, t - 1);
    }
  }

  /** The t-1 heaviest others, as a set. */
  function HeaviestOthers(order: seq<int>, i: nat, t: nat): set<int>
    requires i < |order| && 2 <= t <= |order|
  {
    if i < t then First(order, t) - {order[i]} else First(order, t - 1)
  }

  lemma {:induction false} FirstSize(order: seq<int>, k: nat)
    requires Distinct(order) && k <= |order|
    ensures |First(order, k)| == k
  {
    if k > 0 {
      FirstSize(order, k - 1);
      FirstFresh(order, k - 1);
    }
  }

  lemma FirstInIds(order: seq<int>, n: nat, k: nat)
    requires Permutation(order, n) && k <= n
    ensures First(order, k) <= Ids(n)
  {
    forall id | id in First(order, k)
      ensures id in Ids(n)
    {
      InFirst(order, k, id);
    }
  }

  lemma TopWithout(w: map<int, real>, order: seq<int>, scheme: seq<real>, i: nat, t: nat, f: set<int>)
    requires RankedBy(w, order, scheme) && i < t <= |scheme| && f == First(order, t) - {order[i]}
    ensures f <= Ids(|scheme|) - {order[i]} && |f| == t - 1
    ensures Weigh(w, f, |scheme|) == TopSum(scheme, t) - scheme[i]
  {
    FirstInIds(order, |scheme|, t);
    FirstSize(order, t);
    InFirst(order, t, order[i]);
    FirstWeighTop(w, order, scheme, t);
    RankLookup(w, order, scheme, i);
    WeighInsert(w, f, order[i], |scheme|);
    assert f + {order[i]} == First(order, t);
  }

  lemma TopBelow(w: map<int, real>, order: seq<int>, scheme: seq<real>, i: nat, k: nat)
    requires RankedBy(w, order, scheme) && k <= i < |scheme|
    ensures First(order, k) <= Ids(|scheme|) - {order[i]} && |First(order, k)| == k
    ensures Weigh(w, First(order, k), |scheme|) == TopSum(scheme, k)
  {
    FirstInIds(order, |scheme|, k);
    FirstSize(order, k);
    InFirst(order, k, order[i]);
    FirstWeighTop(w, order, scheme, k);
  }

  lemma HeaviestOthersWeigh(w: map<int, real>, order: seq<int>, scheme: seq<real>, i: nat, t: nat)
    requires RankedBy(w, order, scheme) && Decreasing(scheme) && i < |scheme| && 2 <= t <= |scheme|
    ensures HeaviestOthers(order, i, t) <= Ids(|scheme|) - {order[i]} && |HeaviestOthers(order, i, t)| == t - 1
    ensures Weigh(w, HeaviestOthers(order, i, t), |scheme|) == TopOthers(scheme, scheme[i], t)
  {
    if i < t {
      TopWithout(w, order, scheme, i, t, HeaviestOthers(order, i, t));
    } else {
      TopBelow(w, order, scheme, i, t - 1);
    }
  }

  lemma ManyPassAtRank(scheme: seq<real>, order: seq<int>, i: nat, t: nat, majority: real, w: map<int, real>,
                       base: real)
    requires Sound(scheme, t, majority) && RankedBy(w, order, scheme) && i < |scheme|
    ensures (forall f :: Passing(|scheme|, order[i], w, base, majority, f) ==> |f| >= t)
       <==> Guarded(scheme, scheme[i], t, base, majority)
  {
    var n, leader := |scheme|, order[i];
    if Guarded(scheme, scheme[i], t, base, majority) {
      forall f | Passing(n, leader, w, base, majority, f)
        ensures |f| >= t
      {
        if 2 <= t && |f| < t {
          FewOthersWeigh(w, order, scheme, i, t, f);
        }
      }
    } else {
      HeaviestOthersWeigh(w, order, scheme, i, t);
      assert Passing(n, leader, w, base, majority, HeaviestOthers(order, i, t));
    }
  }

  /** Under a ranking it takes t followers to pass if and only if the guard holds. */
  lemma ManyPassIffGuarded(scheme: seq<real>, order: seq<int>, t: nat, majority: real, leader: int,
                           w: map<int, real>, base: real)
    requires Sound(scheme, t, majority) && RankedBy(w, order, scheme) && 0 <= leader < |scheme|
    ensures (forall f :: Passing(|scheme|, leader, w, base, majority, f) ==> |f| >= t)
       <==> Guarded(scheme, Lookup(w, leader), t, base, majority)
  {
    assert leader in order;
    var i :| 0 <= i < |order| && order[i] == leader;
    RankLookup(w, order, scheme, i);
    ManyPassAtRank(scheme, order, i, t, majority, w, base);
  }

  /** Every count that exits has at least t+1 nodes if and only if the guard holds: one comparison before
      the round. */
  lemma LargeExitExact(scheme: seq<real>, order: seq<int>, t: nat, majority: real, leader: int,
                       w: map<int, real>, base: real)
    requires Sound(scheme, t, majority) && RankedBy(w, order, scheme) && 0 <= leader < |scheme|
    ensures (forall r :: Exit(|scheme|, leader, w, base, majority, r) ==> |Counted(leader, r)| >= t + 1)
       <==> Guarded(scheme, Lookup(w, leader), t, base, majority)
  {
    LargeExitIffManyPass(|scheme|, leader, w, base, majority, t);
    ManyPassIffGuarded(scheme, order, t, majority, leader, w, base);
  }

  /** The first round of a leader elected with this PrioVal: on the initial map its own entry is scheme[id]. */
  lemma FirstRoundExact(scheme: seq<real>, t: nat, majority: real, leader: nat, base: real)
    requires Sound(scheme, t, majority) && leader < |scheme|
    ensures (forall r :: Exit(|scheme|, leader, InitialWeights(scheme), base, majority, r) ==>
               |Counted(leader, r)| >= t + 1)
       <==> Guarded(scheme, scheme[leader], t, base, majority)
  {
    InitialIsRanked(scheme);
    FirstRoundAt(scheme, t, majority, leader, base, InitialWeights(scheme), Identity(|scheme|));
  }

  lemma FirstRoundAt(scheme: seq<real>, t: nat, majority: real, leader: nat, base: real, w: map<int, real>,
                     order: seq<int>)
    requires Sound(scheme, t, majority) && leader < |scheme| && RankedBy(w, order, scheme) && order[leader] == leader
    ensures (forall r :: Exit(|scheme|, leader, w, base, majority, r) ==> |Counted(leader, r)| >= t + 1)
       <==> Guarded(scheme, scheme[leader], t, base, majority)
  {
    RankLookup(w, order, scheme, leader);
    LargeExitExact(scheme, order, t, majority, leader, w, base);
  }

  // ---- Where the conditions hold ----

  /** No set misleads a leader that does not overstate its own weight. */
  lemma HonestLeader(n: nat, leader: int, w: map<int, real>, base: real, majority: real, f: set<int>)
    requires base <= Lookup(w, leader)
    ensures !Misleading(n, leader, w, base, majority, f)
  {
  }

  /** And under a ranking it then takes t followers to pass. */
  lemma HonestNeedsMany(scheme: seq<real>, order: seq<int>, t: nat, majority: real, leader: int,
                        w: map<int, real>, base: real, f: set<int>)
    requires Sound(scheme, t, majority) && RankedBy(w, order, scheme) && 0 <= leader < |scheme|
    requires base <= Lookup(w, leader) && Passing(|scheme|, leader, w, base, majority, f)
    ensures |f| >= t
  {
    WeighInsert(w, f, leader, |scheme|);
    QuorumIsLarge(w, order, scheme, t, majority, f + {leader});
  }

  /** Nor any leader, when two nodes are always enough: three nodes as deployed. */
  lemma TwoAreEnough(scheme: seq<real>, order: seq<int>, t: nat, majority: real, leader: int,
                     w: map<int, real>, base: real, f: set<int>)
    requires Sound(scheme, t, majority) && RankedBy(w, order, scheme) && 0 <= leader < |scheme| <= t + 2
    ensures !Misleading(|scheme|, leader, w, base, majority, f)
  {
    var n := |scheme|;
    if Misleading(n, leader, w, base, majority, f) {
      var id :| id in f;
      SubsetCount({leader, id}, f + {leader});
      ManyAreQuorum(w, order, scheme, t, majority, f + {leader});
      WeighInsert(w, f, leader, n);
    }
  }

  lemma RankedIsNonNegative(w: map<int, real>, order: seq<int>, scheme: seq<real>, t: nat, majority: real)
    requires RankedBy(w, order, scheme) && Sound(scheme, t, majority)
    ensures NonNegative(w)
  {
    forall id | id in w
      ensures w[id] >= 0.0
    {
      assert id in Ids(|scheme|) && id in order;
      var i :| 0 <= i < |order| && order[i] == id;
      RankLookup(w, order, scheme, i);
    }
  }
}
