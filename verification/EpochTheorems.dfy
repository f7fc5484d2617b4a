/** What an epoch promises: quorums, tolerance, acknowledged writes and queues that never block. */
module EpochTheorems {
  import opened Weights
  import opened PriorityManagers
  import opened JobQueue
  import opened Rounds
  import opened Epochs
  import opened Miscounts
  import opened EpochInvariants

  // ---- The weights of every clock ----

  /** The re-ranking into clock k succeeded: the leader id it read was a node's that had not replied. */
  predicate Ranked(cfg: Config, s: Epoch, k: nat)
    requires k <= |s.rankIds| && k <= |s.rounds|
  {
    k > 0 ==> 0 <= s.rankIds[k - 1] < cfg.n && s.rankIds[k - 1] !in s.rounds[k - 1].queue
  }

  /** The weights of a ranked clock: the id it was ranked for, then the previous round's replies in order. */
  lemma RankingOf(cfg: Config, s: Epoch, k: nat) returns (order: seq<int>)
    requires ValidConfig(cfg) && EpochInv(cfg, s) && k <= s.clock && Ranked(cfg, s, k)
    ensures RankedBy(s.weights[k], order, cfg.scheme)
    ensures k == 0 ==> order == Identity(cfg.n)
    ensures k > 0 ==> order[0] == s.rankIds[k - 1] && [s.rankIds[k - 1]] + s.rounds[k - 1].queue <= order
  {
    if k == 0 {
      InitialIsRanked(cfg.scheme);
      order := Identity(cfg.n);
    } else {
      order := RankingAfter(cfg, s, k - 1);
    }
  }

  lemma RankingAfter(cfg: Config, s: Epoch, k: nat) returns (order: seq<int>)
    requires ValidConfig(cfg) && EpochInv(cfg, s) && k < s.clock && Ranked(cfg, s, k + 1)
    ensures RankedBy(s.weights[k + 1], order, cfg.scheme)
    ensures order[0] == s.rankIds[k] && [s.rankIds[k]] + s.rounds[k].queue <= order
  {
    assert RankedAfter(cfg, s, k);
    var queue, id, w := s.rounds[k].queue, s.rankIds[k], s.weights[k + 1];
    assert Reranked(cfg, queue, id, w);
    var rest :| Reranks(cfg, queue, id, rest, w);
    RerankSucceedsIff(cfg, s, k, id);
    RepliesAdmissible(cfg, s, k);
    RedistributedIsRanked(cfg.scheme, cfg.n, queue, id, rest, w);
    order := NewOrder(id, queue, rest);
  }

  /** A clock whose re-ranking failed has no weights. */
  lemma UnrankedIsEmpty(cfg: Config, s: Epoch, k: nat)
    requires ValidConfig(cfg) && EpochInv(cfg, s) && k <= s.clock && !Ranked(cfg, s, k)
    ensures s.weights[k] == map[]
  {
    UnrankedAfter(cfg, s, k - 1);
  }

  lemma UnrankedAfter(cfg: Config, s: Epoch, k: nat)
    requires ValidConfig(cfg) && EpochInv(cfg, s) && k < s.clock
    requires !(0 <= s.rankIds[k] < cfg.n && s.rankIds[k] !in s.rounds[k].queue)
    ensures s.weights[k + 1] == map[]
  {
    assert RankedAfter(cfg, s, k);
    assert Reranked(cfg, s.rounds[k].queue, s.rankIds[k], s.weights[k + 1]);
    RerankSucceedsIff(cfg, s, k, s.rankIds[k]);
  }

  lemma WeightsNonNegative(cfg: Config, s: Epoch, k: nat)
    requires ValidConfig(cfg) && EpochInv(cfg, s) && k <= s.clock
    ensures NonNegative(s.weights[k])
  {
    if Ranked(cfg, s, k) {
      var order := RankingOf(cfg, s, k);
      RankedIsNonNegative(s.weights[k], order, cfg.scheme, cfg.t, cfg.majority);
    } else {
      UnrankedIsEmpty(cfg, s, k);
    }
  }

  /** The leader holds the heaviest weight in clock k's map: node 0 at first, and later whoever read its
      own id when it re-ranked into that clock. */
  predicate OwnsTopWeight(cfg: Config, s: Epoch, k: nat)
    requires k <= |s.rankIds|
  {
    if k == 0 then cfg.leader == 0 else s.rankIds[k - 1] == cfg.leader
  }

  /** Undisturbed it does so at every clock. */
  lemma AloneOwnsTopWeight(cfg: Config, s: Epoch, k: nat)
    requires ValidConfig(cfg) && cfg.alone && EpochInv(cfg, s) && k <= s.clock
    ensures OwnsTopWeight(cfg, s, k)
  {
  }

  lemma OwnIsRanked(cfg: Config, s: Epoch, k: nat)
    requires ValidConfig(cfg) && EpochInv(cfg, s) && k <= s.clock && OwnsTopWeight(cfg, s, k)
    ensures Ranked(cfg, s, k)
  {
    if k > 0 {
      RerankSucceedsIff(cfg, s, k - 1, cfg.leader);
    }
  }

  lemma LeaderWeight(cfg: Config, s: Epoch, k: nat)
    requires ValidConfig(cfg) && EpochInv(cfg, s) && k <= s.clock && OwnsTopWeight(cfg, s, k)
    ensures Lookup(s.weights[k], cfg.leader) == cfg.scheme[0]
  {
    OwnIsRanked(cfg, s, k);
    var order := RankingOf(cfg, s, k);
    RankLookup(s.weights[k], order, cfg.scheme, 0);
  }

  /** At every ranked clock: twice the majority in all, quorums have t+1 members and any two of them meet. */
  lemma QuorumsAtEveryClock(cfg: Config, s: Epoch, k: nat, p: set<int>, q: set<int>)
    requires ValidConfig(cfg) && Reachable(cfg, s) && k <= s.clock && k < |s.weights|
    requires Quorum(s.weights[k], p, cfg.n, cfg.majority) && Quorum(s.weights[k], q, cfg.n, cfg.majority)
    ensures |p| >= cfg.t + 1 && |q| >= cfg.t + 1 && p * q != {}
    ensures Weigh(s.weights[k], Ids(cfg.n), cfg.n) == 2.0 * cfg.majority
  {
    ReachableInv(cfg, s);
    QuorumMeansRanked(cfg, s, k, p);
    var order := RankingOf(cfg, s, k);
    QuorumIsLarge(s.weights[k], order, cfg.scheme, cfg.t, cfg.majority, p);
    QuorumIsLarge(s.weights[k], order, cfg.scheme, cfg.t, cfg.majority, q);
    QuorumsIntersect(s.weights[k], order, cfg.scheme, cfg.t, cfg.majority, p, q);
    TotalWeight(s.weights[k], order, cfg.scheme, cfg.t, cfg.majority);
  }

  /** Without a map nobody is a quorum, so where there is one the clock was ranked. */
  lemma QuorumMeansRanked(cfg: Config, s: Epoch, k: nat, p: set<int>)
    requires ValidConfig(cfg) && EpochInv(cfg, s) && k <= s.clock
    requires Quorum(s.weights[k], p, cfg.n, cfg.majority)
    ensures Ranked(cfg, s, k)
  {
    if !Ranked(cfg, s, k) {
      UnrankedIsEmpty(cfg, s, k);
      NothingWeighsNothing(p, cfg.n);
      TopSumMono(cfg.scheme, 0, cfg.t);
    }
  }

  /** Worst case: at every ranked clock, and only there, any n-t nodes weigh more than the majority. */
  lemma WorstCaseTolerance(cfg: Config, s: Epoch, k: nat)
    requires ValidConfig(cfg) && Reachable(cfg, s) && k <= s.clock < |s.weights| && k <= |s.rankIds| && k <= |s.rounds|
    ensures (forall p :: p <= Ids(cfg.n) && |p| >= cfg.n - cfg.t ==> Quorum(s.weights[k], p, cfg.n, cfg.majority))
       <==> Ranked(cfg, s, k)
  {
    ReachableInv(cfg, s);
    if Ranked(cfg, s, k) {
      var order := RankingOf(cfg, s, k);
      forall p | p <= Ids(cfg.n) && |p| >= cfg.n - cfg.t
        ensures Quorum(s.weights[k], p, cfg.n, cfg.majority)
      {
        ManyAreQuorum(s.weights[k], order, cfg.scheme, cfg.t, cfg.majority, p);
      }
    } else {
      UnrankedIsEmpty(cfg, s, k);
      NothingWeighsNothing(Ids(cfg.n), cfg.n);
      TopSumMono(cfg.scheme, 0, cfg.t);
      assert !Quorum(s.weights[k], Ids(cfg.n), cfg.n, cfg.majority);
    }
  }

  lemma {:induction false} FirstOfConcat(leader: int, queue: seq<int>, order: seq<int>, k: nat)
    requires [leader] + queue <= order && k <= |queue|
    ensures First(order, k + 1) == {leader} + First(queue, k)
  {
    if k == 0 {
      assert order[0] == ([leader] + queue)[0];
      assert First(order, 1) == First(order, 0) + {leader};
    } else {
      FirstOfConcat(leader, queue, order, k - 1);
      assert order[k] == ([leader] + queue)[k];
    }
  }

  /** Best case: when t followers replied in a round, the node it was re-ranked for, as a rule the leader,
      and the first t of them are a quorum of the next, so all other nodes may fail. */
  lemma BestCaseTolerance(cfg: Config, s: Epoch, k: nat)
    requires ValidConfig(cfg) && Reachable(cfg, s) && k < s.clock && s.clock <= |s.rounds|
    requires s.clock < |s.weights| && s.clock <= |s.rankIds|
    requires Ranked(cfg, s, k + 1) && |s.rounds[k].queue| >= cfg.t
    ensures Quorum(s.weights[k + 1], {s.rankIds[k]} + First(s.rounds[k].queue, cfg.t), cfg.n, cfg.majority)
  {
    ReachableInv(cfg, s);
    RepliersAreNextQuorum(cfg, s, k);
  }

  lemma RepliersAreNextQuorum(cfg: Config, s: Epoch, k: nat)
    requires ValidConfig(cfg) && EpochInv(cfg, s) && k < s.clock
    requires Ranked(cfg, s, k + 1) && |s.rounds[k].queue| >= cfg.t
    ensures Quorum(s.weights[k + 1], {s.rankIds[k]} + First(s.rounds[k].queue, cfg.t), cfg.n, cfg.majority)
  {
    var order := RankingOf(cfg, s, k + 1);
    FirstRepliersAreQuorum(cfg, s.weights[k + 1], order, s.rankIds[k], s.rounds[k].queue);
  }

  lemma FirstRepliersAreQuorum(cfg: Config, w: map<int, real>, order: seq<int>, id: int, queue: seq<int>)
    requires ValidConfig(cfg) && RankedBy(w, order, cfg.scheme) && [id] + queue <= order && |queue| >= cfg.t
    ensures Quorum(w, {id} + First(queue, cfg.t), cfg.n, cfg.majority)
  {
    FirstOfConcat(id, queue, order, cfg.t);
    TopRankedAreQuorum(w, order, cfg.scheme, cfg.t, cfg.majority);
  }

  // ---- The count of a round ----

  /** The leader with the first j followers whose replies the wait loop weighed. */
  function Heard(cfg: Config, r: Round, j: nat): set<int>
    requires j <= |r.queue|
  {
    {cfg.leader} + First(r.queue, j)
  }

  /** The set heard has one node per reply and the leader, and weighs the leader's own weight more. */
  lemma HeardWeighs(cfg: Config, s: Epoch, k: nat, j: nat)
    requires ValidConfig(cfg) && EpochInv(cfg, s) && k < |s.rounds| && k <= s.clock
    requires j <= |s.rounds[k].queue|
    ensures var p := Heard(cfg, s.rounds[k], j);
      && p <= Ids(cfg.n) && |p| == j + 1
      && Weigh(s.weights[k], p, cfg.n) == Lookup(s.weights[k], cfg.leader)
          + RunningSum(s.weights[k], s.rounds[k].queue, j)
  {
    var q := s.rounds[k].queue;
    RepliesAdmissible(cfg, s, k);
    forall id | id in First(q, j)
      ensures 0 <= id < cfg.n && id != cfg.leader
    {
      InFirst(q, j, id);
    }
    FirstSize(q, j);
    RunningSumIsWeigh(s.weights[k], q, j, cfg.n);
    WeighInsert(s.weights[k], First(q, j), cfg.leader, cfg.n);
    assert First(q, j) + {cfg.leader} == {cfg.leader} + First(q, j);
  }

  /** Every round that was not timed out is an exit in the sense of the exact conditions on counts. */
  lemma RoundIsExit(cfg: Config, s: Epoch, k: nat)
    requires ValidConfig(cfg) && EpochInv(cfg, s) && k < |s.replies| && s.replies[k] != Timeout
    ensures Exit(cfg.n, cfg.leader, s.weights[k], s.rounds[k].base, cfg.majority, s.rounds[k])
  {
    assert RoundOk(cfg, s, k);
    RepliesAdmissible(cfg, s, k);
  }

  /** No set of followers could mislead the count of this round. */
  ghost predicate Trusted(cfg: Config, r: Round) {
    !exists f :: Misleading(cfg.n, cfg.leader, r.weights, r.base, cfg.majority, f)
  }

  /** The leader's PrioVal and the t-1 heaviest other nodes do not pass the majority at this clock, if it has
      a map at all: one comparison of numbers the leader holds before the round. */
  predicate NeedsMany(cfg: Config, s: Epoch, k: nat)
    requires k < |s.rounds| && k <= |s.rankIds| && cfg.t <= |cfg.scheme|
  {
    Ranked(cfg, s, k) ==>
      Guarded(cfg.scheme, Lookup(s.rounds[k].weights, cfg.leader), cfg.t, s.rounds[k].base, cfg.majority)
  }

  /** Exactly then no fewer than t followers can push the sum of the round over the majority. */
  lemma NeedsManyExact(cfg: Config, s: Epoch, k: nat)
    requires ValidConfig(cfg) && EpochInv(cfg, s) && k < |s.rounds|
    ensures (forall f :: Passing(cfg.n, cfg.leader, s.rounds[k].weights, s.rounds[k].base, cfg.majority, f) ==>
               |f| >= cfg.t)
       <==> NeedsMany(cfg, s, k)
  {
    assert RoundOk(cfg, s, k);
    if Ranked(cfg, s, k) {
      var order := RankingOf(cfg, s, k);
      ManyPassIffGuarded(cfg.scheme, order, cfg.t, cfg.majority, cfg.leader, s.weights[k], s.rounds[k].base);
    } else {
      UnrankedIsEmpty(cfg, s, k);
      if cfg.t > 0 {
        NothingPasses(cfg, s.rounds[k].base);
      }
    }
  }

  /** Without a map nothing passes, unless the tolerance is 0. */
  lemma NothingPasses(cfg: Config, base: real)
    requires ValidConfig(cfg) && cfg.t > 0 && base <= cfg.scheme[0]
    ensures forall f :: !Passing(cfg.n, cfg.leader, map[], base, cfg.majority, f)
  {
    TopSumMono(cfg.scheme, 1, cfg.t);
    assert TopSum(cfg.scheme, 1) == TopSum(cfg.scheme, 0) + cfg.scheme[0];
    forall f
      ensures !Passing(cfg.n, cfg.leader, map[], base, cfg.majority, f)
    {
      NothingWeighsNothing(f, cfg.n);
    }
  }

  /** In every run these conditions decide of each round whether every exit its weights allow is a weighted
      quorum, and whether every one has t+1 nodes. */
  lemma TrustIsExact(cfg: Config, s: Epoch, k: nat)
    requires ValidConfig(cfg) && Reachable(cfg, s) && k < |s.rounds| && k <= |s.rankIds|
    ensures (forall r :: Exit(cfg.n, cfg.leader, s.rounds[k].weights, s.rounds[k].base, cfg.majority, r) ==>
               Quorum(s.rounds[k].weights, Counted(cfg.leader, r), cfg.n, cfg.majority))
       <==> Trusted(cfg, s.rounds[k])
    ensures (forall r :: Exit(cfg.n, cfg.leader, s.rounds[k].weights, s.rounds[k].base, cfg.majority, r) ==>
               |Counted(cfg.leader, r)| >= cfg.t + 1)
       <==> NeedsMany(cfg, s, k)
  {
    ReachableInv(cfg, s);
    assert RoundOk(cfg, s, k);
    WeightsNonNegative(cfg, s, k);
    QuorumExitExact(cfg.n, cfg.leader, s.rounds[k].weights, s.rounds[k].base, cfg.majority);
    LargeExitIffManyPass(cfg.n, cfg.leader, s.rounds[k].weights, s.rounds[k].base, cfg.majority, cfg.t);
    NeedsManyExact(cfg, s, k);
  }

  /** Both hold wherever the leader has the heaviest weight. */
  lemma TopWeightIsTrusted(cfg: Config, s: Epoch, k: nat)
    requires ValidConfig(cfg) && EpochInv(cfg, s) && k < |s.rounds| && k <= s.clock && OwnsTopWeight(cfg, s, k)
    ensures Trusted(cfg, s.rounds[k]) && NeedsMany(cfg, s, k)
  {
    assert RoundOk(cfg, s, k);
    LeaderWeight(cfg, s, k);
    OwnIsRanked(cfg, s, k);
    var order := RankingOf(cfg, s, k);
    forall f | Passing(cfg.n, cfg.leader, s.rounds[k].weights, s.rounds[k].base, cfg.majority, f)
      ensures |f| >= cfg.t
    {
      HonestNeedsMany(cfg.scheme, order, cfg.t, cfg.majority, cfg.leader, s.weights[k], s.rounds[k].base, f);
    }
    NeedsManyExact(cfg, s, k);
  }

  /** A trusted round that exited was answered by a weighted quorum; nothing weaker will do
      (Miscounts.QuorumExitExact). */
  lemma QuorumExitIsQuorum(cfg: Config, s: Epoch, k: nat)
    requires ValidConfig(cfg) && EpochInv(cfg, s) && k < |s.replies| && s.replies[k] != Timeout
    requires Trusted(cfg, s.rounds[k])
    ensures s.rounds[k].counted <= |s.rounds[k].queue|
    ensures Quorum(s.weights[k], Heard(cfg, s.rounds[k], s.rounds[k].counted), cfg.n, cfg.majority)
  {
    assert RoundOk(cfg, s, k);
    RoundIsExit(cfg, s, k);
    ExitIsPassing(cfg.n, cfg.leader, s.weights[k], s.rounds[k].base, cfg.majority, s.rounds[k]);
    assert !Misleading(cfg.n, cfg.leader, s.rounds[k].weights, s.rounds[k].base, cfg.majority,
                       First(s.rounds[k].queue, s.rounds[k].counted));
  }

  /** With a tolerance of at least one, the last reply was needed: without it there was no quorum. */
  lemma LastArrivalDecides(cfg: Config, s: Epoch, k: nat)
    requires ValidConfig(cfg) && Reachable(cfg, s) && cfg.alone && cfg.t >= 1
    requires k < |s.replies| && k < |s.rounds| && s.replies[k] != Timeout
    ensures var r := s.rounds[k];
      && 0 < r.counted <= |r.queue|
      && r.prioSum == Weigh(r.weights, Heard(cfg, r, r.counted), cfg.n) > cfg.majority
      && Weigh(r.weights, Heard(cfg, r, r.counted - 1), cfg.n) <= cfg.majority
      && (forall f :: f in First(r.queue, r.counted) ==> 0 <= f < |s.docks| && At(s.docks[f], k, Finished(true)))
  {
    ReachableInv(cfg, s);
    SumIsWeight(cfg, s, k);
    WithoutLastNoQuorum(cfg, s, k);
    forall f | f in First(s.rounds[k].queue, s.rounds[k].counted)
      ensures 0 <= f < |s.docks| && At(s.docks[f], k, Finished(true))
    {
      CountedSucceeded(cfg, s, k, f);
    }
  }

  lemma SumIsWeight(cfg: Config, s: Epoch, k: nat)
    requires ValidConfig(cfg) && EpochInv(cfg, s) && cfg.alone
    requires k < |s.replies| && k < |s.rounds| && s.replies[k] != Timeout
    ensures var r := s.rounds[k];
      && 0 < r.counted <= |r.queue|
      && r.prioSum == Weigh(r.weights, Heard(cfg, r, r.counted), cfg.n) > cfg.majority
  {
    assert RoundOk(cfg, s, k);
    AloneOwnsTopWeight(cfg, s, k);
    LeaderWeight(cfg, s, k);
    HeardWeighs(cfg, s, k, s.rounds[k].counted);
  }

  lemma WithoutLastNoQuorum(cfg: Config, s: Epoch, k: nat)
    requires ValidConfig(cfg) && EpochInv(cfg, s) && cfg.alone && cfg.t >= 1
    requires k < |s.replies| && k < |s.rounds| && s.replies[k] != Timeout
    requires 0 < s.rounds[k].counted <= |s.rounds[k].queue|
    ensures var r := s.rounds[k]; Weigh(r.weights, Heard(cfg, r, r.counted - 1), cfg.n) <= cfg.majority
  {
    assert RoundOk(cfg, s, k);
    var r := s.rounds[k];
    AloneOwnsTopWeight(cfg, s, k);
    HeardWeighs(cfg, s, k, r.counted - 1);
    if r.counted == 1 {
      OwnIsRanked(cfg, s, k);
      var order := RankingOf(cfg, s, k);
      FewAreNoQuorum(s.weights[k], order, cfg.scheme, cfg.t, cfg.majority, Heard(cfg, r, 0));
    } else {
      LeaderWeight(cfg, s, k);
    }
  }

  /** A reply counted is a follower whose handler succeeded in this very round. */
  lemma CountedSucceeded(cfg: Config, s: Epoch, k: nat, f: int)
    requires ValidConfig(cfg) && EpochInv(cfg, s) && k < |s.rounds|
    requires s.rounds[k].counted <= |s.rounds[k].queue| && f in First(s.rounds[k].queue, s.rounds[k].counted)
    ensures 0 <= f < cfg.n && At(s.docks[f], k, Finished(true))
    ensures k in s.docks[f].outcome && s.docks[f].outcome[k]
  {
    var r := s.rounds[k];
    InFirst(r.queue, r.counted, f);
    var i :| 0 <= i < r.counted && r.queue[i] == f;
    assert Arrivals(r)[i] == f;
    assert f in Arrivals(r);
    assert ArrivalsOk(cfg, s, k);
  }

  /** While a round gathers or has timed out, fewer than n-t-1 followers were heard in time. */
  lemma TimeoutMeansManySilent(cfg: Config, s: Epoch, k: nat)
    requires ValidConfig(cfg) && Reachable(cfg, s) && cfg.alone && cfg.t >= 1
    requires k < |s.rounds|
    requires s.rounds[k].status.Gathering? || s.rounds[k].status.Expired? || s.rounds[k].status.TimedOut?
    ensures var r := s.rounds[k];
      && r.counted <= |r.queue|
      && Weigh(r.weights, Heard(cfg, r, r.counted), cfg.n) <= cfg.majority
      && r.counted < cfg.n - cfg.t - 1
  {
    ReachableInv(cfg, s);
    assert RoundOk(cfg, s, k);
    var r := s.rounds[k];
    AloneOwnsTopWeight(cfg, s, k);
    OwnIsRanked(cfg, s, k);
    var order := RankingOf(cfg, s, k);
    LeaderWeight(cfg, s, k);
    HeardWeighs(cfg, s, k, r.counted);
    if r.counted == 0 {
      FewAreNoQuorum(s.weights[k], order, cfg.scheme, cfg.t, cfg.majority, Heard(cfg, r, 0));
    }
    if r.counted >= cfg.n - cfg.t - 1 {
      ManyAreQuorum(s.weights[k], order, cfg.scheme, cfg.t, cfg.majority, Heard(cfg, r, r.counted));
    }
  }

  // ---- Acknowledged writes ----

  /** Node f has run the command of round k successfully. */
  predicate Ran(cfg: Config, s: Epoch, k: nat, f: int) {
    && 0 <= f < |s.docks| && k < |s.rounds|
    && if f == cfg.leader then s.rounds[k].status.Committed? else k in s.docks[f].outcome && s.docks[f].outcome[k]
  }

  function Holders(cfg: Config, s: Epoch, k: nat): set<int> {
    set f | f in Ids(cfg.n) && Ran(cfg, s, k, f)
  }

  /** An acknowledged command was run by at least t+1 nodes, wherever the guard on the round's numbers holds;
      nothing weaker will do (TrustIsExact). */
  lemma AcknowledgedIsHeld(cfg: Config, s: Epoch, k: nat)
    requires ValidConfig(cfg) && Reachable(cfg, s)
    requires k < |s.replies| && k < |s.rounds| && k <= |s.rankIds| && s.replies[k] == Ok && NeedsMany(cfg, s, k)
    ensures cfg.leader in Holders(cfg, s, k)
    ensures |Holders(cfg, s, k)| >= cfg.t + 1
  {
    ReachableInv(cfg, s);
    RoundIsExit(cfg, s, k);
    NeedsManyExact(cfg, s, k);
    CountedAreHolders(cfg, s, k);
    assert RoundOk(cfg, s, k);
    ExitIsPassing(cfg.n, cfg.leader, s.weights[k], s.rounds[k].base, cfg.majority, s.rounds[k]);
    SubsetCount(Counted(cfg.leader, s.rounds[k]), Holders(cfg, s, k));
  }

  /** The nodes counted have run the command of an acknowledged round. */
  lemma CountedAreHolders(cfg: Config, s: Epoch, k: nat)
    requires ValidConfig(cfg) && EpochInv(cfg, s) && k < |s.replies| && s.replies[k] == Ok
    ensures s.rounds[k].counted <= |s.rounds[k].queue|
    ensures cfg.leader in Holders(cfg, s, k) && Counted(cfg.leader, s.rounds[k]) <= Holders(cfg, s, k)
  {
    assert RoundOk(cfg, s, k);
    forall f | f in Counted(cfg.leader, s.rounds[k])
      ensures f in Holders(cfg, s, k)
    {
      if f != cfg.leader {
        CountedSucceeded(cfg, s, k, f);
      }
    }
  }

  /** In particular at every clock at which the leader holds the heaviest weight. */
  lemma AcknowledgedByTopWeight(cfg: Config, s: Epoch, k: nat)
    requires ValidConfig(cfg) && Reachable(cfg, s) && k <= |s.rankIds| && OwnsTopWeight(cfg, s, k)
    requires k < |s.replies| && s.replies[k] == Ok
    ensures |Holders(cfg, s, k)| >= cfg.t + 1
  {
    ReachableInv(cfg, s);
    TopWeightIsTrusted(cfg, s, k);
    AcknowledgedIsHeld(cfg, s, k);
  }

  /** Any t+1 nodes and any n-t nodes share one. */
  lemma LargeSetsMeet(n: nat, p: set<int>, q: set<int>)
    requires p <= Ids(n) && q <= Ids(n) && |p| + |q| > n
    ensures p * q != {}
  {
    if p * q == {} {
      assert forall id :: id in p ==> id !in p * q;
      assert p !! q;
      SubsetCount(p + q, Ids(n));
    }
  }

  /** Every acknowledged write is held by a member of every set of n-t nodes. */
  lemma AcknowledgedMeetsElectionQuorum(cfg: Config, s: Epoch, k: nat, voters: set<int>)
    requires ValidConfig(cfg) && Reachable(cfg, s)
    requires k < |s.replies| && k < |s.rounds| && k <= |s.rankIds| && s.replies[k] == Ok && NeedsMany(cfg, s, k)
    requires voters <= Ids(cfg.n) && |voters| >= cfg.n - cfg.t
    ensures exists f :: f in voters && Ran(cfg, s, k, f)
  {
    AcknowledgedIsHeld(cfg, s, k);
    LargeSetsMeet(cfg.n, Holders(cfg, s, k), voters);
    var f :| f in Holders(cfg, s, k) * voters;
    assert f in voters && Ran(cfg, s, k, f);
  }

  lemma TaskKeepsRan(cfg: Config, s: Epoch, f: nat, step: DockStep, k: nat, g: int)
    requires ValidConfig(cfg) && Shape(cfg, s) && TaskEnabled(cfg, s, f, step) && Ran(cfg, s, k, g)
    ensures Ran(cfg, ApplyTask(cfg, s, f, step), k, g)
  {
    TaskFrame(cfg, s, f, step);
    if g == f && g != cfg.leader {
      OutcomeKept(s.docks[f], step, k);
    }
  }

  lemma OtherStepKeepsRan(cfg: Config, s: Epoch, step: Step, k: nat, g: int)
    requires ValidConfig(cfg) && Shape(cfg, s) && Enabled(cfg, s, step) && !step.Task? && Ran(cfg, s, k, g)
    ensures Ran(cfg, Apply(cfg, s, step), k, g)
  {
  }

  /** What a node has run it has run for good. */
  lemma HoldersOnlyGrow(cfg: Config, s: Epoch, step: Step, k: nat)
    requires ValidConfig(cfg) && EpochInv(cfg, s) && Enabled(cfg, s, step)
    ensures Holders(cfg, s, k) <= Holders(cfg, Apply(cfg, s, step), k)
  {
    forall f | f in Holders(cfg, s, k)
      ensures Ran(cfg, Apply(cfg, s, step), k, f)
    {
      if step.Task? {
        TaskKeepsRan(cfg, s, step.f, step.step, k, f);
      } else {
        OtherStepKeepsRan(cfg, s, step, k, f);
      }
    }
  }

  // ---- Order ----

  /** Under every interleaving each follower is called for rounds 0, 1, 2, ... without a gap, runs them in
      that order, and a call starts only when all earlier ones have returned. */
  lemma CallsInOrderPerFollower(cfg: Config, s: Epoch, f: nat)
    requires ValidConfig(cfg) && Reachable(cfg, s) && f < |s.docks|
    ensures var d := s.docks[f];
      && |d.execs| <= |d.calls| <= |s.rounds|
      && (forall i :: 0 <= i < |d.calls| ==> d.calls[i] == i)
      && (forall i :: 0 <= i < |d.execs| ==> d.execs[i] == i)
      && (forall k, j: nat :: j < k && CanMove(d, DockStep.Start(k)) ==> Sent(d, j))
  {
    ReachableInv(cfg, s);
    var d := s.docks[f];
    forall k, j: nat | j < k && CanMove(d, DockStep.Start(k))
      ensures Sent(d, j)
    {
      StartsAfterAllEarlier(d, k, j);
    }
  }

  // ---- Bounded queues and replies ----

  predicate HasTask(s: Epoch, f: nat, k: nat) {
    f < |s.docks| && k < |s.docks[f].tasks|
  }

  /** The receiver and the priority queue of a round hold at most n-1 replies between them, late ones
      included, against a capacity of n each. */
  lemma ChannelsHaveRoom(cfg: Config, s: Epoch, k: nat)
    requires ValidConfig(cfg) && Reachable(cfg, s) && k < |s.rounds|
    ensures |s.rounds[k].inbox| + |s.rounds[k].queue| <= cfg.n - 1
  {
    ReachableInv(cfg, s);
    RepliesAdmissible(cfg, s, k);
  }

  /** So a task never blocks on its token, sent under the lock, or on its delivery, however late. */
  lemma TaskNeverBlocks(cfg: Config, s: Epoch, f: nat, k: nat)
    requires ValidConfig(cfg) && EpochInv(cfg, s) && k < |s.rounds| && HasTask(s, f, k)
    ensures s.docks[f].tasks[k].Signalled? ==> TaskEnabled(cfg, s, f, Deliver(k))
    ensures s.docks[f].tasks[k].Returned? ==> TaskEnabled(cfg, s, f, Signal(k))
  {
    if s.docks[f].tasks[k].Signalled? {
      DeliveryHasRoom(cfg, s, f, k);
    }
    if s.docks[f].tasks[k].Returned? {
      TokenHasRoom(cfg, s, f, k);
    }
  }

  lemma DeliveryHasRoom(cfg: Config, s: Epoch, f: nat, k: nat)
    requires ValidConfig(cfg) && EpochInv(cfg, s) && k < |s.rounds| && HasTask(s, f, k)
    requires s.docks[f].tasks[k].Signalled?
    ensures TaskEnabled(cfg, s, f, Deliver(k))
  {
    RepliesAdmissible(cfg, s, k);
  }

  lemma TokenHasRoom(cfg: Config, s: Epoch, f: nat, k: nat)
    requires ValidConfig(cfg) && EpochInv(cfg, s) && HasTask(s, f, k) && s.docks[f].tasks[k].Returned?
    ensures TaskEnabled(cfg, s, f, Signal(k))
  {
    SignalNeverBlocks(s.docks[f], k);
  }

  /** Nor do the wait loop and the drain loop when they move a reply to the priority queue. */
  lemma LoopNeverBlocks(cfg: Config, s: Epoch)
    requires ValidConfig(cfg) && EpochInv(cfg, s) && Busy(s) && Current(s).inbox != []
    ensures Current(s).status.Gathering? ==> Enabled(cfg, s, Receive)
    ensures Settled(Current(s).status) ==> Enabled(cfg, s, Drain)
  {
    RepliesAdmissible(cfg, s, s.clock);
  }

  /** Commands are answered once each, in the order taken; only the round under way may be unanswered. */
  lemma OneReplyPerCommand(cfg: Config, s: Epoch)
    requires ValidConfig(cfg) && Reachable(cfg, s)
    ensures |s.replies| <= |s.rounds| <= |s.replies| + 1
    ensures forall k :: 0 <= k < |s.rounds| ==> (k < |s.replies| <==> Settled(s.rounds[k].status))
    ensures forall k :: 0 <= k < |s.replies| ==> s.replies[k] == ReplyOf(s.rounds[k].status)
  {
    ReachableInv(cfg, s);
    RepliesMatchRounds(cfg, s);
  }

  lemma RepliesMatchRounds(cfg: Config, s: Epoch)
    requires EpochInv(cfg, s)
    ensures |s.replies| <= |s.rounds| <= |s.replies| + 1
    ensures forall k :: 0 <= k < |s.rounds| ==> (k < |s.replies| <==> Settled(s.rounds[k].status))
    ensures forall k :: 0 <= k < |s.replies| ==> s.replies[k] == ReplyOf(s.rounds[k].status)
  {
    forall k | 0 <= k < s.clock
      ensures Settled(s.rounds[k].status)
    {
      assert RoundOk(cfg, s, k);
    }
  }
}
