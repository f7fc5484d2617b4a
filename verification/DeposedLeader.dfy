/** A deposed leader whose loop runs on: another leader's heartbeat has rewritten the leader id it ranks by. */
module DeposedLeaders {
  import opened Weights
  import opened PriorityManagers
  import opened KVStore
  import opened Rounds
  import opened Epochs
  import opened EpochInvariants
  import opened EpochTheorems
  import opened EpochRuns
  import opened EpochWitnesses
  import opened SevenNodes

  /** Node 0 leads with other leaders about, a tolerance of at least 3, and two of the heaviest weights with
      the next one pass the majority. */
  predicate Exposed(cfg: Config) {
    && ValidConfig(cfg) && !cfg.alone && cfg.leader == 0 && cfg.n >= 5 && cfg.t >= 3
    && 2.0 * cfg.scheme[0] + cfg.scheme[1] > cfg.majority
  }

  /** A map ranked for another node after only node 1 was heard. */
  predicate Usurped(cfg: Config, w: map<int, real>) {
    |cfg.scheme| > 1 && Lookup(w, 4) == cfg.scheme[0] && Lookup(w, 1) == cfg.scheme[1]
  }

  lemma RankFor4(cfg: Config) returns (rest: seq<int>, w: map<int, real>)
    requires Exposed(cfg)
    ensures Reranks(cfg, [1], 4, rest, w) && Usurped(cfg, w)
  {
    rest, w := SomeRanking(cfg, [1], 4);
    assert Lookup(w, [1][0]) == cfg.scheme[1];
  }

  /** After the first round: only node 1 was heard, the round timed out, and the next map is ranked for 4. */
  ghost predicate RankedForAnother(cfg: Config, s: Epoch, first: Command, w: map<int, real>) {
    && |s.docks| == |s.nodes| == cfg.n == |cfg.scheme| && cfg.n >= 5 && s.clock == 1 && |s.rounds| == 1
    && s.weights == [InitialWeights(cfg.scheme), w] && s.rankIds == [4] && s.prioVal == cfg.scheme[0]
    && s.store == cfg.seed && s.replies == [Timeout]
    && s.rounds[0].cmd == first && s.rounds[0].inbox == []
    && (forall f :: 0 < f < cfg.n ==> s.docks[f] == if f == 1 then DockAnswered(FirstDock(), 0) else FirstDock())
    && s.nodes[1].prio.clock == 0 && s.nodes[1].store == After(cfg.seed, first)
    && s.nodes[4].prio.clock == 0 && s.nodes[4].store == cfg.seed
  }

  lemma FirstRound(cfg: Config, first: Command) returns (s: Epoch, w: map<int, real>)
    requires Exposed(cfg) && Execute(cfg.seed, first).Done?
    ensures Reachable(cfg, s) && RankedForAnother(cfg, s, first, w) && Usurped(cfg, w)
  {
    var i := AllConnected(cfg);
    StartBegins(cfg);
    LaterItself(cfg, i);
    var a := TimesOutAfter(cfg, i, i, first, 1);
    var rest;
    rest, w := RankFor4(cfg);
    s := Usurping(cfg, i, a, rest, w);
    LaterIsReachable(cfg, i, s);
    UsurpedRound(cfg, i, a, first, w);
  }

  lemma UsurpedRound(cfg: Config, i: Epoch, a: Epoch, first: Command, w: map<int, real>)
    requires Begins(cfg, i) && TimedOutAfter(i, a, first, 1) && Execute(cfg.seed, first).Done?
    ensures RankedForAnother(cfg, AfterRerank(a.(leaderID := 4), w), first, w)
  {
    assert a.nodes[1] == Serve(i.nodes[1], 0, Lookup(i.weights[0], 1), first).0;
    assert a.rounds[0].cmd == first && a.rounds[0].inbox == [];
  }

  /** A heartbeat of node 4 arrives between the round and its re-ranking. */
  lemma Usurping(cfg: Config, s0: Epoch, a: Epoch, rest: seq<int>, w: map<int, real>) returns (s: Epoch)
    requires Exposed(cfg) && Later(cfg, s0, a) && Busy(a) && Settled(Current(a).status) && a.prioVal == cfg.scheme[0]
    requires Current(a).queue == [1] && Reranks(cfg, [1], 4, rest, w)
    ensures Later(cfg, s0, s) && s == AfterRerank(a.(leaderID := 4), w)
  {
    LaterStill(cfg, s0, a, DisturbLeader(4, a.prioVal, a.store));
    Reranking(cfg, s0, a.(leaderID := 4), rest, w);
    s := AfterRerank(a.(leaderID := 4), w);
  }

  /** The second round as node 0 opens it: nodes 4 and 1 are free, and hold the two heaviest entries. */
  ghost predicate SecondOpened(cfg: Config, e: Epoch, second: Command, w: map<int, real>) {
    && |e.docks| == |e.nodes| == cfg.n == |cfg.scheme| && cfg.n >= 5 && e.clock == 1 && Busy(e)
    && Current(e) == Opened(second, w, cfg.scheme[0]) && WeightsAt(e, 1) == w
    && e.store == cfg.seed && e.replies == [Timeout] && e.rankIds == [4]
    && CanRun(e, [4, 1])
    && (forall f :: 0 < f < cfg.n && f != 4 && f != 1 ==> 1 !in e.docks[f].outcome)
  }

  /** Node 4's late answer to the first round is in. */
  ghost predicate BothAnswered(cfg: Config, b: Epoch, first: Command, w: map<int, real>) {
    && |b.docks| == |b.nodes| == cfg.n == |cfg.scheme| && cfg.n >= 5 && b.clock == 1 && |b.rounds| == 1
    && b.weights == [InitialWeights(cfg.scheme), w] && b.rankIds == [4] && b.prioVal == cfg.scheme[0]
    && b.store == cfg.seed && b.replies == [Timeout]
    && (forall f :: 0 < f < cfg.n ==>
          b.docks[f] == if f == 1 || f == 4 then DockAnswered(FirstDock(), 0) else FirstDock())
    && b.nodes[1].prio.clock == 0 && b.nodes[1].store == After(cfg.seed, first)
    && b.nodes[4].prio.clock == 0 && b.nodes[4].store == After(cfg.seed, first)
  }

  lemma LateAnswer(cfg: Config, s: Epoch, first: Command, w: map<int, real>) returns (b: Epoch)
    requires Exposed(cfg) && RankedForAnother(cfg, s, first, w) && Execute(cfg.seed, first).Done?
    ensures Later(cfg, s, b) && BothAnswered(cfg, b, first, w)
  {
    LaterItself(cfg, s);
    FirstDockIsIdle();
    FollowerAnswers(cfg, s, s, 4, 0);
    b := Replied(s, 4, 0);
  }

  lemma SecondOpens(cfg: Config, s: Epoch, first: Command, second: Command, w: map<int, real>) returns (e: Epoch)
    requires Exposed(cfg) && Reachable(cfg, s) && RankedForAnother(cfg, s, first, w)
    requires Execute(cfg.seed, first).Done? && Execute(After(cfg.seed, first), second).Done?
    ensures Reachable(cfg, e) && SecondOpened(cfg, e, second, w)
  {
    var b := LateAnswer(cfg, s, first, w);
    e := Opening(cfg, s, b, second);
    LaterIsReachable(cfg, s, e);
    ReachableInv(cfg, e);
    OthersNotAsked(cfg, b, e, first, second, w);
    BothFree(cfg, b, e, first, second, w);
  }

  lemma OthersNotAsked(cfg: Config, b: Epoch, e: Epoch, first: Command, second: Command, w: map<int, real>)
    requires BothAnswered(cfg, b, first, w) && OpenedBy(b, e, second)
    ensures Current(e) == Opened(second, w, cfg.scheme[0]) && WeightsAt(e, 1) == w
    ensures forall f :: 0 < f < cfg.n && f != 4 && f != 1 ==> 1 !in e.docks[f].outcome
  {
  }

  lemma FreeAt(cfg: Config, b: Epoch, e: Epoch, first: Command, second: Command, f: nat)
    requires EpochInv(cfg, e) && OpenedBy(b, e, second) && b.clock == 1 && |b.docks| == |b.nodes| == cfg.n && f < cfg.n
    requires b.docks[f] == DockAnswered(FirstDock(), 0)
    requires b.nodes[f].prio.clock == 0 && b.nodes[f].store == After(cfg.seed, first)
    requires Execute(After(cfg.seed, first), second).Done?
    ensures Idle(e.docks[f], 1) && Served(e, f, 1).1
  {
    FirstDockIsIdle();
    AnsweredSpawnIsIdle(FirstDock(), 0);
  }

  lemma BothFree(cfg: Config, b: Epoch, e: Epoch, first: Command, second: Command, w: map<int, real>)
    requires EpochInv(cfg, e) && BothAnswered(cfg, b, first, w) && OpenedBy(b, e, second)
    requires Execute(After(cfg.seed, first), second).Done?
    ensures CanRun(e, [4, 1])
  {
    FreeAt(cfg, b, e, first, second, 4);
    FreeAt(cfg, b, e, first, second, 1);
    PairCanRun(e, 4, 1);
  }

  /** The run: the second write is acknowledged, and at most the three nodes 0, 4 and 1 have run it: no more
      than the tolerance, so a later election may miss them all. */
  lemma AcknowledgedOnFew(cfg: Config, first: Command, second: Command) returns (e: Epoch)
    requires Exposed(cfg) && Execute(cfg.seed, first).Done?
    requires Execute(After(cfg.seed, first), second).Done? && Execute(cfg.seed, second).Done?
    ensures Reachable(cfg, e) && e.replies == [Timeout, Ok] && e.rankIds == [4]
    ensures |Holders(cfg, e, 1)| <= 3 <= cfg.t
  {
    var s, w := FirstRound(cfg, first);
    var a := SecondOpens(cfg, s, first, second, w);
    LaterItself(cfg, a);
    PairSum(cfg, w);
    var m;
    e, m := RoundSucceeds(cfg, a, a, second, [4, 1]);
    LaterIsReachable(cfg, a, e);
    HeldByThree(cfg, a, e, second, w, m);
  }

  lemma PairSum(cfg: Config, w: map<int, real>)
    requires Exposed(cfg) && Usurped(cfg, w)
    ensures cfg.scheme[0] + RunningSum(w, [4, 1], 2) > cfg.majority
  {
    assert RunningSum(w, [4, 1], 1) == RunningSum(w, [4, 1], 0) + Lookup(w, 4);
  }

  lemma HeldByThree(cfg: Config, a: Epoch, e: Epoch, second: Command, w: map<int, real>, m: nat)
    requires cfg.leader == 0 && SecondOpened(cfg, a, second, w) && m <= 2 && AcknowledgedOn(a, e, second, [4, 1], m)
    ensures |Holders(cfg, e, 1)| <= 3
  {
    forall f | f in Holders(cfg, e, 1)
      ensures f in {0, 4, 1}
    {
      assert f !in [4, 1] ==> f !in [4, 1][..m];
    }
    SubsetCount(Holders(cfg, e, 1), {0, 4, 1});
  }

  /** With seven nodes as deployed. */
  lemma SevenNodesOnFew(seed: Store, first: Command, second: Command) returns (e: Epoch)
    requires Execute(seed, first).Done?
    requires Execute(After(seed, first), second).Done? && Execute(seed, second).Done?
    ensures Reachable(Config(7, 3, SCHEME, MAJORITY, 0, seed, false), e) && e.replies == [Timeout, Ok]
    ensures |Holders(Config(7, 3, SCHEME, MAJORITY, 0, seed, false), e, 1)| <= 3
  {
    SevenNodesExposed(seed);
    e := AcknowledgedOnFew(Config(7, 3, SCHEME, MAJORITY, 0, seed, false), first, second);
  }

  lemma SevenNodesExposed(seed: Store)
    ensures Exposed(Config(7, 3, SCHEME, MAJORITY, 0, seed, false))
  {
    SevenNodesRatio();
    TopWeights();
  }
}
