/** An elected leader's first round: it starts on the initial map with the PrioVal an earlier leader gave it. */
module ElectedLeaders {
  import opened Weights
  import opened PriorityManagers
  import opened KVStore
  import opened PriorityStates
  import opened JobQueue
  import opened Rounds
  import opened Epochs
  import opened EpochInvariants
  import opened EpochTheorems
  import opened EpochRuns
  import opened EpochWitnesses
  import opened SevenNodes

  /** The initial leader's epoch, with a tolerance of at least 3 and a scheme whose heaviest weight and twice
      the next pass the majority. */
  predicate Tempting(cfg: Config) {
    && ValidConfig(cfg) && cfg.alone && cfg.leader == 0 && cfg.n >= 5 && cfg.t >= 3
    && cfg.scheme[0] + 2.0 * cfg.scheme[1] > cfg.majority
  }

  // ---- The first leader's epoch ----

  /** Node 4 alone answered the first round and so was given scheme[1]; nodes 0 and 1 are where they started. */
  ghost predicate RankedSecond(cfg: Config, s: Epoch, first: Command, w: map<int, real>) {
    && |s.docks| == |s.nodes| == cfg.n == |cfg.scheme| && cfg.n >= 5 && s.clock == 1 && |s.rounds| == 1
    && s.weights == [InitialWeights(cfg.scheme), w] && Lookup(w, 4) == cfg.scheme[1]
    && s.prioVal == cfg.scheme[0] && s.store == cfg.seed
    && s.docks[4] == DockAnswered(FirstDock(), 0)
    && s.nodes[0] == Node(Prio(0, cfg.scheme[0]), cfg.seed) && s.nodes[1] == Node(Prio(0, cfg.scheme[1]), cfg.seed)
    && s.nodes[4].prio.clock == 0 && s.nodes[4].store == After(cfg.seed, first)
  }

  lemma FirstRanking(cfg: Config, first: Command) returns (s: Epoch, w: map<int, real>)
    requires Tempting(cfg) && Execute(cfg.seed, first).Done?
    ensures Reachable(cfg, s) && RankedSecond(cfg, s, first, w)
  {
    var i := AllConnected(cfg);
    StartBegins(cfg);
    LaterItself(cfg, i);
    var a := TimesOutAfter(cfg, i, i, first, 4);
    s, w := OwnRanking(cfg, i, a);
    LaterIsReachable(cfg, i, s);
    RankedSecondHolds(cfg, i, a, first, w);
  }

  lemma OwnRanking(cfg: Config, i: Epoch, a: Epoch) returns (s: Epoch, w: map<int, real>)
    requires Tempting(cfg) && Later(cfg, i, a) && Busy(a) && Settled(Current(a).status)
    requires Current(a).queue == [4] && a.leaderID == 0
    ensures Later(cfg, i, s) && s == AfterRerank(a, w) && Lookup(w, 4) == cfg.scheme[1]
  {
    var rest;
    rest, w := SomeRanking(cfg, [4], 0);
    Reranking(cfg, i, a, rest, w);
    s := AfterRerank(a, w);
    assert Lookup(w, [4][0]) == cfg.scheme[1];
  }

  lemma RankedSecondHolds(cfg: Config, i: Epoch, a: Epoch, first: Command, w: map<int, real>)
    requires Begins(cfg, i) && TimedOutAfter(i, a, first, 4) && Execute(cfg.seed, first).Done?
    requires Lookup(w, 4) == cfg.scheme[1]
    ensures RankedSecond(cfg, AfterRerank(a, w), first, w)
  {
    assert a.nodes[4] == Serve(i.nodes[4], 0, Lookup(i.weights[0], 4), first).0;
  }

  /** Node 4 has run the second round's call, which brought it the weight of a first replier. */
  ghost predicate Promoted(cfg: Config, s: Epoch, store: Store) {
    && |s.nodes| == cfg.n == |cfg.scheme| && cfg.n >= 5
    && s.prioVal == cfg.scheme[0] && s.store == cfg.seed
    && s.nodes[0] == Node(Prio(0, cfg.scheme[0]), cfg.seed) && s.nodes[1] == Node(Prio(0, cfg.scheme[1]), cfg.seed)
    && s.nodes[4] == Node(Prio(1, cfg.scheme[1]), store)
  }

  lemma Promotion(cfg: Config, s: Epoch, first: Command, second: Command, w: map<int, real>) returns (e: Epoch)
    requires Tempting(cfg) && Reachable(cfg, s) && RankedSecond(cfg, s, first, w)
    requires Execute(After(cfg.seed, first), second).Done?
    ensures Reachable(cfg, e) && Promoted(cfg, e, After(After(cfg.seed, first), second))
  {
    LaterItself(cfg, s);
    var a := Opening(cfg, s, s, second);
    LaterIsReachable(cfg, s, a);
    ReachableInv(cfg, a);
    CallFinds(cfg, s, a, first, second, w);
    FollowerAnswers(cfg, s, a, 4, 1);
    e := Replied(a, 4, 1);
    LaterIsReachable(cfg, s, e);
    CallLeaves(cfg, s, a, first, second, w);
  }

  lemma CallFinds(cfg: Config, s: Epoch, a: Epoch, first: Command, second: Command, w: map<int, real>)
    requires RankedSecond(cfg, s, first, w) && OpenedBy(s, a, second) && EpochInv(cfg, a)
    requires Execute(After(cfg.seed, first), second).Done?
    ensures Idle(a.docks[4], 1) && Served(a, 4, 1).1 && a.rounds[1].inbox == []
  {
    FirstDockIsIdle();
    AnsweredSpawnIsIdle(FirstDock(), 0);
  }

  lemma CallLeaves(cfg: Config, s: Epoch, a: Epoch, first: Command, second: Command, w: map<int, real>)
    requires RankedSecond(cfg, s, first, w) && OpenedBy(s, a, second) && 1 < |a.docks[4].tasks|
    requires Execute(After(cfg.seed, first), second).Done?
    ensures Promoted(cfg, Replied(a, 4, 1), After(After(cfg.seed, first), second))
  {
    assert a.rounds[1] == Opened(second, w, cfg.scheme[0]);
  }

  // ---- The elected leader's epoch ----

  /** Node 4's own epoch over the same cluster, other leaders not excluded. */
  function Succession(cfg: Config): Config {
    cfg.(leader := 4, alone := false)
  }

  /** It begins with every node as the first epoch left it, node 0's own state included, and with node 4's
      weight and store for its own. */
  ghost predicate TakesOver(cfg: Config, s: Epoch, i: Epoch)
    requires cfg.leader == 0 < |s.nodes| && 4 < |s.nodes|
  {
    && Init(Succession(cfg), i)
    && i.nodes == s.nodes[0 := Node(Prio(s.nodes[0].prio.clock, s.prioVal), s.store)]
    && i.prioVal == s.nodes[4].prio.val && i.store == s.nodes[4].store
  }

  lemma Takeover(cfg: Config, s: Epoch, store: Store) returns (i: Epoch)
    requires Tempting(cfg) && Promoted(cfg, s, store)
    ensures TakesOver(cfg, s, i) && Reachable(Succession(cfg), i)
    ensures forall f :: 0 <= f < cfg.n && f != 4 ==> Moved(i.docks[f], Spawn) == FirstDock()
  {
    i := Epoch(seq(cfg.n, f => Dock(f != 4, false, [], map[], [], {}, [], map[])),
               s.nodes[0 := Node(Prio(s.nodes[0].prio.clock, s.prioVal), s.store)],
               [], [InitialWeights(cfg.scheme)], [], 0, 4, s.nodes[4].prio.val, s.nodes[4].store, []);
    assert cfg.scheme[1] <= cfg.scheme[0];
    assert Run(Succession(cfg), Trace.Start(i));
  }

  /** The first round of that epoch: nodes 0 and 1, still at clock 0, accept its calls. */
  ghost predicate FirstOpened(cfg: Config, e: Epoch, cmd: Command, store: Store) {
    && |e.docks| == |e.nodes| == cfg.n == |cfg.scheme| && cfg.n >= 5 && e.clock == 0 && Busy(e)
    && Current(e) == Opened(cmd, InitialWeights(cfg.scheme), cfg.scheme[1])
    && WeightsAt(e, 0) == InitialWeights(cfg.scheme) && e.store == store && e.replies == []
    && CanRun(e, [0, 1])
    && (forall f :: 0 <= f < cfg.n && f != 4 ==> 0 !in e.docks[f].outcome)
  }

  lemma FirstOpens(cfg: Config, s: Epoch, i: Epoch, cmd: Command, store: Store) returns (e: Epoch)
    requires Tempting(cfg) && Promoted(cfg, s, store) && TakesOver(cfg, s, i) && Reachable(Succession(cfg), i)
    requires forall f :: 0 <= f < cfg.n && f != 4 ==> Moved(i.docks[f], Spawn) == FirstDock()
    requires Execute(cfg.seed, cmd).Done?
    ensures Later(Succession(cfg), i, e) && FirstOpened(cfg, e, cmd, store)
  {
    LaterItself(Succession(cfg), i);
    e := Opening(Succession(cfg), i, i, cmd);
    FirstDockIsIdle();
    assert e.docks[0] == FirstDock() && e.docks[1] == FirstDock();
    PairCanRun(e, 0, 1);
  }

  /** The run: an elected leader's first write is acknowledged, and at most the three nodes 4, 0 and 1 have
      run it: no more than the tolerance, so the next election may miss them all. */
  lemma FirstWriteOnFew(cfg: Config, first: Command, second: Command, cmd: Command)
    returns (s: Epoch, i: Epoch, e: Epoch)
    requires Tempting(cfg) && Execute(cfg.seed, first).Done? && Execute(After(cfg.seed, first), second).Done?
    requires Execute(cfg.seed, cmd).Done? && Execute(After(After(cfg.seed, first), second), cmd).Done?
    ensures Reachable(cfg, s) && |s.nodes| == cfg.n && TakesOver(cfg, s, i)
    ensures Later(Succession(cfg), i, e) && Reachable(Succession(cfg), e) && e.replies == [Ok]
    ensures |Holders(Succession(cfg), e, 0)| <= 3 <= cfg.t
  {
    var a, w := FirstRanking(cfg, first);
    s := Promotion(cfg, a, first, second, w);
    var store := After(After(cfg.seed, first), second);
    i := Takeover(cfg, s, store);
    e := FirstWrite(cfg, s, i, cmd, store);
    LaterIsReachable(Succession(cfg), i, e);
  }

  lemma FirstWrite(cfg: Config, s: Epoch, i: Epoch, cmd: Command, store: Store) returns (e: Epoch)
    requires Tempting(cfg) && Promoted(cfg, s, store) && TakesOver(cfg, s, i) && Reachable(Succession(cfg), i)
    requires forall f :: 0 <= f < cfg.n && f != 4 ==> Moved(i.docks[f], Spawn) == FirstDock()
    requires Execute(cfg.seed, cmd).Done? && Execute(store, cmd).Done?
    ensures Later(Succession(cfg), i, e) && e.replies == [Ok] && |Holders(Succession(cfg), e, 0)| <= 3
  {
    var a := FirstOpens(cfg, s, i, cmd, store);
    PairSum(cfg);
    var m;
    e, m := RoundSucceeds(Succession(cfg), i, a, cmd, [0, 1]);
    HeldByThree(cfg, a, e, cmd, store, m);
  }

  lemma PairSum(cfg: Config)
    requires Tempting(cfg)
    ensures cfg.scheme[1] + RunningSum(InitialWeights(cfg.scheme), [0, 1], 2) > cfg.majority
  {
    var w := InitialWeights(cfg.scheme);
    assert RunningSum(w, [0, 1], 1) == RunningSum(w, [0, 1], 0) + Lookup(w, 0);
  }

  lemma HeldByThree(cfg: Config, a: Epoch, e: Epoch, cmd: Command, store: Store, m: nat)
    requires FirstOpened(cfg, a, cmd, store) && m <= 2 && AcknowledgedOn(a, e, cmd, [0, 1], m)
    ensures |Holders(Succession(cfg), e, 0)| <= 3
  {
    forall f | f in Holders(Succession(cfg), e, 0)
      ensures f in {4, 0, 1}
    {
      assert f !in [0, 1] ==> f !in [0, 1][..m];
    }
    SubsetCount(Holders(Succession(cfg), e, 0), {4, 0, 1});
  }

  /** With seven nodes as deployed. */
  lemma SevenNodesTempted(seed: Store)
    ensures Tempting(Config(7, 3, SCHEME, MAJORITY, 0, seed, true))
  {
    SevenNodesRatio();
    TopWeights();
  }
}
