/** Runs that reach what the theorems bound: few answers that suffice, and replicas that part. */
module EpochWitnesses {
  import opened Weights
  import opened PriorityManagers
  import opened KVStore
  import opened PriorityStates
  import opened JobQueue
  import opened Rounds
  import opened Epochs
  import opened EpochInvariants
  import opened EpochTheorems
  import opened EpochRuns
  import opened Miscounts
  import opened Replicas

  // ---- Opening a round ----

  /** The epoch's start with every follower connected. */
  function AllConnected(cfg: Config): Epoch
    requires cfg.n == |cfg.scheme| && cfg.n > 0
  {
    Epoch(seq(cfg.n, f => Dock(f != cfg.leader, false, [], map[], [], {}, [], map[])),
          seq(cfg.n, f requires 0 <= f < cfg.n => Node(Prio(0, cfg.scheme[f]), cfg.seed)),
          [], [InitialWeights(cfg.scheme)], [], 0, cfg.leader, cfg.scheme[0], cfg.seed, [])
  }

  lemma StartsConnected(cfg: Config)
    requires ValidConfig(cfg)
    ensures Init(cfg, AllConnected(cfg)) && Reachable(cfg, AllConnected(cfg))
  {
    assert Run(cfg, Trace.Start(AllConnected(cfg)));
  }

  /** The state just after a command was taken. */
  ghost predicate OpenedBy(s: Epoch, e: Epoch, cmd: Command) {
    && |s.rounds| == s.clock && e.clock == s.clock
    && e.rounds == s.rounds + [Opened(cmd, WeightsAt(s, s.clock), s.prioVal)]
    && e.nodes == s.nodes && e.store == s.store && e.replies == s.replies && e.weights == s.weights
    && e.rankIds == s.rankIds && e.prioVal == s.prioVal && e.leaderID == s.leaderID
    && |e.docks| == |s.docks| && (forall f :: 0 <= f < |s.docks| ==> e.docks[f] == Moved(s.docks[f], Spawn))
  }

  lemma Opening(cfg: Config, s0: Epoch, s: Epoch, cmd: Command) returns (e: Epoch)
    requires Later(cfg, s0, s) && |s.rounds| == s.clock
    ensures Later(cfg, s0, e) && OpenedBy(s, e, cmd)
  {
    LaterStill(cfg, s0, s, TakeCommand(cmd));
    e := Apply(cfg, s, TakeCommand(cmd));
  }

  lemma FreshSpawnIsIdle(d: Dock)
    requires Fresh(d) && d.connected
    ensures Idle(Moved(d, Spawn), 0)
  {
    FreshInv(d);
    DockInvKept(d, Spawn);
  }

  lemma AnsweredSpawnIsIdle(d: Dock, k: nat)
    requires Idle(d, k) && |d.tasks| == k + 1 && d.connected && DockInv(Moved(DockAnswered(d, k), Spawn))
    ensures Idle(Moved(DockAnswered(d, k), Spawn), k + 1)
  {
  }

  // ---- The best case, in the first round ----

  /** Nodes 1 to j. */
  function FirstFollowers(j: nat): seq<int> {
    seq(j, i => i + 1)
  }

  lemma {:induction false} FirstSum(scheme: seq<real>, m: nat, j: nat)
    requires j <= m < |scheme|
    ensures scheme[0] + RunningSum(InitialWeights(scheme), FirstFollowers(m), j) == TopSum(scheme, j + 1)
  {
    if j == 0 {
      assert TopSum(scheme, 1) == TopSum(scheme, 0) + scheme[0];
    } else {
      FirstSum(scheme, m, j - 1);
    }
  }

  /** The followers that are enough: t of them, or one when t is 0. */
  function Enough(cfg: Config): nat {
    if cfg.t == 0 then 1 else cfg.t
  }

  lemma EnoughTopSum(cfg: Config)
    requires ValidConfig(cfg) && Enough(cfg) < cfg.n
    ensures TopSum(cfg.scheme, Enough(cfg) + 1) > cfg.majority
  {
    TopSumMono(cfg.scheme, cfg.t + 1, Enough(cfg) + 1);
  }

  lemma FirstCanRun(cfg: Config, s: Epoch, cmd: Command, m: nat)
    requires ValidConfig(cfg) && cfg.leader == 0 && m < cfg.n && Execute(cfg.seed, cmd).Done?
    requires OpenedBy(AllConnected(cfg), s, cmd)
    ensures CanRun(s, FirstFollowers(m))
  {
    forall f | 0 < f < cfg.n
      ensures Idle(s.docks[f], 0) && Served(s, f, 0).1
    {
      FreshSpawnIsIdle(AllConnected(cfg).docks[f]);
    }
  }

  /** From any valid start there is a run in which only nodes 1 to t (one node, for t = 0) are ever called,
      and the first write is acknowledged. */
  lemma FewAnswersSuffice(cfg: Config, cmd: Command) returns (e: Epoch)
    requires ValidConfig(cfg) && cfg.leader == 0 && cfg.n >= 2 && Execute(cfg.seed, cmd).Done?
    ensures Reachable(cfg, e) && e.replies == [Ok]
    ensures |e.docks| == cfg.n && forall f :: Enough(cfg) < f < cfg.n ==> e.docks[f].calls == []
  {
    EnoughIsFew(cfg);
    var i, m := AllConnected(cfg), Enough(cfg);
    StartsConnected(cfg);
    LaterItself(cfg, i);
    var s := Opening(cfg, i, i, cmd);
    FirstRoundReady(cfg, s, cmd, m);
    var j;
    e, j := RoundSucceeds(cfg, i, s, cmd, FirstFollowers(m));
    LaterIsReachable(cfg, i, e);
    OthersNotCalled(cfg, s, e, cmd, m, j);
  }

  lemma FirstRoundReady(cfg: Config, s: Epoch, cmd: Command, m: nat)
    requires ValidConfig(cfg) && cfg.leader == 0 && m == Enough(cfg) < cfg.n && Execute(cfg.seed, cmd).Done?
    requires OpenedBy(AllConnected(cfg), s, cmd)
    ensures CanRun(s, FirstFollowers(m)) && Current(s) == Opened(cmd, WeightsAt(s, s.clock), Current(s).base)
    ensures Current(s).base + RunningSum(WeightsAt(s, s.clock), FirstFollowers(m), m) > cfg.majority
  {
    FirstCanRun(cfg, s, cmd, m);
    FirstSum(cfg.scheme, m, m);
    EnoughTopSum(cfg);
  }

  lemma OthersNotCalled(cfg: Config, s: Epoch, e: Epoch, cmd: Command, m: nat, j: nat)
    requires cfg.n == |cfg.scheme| > 0 && OpenedBy(AllConnected(cfg), s, cmd) && j <= m
    requires AcknowledgedOn(s, e, cmd, FirstFollowers(m), j)
    ensures |e.docks| == cfg.n && forall f :: m < f < cfg.n ==> e.docks[f].calls == []
  {
    forall f | m < f < cfg.n
      ensures e.docks[f].calls == []
    {
      assert f !in FirstFollowers(m)[..j];
    }
  }

  lemma EnoughIsFew(cfg: Config)
    requires ValidConfig(cfg) && cfg.n >= 2
    ensures Enough(cfg) < cfg.n
  {
  }

  // ---- The best case, from round to round ----

  /** Some walk over the map completes the ranking of these replies for this id. */
  lemma SomeRanking(cfg: Config, queue: seq<int>, id: int) returns (rest: seq<int>, w: map<int, real>)
    requires ValidConfig(cfg) && Replies(cfg.n, id, queue)
    ensures Reranks(cfg, queue, id, rest, w) && Lookup(w, id) == cfg.scheme[0]
    ensures |queue| < |cfg.scheme| && forall k :: 0 <= k < |queue| ==> Lookup(w, queue[k]) == cfg.scheme[k + 1]
  {
    FailsIffLeaderReplied(cfg.n, queue, id);
    DistinctFewer(queue, cfg.n, id);
    rest := ListSet(Unplaced(cfg.n, queue, id), cfg.n);
    MembersCount(rest);
    w := LeaderEntry(cfg.scheme, cfg.n, queue, id) + Place(cfg.scheme, queue, 1) + Place(cfg.scheme, rest, 1 + |queue|);
    RepliersOutweigh(cfg.scheme, cfg.n, queue, id, rest, w);
  }

  lemma Reranking(cfg: Config, s0: Epoch, s: Epoch, rest: seq<int>, w: map<int, real>)
    requires Later(cfg, s0, s) && Busy(s) && Settled(Current(s).status) && cfg.scheme != []
    requires Reranks(cfg, Current(s).queue, s.leaderID, rest, w)
    ensures Later(cfg, s0, AfterRerank(s, w))
  {
    LaterStill(cfg, s0, s, Rerank(rest, w));
  }

  /** After the re-ranking the leader and the first j repliers hold the j+1 heaviest weights. */
  lemma {:induction false} RepliersSum(w: map<int, real>, order: seq<int>, scheme: seq<real>, id: int,
                                       queue: seq<int>, j: nat)
    requires RankedBy(w, order, scheme) && [id] + queue <= order && j <= |queue|
    ensures scheme[0] + RunningSum(w, queue, j) == TopSum(scheme, j + 1)
  {
    if j == 0 {
      assert TopSum(scheme, 1) == TopSum(scheme, 0) + scheme[0];
    } else {
      RepliersSum(w, order, scheme, id, queue, j - 1);
      assert order[j] == ([id] + queue)[j] == queue[j - 1];
      RankLookup(w, order, scheme, j);
    }
  }

  /** A follower that replied in round k is free for round k+1 on the dock that the new round finds. */
  lemma ReplierIsIdle(d: Dock, k: nat)
    requires DockInv(d) && !d.broken && |d.tasks| == k + 1 && At(d, k, Finished(true))
    ensures Idle(Moved(d, Spawn), k + 1) && |d.execs| == k + 1
  {
    DockInvKept(d, Spawn);
    assert Started(d, k) && Sent(d, k);
    assert d.connected;
    assert k in d.outcome;
  }

  lemma ReplierServes(cfg: Config, s: Epoch, b: Epoch, cmd: Command, f: nat)
    requires ValidConfig(cfg) && cfg.alone && Busy(s) && ReplicaInv(cfg, b) && f < cfg.n
    requires |b.rounds| == s.clock + 2 && |b.docks[f].execs| == s.clock + 1
    requires b.rounds[s.clock + 1].cmd == cmd && Execute(History(cfg, b, s.clock + 1), cmd).Done?
    ensures Served(b, f, s.clock + 1).1
  {
    assert FollowerOk(cfg, b, f);
  }

  /** What the next round finds once this one is settled: its first m repliers free and able to run. */
  lemma RepliersCanRun(cfg: Config, s: Epoch, a: Epoch, b: Epoch, cmd: Command, m: nat)
    requires ValidConfig(cfg) && cfg.alone && EpochInv(cfg, s) && Busy(s) && m <= |Current(s).queue|
    requires forall i :: 0 <= i < m ==>
      0 <= Current(s).queue[i] < |s.docks| && !s.docks[Current(s).queue[i]].broken
    requires a.docks == s.docks && a.clock == s.clock + 1 && OpenedBy(a, b, cmd) && ReplicaInv(cfg, b)
    requires Execute(History(cfg, b, s.clock + 1), cmd).Done?
    ensures CanRun(b, Current(s).queue[..m])
  {
    FirstRepliersDistinct(cfg, s, m);
    forall i | 0 <= i < m
      ensures 0 <= Current(s).queue[i] < |b.docks|
      ensures Idle(b.docks[Current(s).queue[i]], b.clock) && Served(b, Current(s).queue[i], b.clock).1
    {
      ReplierIsFree(cfg, s, b, cmd, i);
    }
    FreeCanRun(b, Current(s).queue, m);
  }

  lemma FirstRepliersDistinct(cfg: Config, s: Epoch, m: nat)
    requires ValidConfig(cfg) && EpochInv(cfg, s) && Busy(s) && m <= |Current(s).queue|
    ensures Distinct(Current(s).queue[..m])
  {
    RepliesAdmissible(cfg, s, s.clock);
  }

  lemma FreeCanRun(b: Epoch, queue: seq<int>, m: nat)
    requires Busy(b) && |b.docks| == |b.nodes| && m <= |queue| && Distinct(queue[..m])
    requires forall i :: 0 <= i < m ==>
      0 <= queue[i] < |b.docks| && Idle(b.docks[queue[i]], b.clock) && Served(b, queue[i], b.clock).1
    ensures CanRun(b, queue[..m])
  {
  }

  /** The i-th replier of a round, on its dock with the next round's task. */
  lemma ReplierIsFree(cfg: Config, s: Epoch, b: Epoch, cmd: Command, i: nat)
    requires ValidConfig(cfg) && cfg.alone && EpochInv(cfg, s) && Busy(s) && i < |Current(s).queue|
    requires 0 <= Current(s).queue[i] < |s.docks| == |b.docks| == |b.nodes| && !s.docks[Current(s).queue[i]].broken
    requires b.docks[Current(s).queue[i]] == Moved(s.docks[Current(s).queue[i]], Spawn)
    requires ReplicaInv(cfg, b) && b.clock == s.clock + 1 && |b.rounds| == s.clock + 2
    requires b.rounds[s.clock + 1].cmd == cmd && Execute(History(cfg, b, s.clock + 1), cmd).Done?
    ensures Idle(b.docks[Current(s).queue[i]], b.clock) && Served(b, Current(s).queue[i], b.clock).1
  {
    var k, f := s.clock, Current(s).queue[i];
    assert ArrivalsOk(cfg, s, k);
    assert Arrivals(Current(s))[i] == f;
    assert f in Arrivals(Current(s));
    ReplierIsIdle(s.docks[f], k);
    ReplierServes(cfg, s, b, cmd, f);
  }

  lemma NextSum(cfg: Config, b: Epoch, m: nat)
    requires ValidConfig(cfg) && cfg.alone && EpochInv(cfg, b) && Busy(b) && b.clock > 0
    requires Enough(cfg) == m <= |b.rounds[b.clock - 1].queue|
    ensures Current(b).base + RunningSum(WeightsAt(b, b.clock), b.rounds[b.clock - 1].queue[..m], m) > cfg.majority
  {
    var k, queue := b.clock, b.rounds[b.clock - 1].queue;
    AloneOwnsTopWeight(cfg, b, k);
    OwnIsRanked(cfg, b, k);
    var order := RankingOf(cfg, b, k);
    RepliersSum(b.weights[k], order, cfg.scheme, cfg.leader, queue, m);
    RunningSumPrefix(b.weights[k], queue[..m], queue, m);
    RepliesAdmissible(cfg, b, k - 1);
    DistinctFewer(queue, cfg.n, cfg.leader);
    EnoughTopSum(cfg);
    assert RoundOk(cfg, b, k);
  }

  /** The best case carries from round to round: after any settled round of any run with enough replies,
      the next write can be acknowledged by its first t repliers alone (one, for t = 0), the others not
      even being called, as long as those connections still work and the command applies. */
  lemma BestCaseCarries(cfg: Config, s: Epoch, cmd: Command) returns (e: Epoch)
    requires ValidConfig(cfg) && cfg.alone && Reachable(cfg, s) && Busy(s) && Settled(Current(s).status)
    requires Enough(cfg) <= |Current(s).queue|
    requires forall i :: 0 <= i < Enough(cfg) ==>
      0 <= Current(s).queue[i] < |s.docks| && !s.docks[Current(s).queue[i]].broken
    requires Execute(History(cfg, s, s.clock + 1), cmd).Done? && Execute(s.store, cmd).Done?
    ensures Later(cfg, s, e) && e.replies == s.replies + [Ok] && |e.rounds| == |s.rounds| + 1
    ensures |e.docks| == |s.docks|
    ensures forall f :: 0 <= f < |s.docks| && f !in Current(s).queue[..Enough(cfg)] ==>
      e.docks[f].calls == s.docks[f].calls
  {
    ReachableInv(cfg, s);
    var m := Enough(cfg);
    LaterItself(cfg, s);
    RepliesAdmissible(cfg, s, s.clock);
    var rest, w := SomeRanking(cfg, Current(s).queue, s.leaderID);
    Reranking(cfg, s, s, rest, w);
    var a := AfterRerank(s, w);
    var b := Opening(cfg, s, a, cmd);
    e := NextRoundSucceeds(cfg, s, a, b, cmd, m);
  }

  lemma NextRoundSucceeds(cfg: Config, s: Epoch, a: Epoch, b: Epoch, cmd: Command, m: nat) returns (e: Epoch)
    requires ValidConfig(cfg) && cfg.alone && Reachable(cfg, s) && EpochInv(cfg, s) && Busy(s)
    requires m == Enough(cfg) <= |Current(s).queue|
    requires forall i :: 0 <= i < m ==> 0 <= Current(s).queue[i] < |s.docks| && !s.docks[Current(s).queue[i]].broken
    requires Execute(History(cfg, s, s.clock + 1), cmd).Done? && Execute(s.store, cmd).Done?
    requires a.docks == s.docks && a.rounds == s.rounds && a.clock == s.clock + 1 && a.store == s.store
        && a.replies == s.replies
    requires OpenedBy(a, b, cmd) && Later(cfg, s, b)
    ensures Later(cfg, s, e) && e.replies == s.replies + [Ok] && |e.rounds| == |s.rounds| + 1 && |e.docks| == |s.docks|
    ensures forall f :: 0 <= f < |s.docks| && f !in Current(s).queue[..m] ==> e.docks[f].calls == s.docks[f].calls
  {
    var queue, ids := Current(s).queue, Current(s).queue[..m];
    NextRoundReady(cfg, s, a, b, cmd, m);
    var j;
    e, j := RoundSucceeds(cfg, s, b, cmd, ids);
    NotCalled(s, a, b, e, cmd, queue, m, j);
  }

  lemma NextRoundReady(cfg: Config, s: Epoch, a: Epoch, b: Epoch, cmd: Command, m: nat)
    requires ValidConfig(cfg) && cfg.alone && Reachable(cfg, s) && EpochInv(cfg, s) && Busy(s)
    requires m == Enough(cfg) <= |Current(s).queue|
    requires forall i :: 0 <= i < m ==> 0 <= Current(s).queue[i] < |s.docks| && !s.docks[Current(s).queue[i]].broken
    requires Execute(History(cfg, s, s.clock + 1), cmd).Done?
    requires a.docks == s.docks && a.rounds == s.rounds && a.clock == s.clock + 1
    requires OpenedBy(a, b, cmd) && Later(cfg, s, b)
    ensures Busy(b) && CanRun(b, Current(s).queue[..m]) && 0 < m < cfg.n
    ensures Current(b).base + RunningSum(WeightsAt(b, b.clock), Current(s).queue[..m], m) > cfg.majority
    ensures Current(b) == Opened(cmd, WeightsAt(b, b.clock), Current(b).base)
  {
    LaterIsReachable(cfg, s, b);
    ReachableReplicas(cfg, b);
    HistoryKept(cfg, s, b, s.clock + 1);
    RepliersCanRun(cfg, s, a, b, cmd, m);
    NextSum(cfg, b, m);
    RepliesAdmissible(cfg, s, s.clock);
    DistinctFewer(Current(s).queue, cfg.n, cfg.leader);
  }

  lemma NotCalled(s: Epoch, a: Epoch, b: Epoch, e: Epoch, cmd: Command, queue: seq<int>, m: nat, j: nat)
    requires a.docks == s.docks && OpenedBy(a, b, cmd) && j <= m <= |queue|
    requires Busy(b) && AcknowledgedOn(b, e, cmd, queue[..m], j)
    ensures |e.docks| == |s.docks|
    ensures forall f :: 0 <= f < |s.docks| && f !in queue[..m] ==> e.docks[f].calls == s.docks[f].calls
  {
    assert queue[..m][..j] == queue[..j];
    assert forall f :: f in queue[..j] ==> f in queue[..m];
  }

  // ---- A round that times out after a follower ran it ----

  /** The follower's only answer was late: it ran the command, the leader did not. */
  ghost predicate TimedOutAfter(s: Epoch, e: Epoch, cmd: Command, f: nat)
    requires f < |s.nodes|
  {
    var k, w := s.clock, WeightsAt(s, s.clock);
    && |s.rounds| == k && e.clock == k && |s.docks| == |s.nodes| == |e.docks| && f < |e.docks|
    && e.rounds == s.rounds + [Round(cmd, w, s.prioVal, s.prioVal, [], [f], 0, TimedOut)]
    && e.nodes == s.nodes[f := Serve(s.nodes[f], k, Lookup(w, f), cmd).0]
    && e.replies == s.replies + [Timeout] && e.store == s.store && e.weights == s.weights
    && e.rankIds == s.rankIds && e.prioVal == s.prioVal && e.leaderID == s.leaderID
    && |s.docks[f].tasks| == k && e.docks[f] == DockAnswered(Moved(s.docks[f], Spawn), k)
    && (forall g :: 0 <= g < |s.docks| && g != f ==> e.docks[g] == Moved(s.docks[g], Spawn))
  }

  function WithRound(s: Epoch, r: Round): Epoch
    requires Busy(s)
  {
    s.(rounds := s.rounds[s.clock := r])
  }

  lemma Expiring(cfg: Config, s0: Epoch, s: Epoch)
    requires Later(cfg, s0, s) && Busy(s) && Current(s).status.Gathering?
    ensures Later(cfg, s0, WithRound(s, Current(s).(status := Status.Expired)))
  {
    LaterStill(cfg, s0, s, Expire);
  }

  lemma GivingUp(cfg: Config, s0: Epoch, s: Epoch, r: Round)
    requires Busy(s) && Later(cfg, s0, WithRound(s, r)) && r.status.Expired?
    ensures Later(cfg, s0, WithRound(s, r.(status := TimedOut)).(replies := s.replies + [Timeout]))
  {
    LaterStill(cfg, s0, WithRound(s, r), Decide);
    assert s.rounds[s.clock := r][s.clock := r.(status := TimedOut)] == s.rounds[s.clock := r.(status := TimedOut)];
  }

  lemma Draining(cfg: Config, s0: Epoch, s: Epoch, r: Round)
    requires Busy(s) && Later(cfg, s0, WithRound(s, r)) && Settled(r.status) && r.inbox != [] && |r.queue| < cfg.n
    ensures Later(cfg, s0, WithRound(s, Drained(r)))
  {
    LaterStill(cfg, s0, WithRound(s, r), Drain);
    assert s.rounds[s.clock := r][s.clock := Drained(r)] == s.rounds[s.clock := Drained(r)];
  }

  lemma Settling(cfg: Config, s0: Epoch, s: Epoch, r: Round, f: int) returns (e: Epoch)
    requires Later(cfg, s0, s) && Busy(s) && Current(s) == r && r.status.Gathering?
    requires r.inbox == [f] && r.queue == [] && cfg.n > 0
    ensures Later(cfg, s0, e)
    ensures e == WithRound(s, r.(inbox := [], queue := [f], status := TimedOut)).(replies := s.replies + [Timeout])
  {
    Expiring(cfg, s0, s);
    GivingUp(cfg, s0, s, r.(status := Status.Expired));
    var a := s.(replies := s.replies + [Timeout]);
    assert WithRound(a, r.(status := TimedOut)) == WithRound(s, r.(status := TimedOut)).(replies := a.replies);
    Draining(cfg, s0, a, r.(status := TimedOut));
    assert Drained(r.(status := TimedOut)) == r.(inbox := [], queue := [f], status := TimedOut);
    e := WithRound(a, Drained(r.(status := TimedOut)));
  }

  lemma TimesOutAfter(cfg: Config, s0: Epoch, s: Epoch, cmd: Command, f: nat) returns (e: Epoch)
    requires Later(cfg, s0, s) && |s.rounds| == s.clock && |s.docks| == |s.nodes| && f < |s.nodes| && cfg.n > 0
    requires |s.docks[f].tasks| == s.clock && Idle(Moved(s.docks[f], Spawn), s.clock)
    requires Serve(s.nodes[f], s.clock, Lookup(WeightsAt(s, s.clock), f), cmd).1
    ensures Later(cfg, s0, e) && TimedOutAfter(s, e, cmd, f)
  {
    var a := Opening(cfg, s0, s, cmd);
    FollowerAnswers(cfg, s0, a, f, s.clock);
    var b := Replied(a, f, s.clock);
    e := Settling(cfg, s0, b, b.rounds[s.clock], f);
  }

  // ---- Replicas that part ----

  /** From every valid start with a second node: a write that times out after one follower ran it leaves that
      follower's store ahead of the leader's, which is what TimeoutsNeutral excludes. */
  lemma ReplicasPart(cfg: Config, cmd: Command) returns (e: Epoch)
    requires ValidConfig(cfg) && cfg.leader == 0 && cfg.n >= 2
    requires Execute(cfg.seed, cmd).Done? && After(cfg.seed, cmd) != cfg.seed
    ensures Reachable(cfg, e) && e.replies == [Timeout] && |e.rounds| == 1 && |e.nodes| == cfg.n
    ensures e.store == cfg.seed && e.nodes[1].store == After(cfg.seed, cmd) != e.store
    ensures !TimeoutsNeutral(cfg, e)
  {
    var i := AllConnected(cfg);
    StartsConnected(cfg);
    LaterItself(cfg, i);
    FreshSpawnIsIdle(i.docks[1]);
    e := TimesOutAfter(cfg, i, i, cmd, 1);
    LaterIsReachable(cfg, i, e);
    assert e.rounds[0].cmd == cmd;
  }

  // ---- Counts that go wrong do so in a run ----

  /** These followers have nothing else to do and would run the command. */
  ghost predicate Free(s: Epoch, f: set<int>) {
    && |s.docks| == |s.nodes| && Busy(s)
    && (forall id :: id in f ==> 0 <= id < |s.docks| && Idle(s.docks[id], s.clock) && Served(s, id, s.clock).1)
  }

  /** Any set of free followers that passes the majority of a freshly opened round gets it acknowledged, by
      some of them and nobody else. */
  lemma PassingIsReached(cfg: Config, s: Epoch, cmd: Command, f: set<int>) returns (e: Epoch)
    requires ValidConfig(cfg) && Free(s, f) && Execute(s.store, cmd).Done?
    requires Current(s) == Opened(cmd, WeightsAt(s, s.clock), Current(s).base)
    requires Passing(cfg.n, cfg.leader, Current(s).weights, Current(s).base, cfg.majority, f)
    ensures Later(cfg, s, e) && e.replies == s.replies + [Ok] && |e.rounds| == |s.rounds|
    ensures var r := e.rounds[s.clock];
      r.weights == Current(s).weights && r.counted <= |r.queue| && First(r.queue, r.counted) <= f
  {
    var ids := ListSet(f, cfg.n);
    FirstIsMembers(ids, |ids|);
    ListedFollowers(cfg.n, cfg.leader, ids, f);
    RunningSumIsWeigh(Current(s).weights, ids, |ids|, cfg.n);
    DistinctFewer(ids, cfg.n, cfg.leader);
    ListedCanRun(s, ids, f);
    LaterItself(cfg, s);
    var m;
    e, m := RoundSucceeds(cfg, s, s, cmd, ids);
    FirstIsMembers(ids[..m], m);
    assert Members(ids[..m]) <= Members(ids);
  }

  lemma ListedCanRun(s: Epoch, ids: seq<int>, f: set<int>)
    requires Free(s, f) && Distinct(ids) && Members(ids) == f
    ensures CanRun(s, ids)
  {
    forall i | 0 <= i < |ids|
      ensures ids[i] in f
    {
    }
  }

  /** A misleading set of free followers leads to an acknowledged round that was no weighted quorum. */
  lemma MisleadingIsReached(cfg: Config, s: Epoch, cmd: Command, f: set<int>) returns (e: Epoch)
    requires ValidConfig(cfg) && Reachable(cfg, s) && Free(s, f) && Execute(s.store, cmd).Done?
    requires Current(s) == Opened(cmd, WeightsAt(s, s.clock), Current(s).base)
    requires Misleading(cfg.n, cfg.leader, Current(s).weights, Current(s).base, cfg.majority, f)
    ensures Reachable(cfg, e) && e.replies == s.replies + [Ok] && |e.rounds| == |s.rounds|
    ensures var r := e.rounds[s.clock];
      r.counted <= |r.queue| && !Quorum(r.weights, Counted(cfg.leader, r), cfg.n, cfg.majority)
  {
    e := PassingIsReached(cfg, s, cmd, f);
    LaterIsReachable(cfg, s, e);
    ReachableInv(cfg, s);
    WeightsNonNegative(cfg, s, s.clock);
    NoQuorumWithin(cfg.n, cfg.leader, Current(s).weights, cfg.majority, f, e.rounds[s.clock]);
  }

  lemma NoQuorumWithin(n: nat, leader: int, w: map<int, real>, majority: real, f: set<int>, r: Round)
    requires 0 <= leader < n && NonNegative(w) && f <= Ids(n) - {leader}
    requires Weigh(w, f, n) + Lookup(w, leader) <= majority
    requires r.weights == w && r.counted <= |r.queue| && First(r.queue, r.counted) <= f
    ensures !Quorum(w, Counted(leader, r), n, majority)
  {
    WeighSubset(w, First(r.queue, r.counted), f, n);
    WeighInsert(w, First(r.queue, r.counted), leader, n);
    assert First(r.queue, r.counted) + {leader} == Counted(leader, r);
  }

  /** And fewer than t free followers that pass lead to one acknowledged by at most t nodes. */
  lemma FewAreReached(cfg: Config, s: Epoch, cmd: Command, f: set<int>) returns (e: Epoch)
    requires ValidConfig(cfg) && Reachable(cfg, s) && Free(s, f) && |f| < cfg.t && Execute(s.store, cmd).Done?
    requires Current(s) == Opened(cmd, WeightsAt(s, s.clock), Current(s).base)
    requires Passing(cfg.n, cfg.leader, Current(s).weights, Current(s).base, cfg.majority, f)
    ensures Reachable(cfg, e) && e.replies == s.replies + [Ok] && |e.rounds| == |s.rounds|
    ensures var r := e.rounds[s.clock]; r.counted <= |r.queue| && |Counted(cfg.leader, r)| <= cfg.t
  {
    e := PassingIsReached(cfg, s, cmd, f);
    LaterIsReachable(cfg, s, e);
    var heard := First(e.rounds[s.clock].queue, e.rounds[s.clock].counted);
    SubsetCount(heard, f);
    assert |{cfg.leader} + heard| <= 1 + |heard|;
  }

  // ---- A clock without a map ----

  /** From every valid start with a second node and other leaders about: node 1 answers, its heartbeat makes it
      the leader id, and the re-ranking after that round fails. */
  lemma ClockGoesUnranked(cfg: Config, cmd: Command) returns (e: Epoch)
    requires ValidConfig(cfg) && !cfg.alone && cfg.leader == 0 && cfg.n >= 2 && Execute(cfg.seed, cmd).Done?
    ensures Reachable(cfg, e) && e.clock == 1 && |e.rounds| == |e.rankIds| == 1 && |e.weights| == 2
    ensures e.weights[1] == map[] && !Ranked(cfg, e, 1)
  {
    var i := AllConnected(cfg);
    StartsConnected(cfg);
    LaterItself(cfg, i);
    FreshSpawnIsIdle(i.docks[1]);
    var a := TimesOutAfter(cfg, i, i, cmd, 1);
    LaterStill(cfg, i, a, DisturbLeader(1, cfg.scheme[0], a.store));
    var b := a.(leaderID := 1, prioVal := cfg.scheme[0]);
    FailsIffLeaderReplied(cfg.n, [1], 1);
    Reranking(cfg, i, b, [], map[]);
    e := AfterRerank(b, map[]);
    LaterIsReachable(cfg, i, e);
  }

  // ---- Stock for longer runs ----

  /** The dock of a connected follower in its first round. */
  function FirstDock(): Dock {
    Dock(true, false, [Spawned], map[], [], {}, [], map[])
  }

  lemma FirstDockIsIdle()
    ensures Idle(FirstDock(), 0)
  {
    var d := Dock(true, false, [], map[], [], {}, [], map[]);
    FreshSpawnIsIdle(d);
    assert Moved(d, Spawn) == FirstDock();
  }

  lemma PairCanRun(e: Epoch, x: nat, y: nat)
    requires Busy(e) && |e.docks| == |e.nodes| && x < |e.docks| && y < |e.docks| && x != y
    requires Idle(e.docks[x], e.clock) && Served(e, x, e.clock).1
    requires Idle(e.docks[y], e.clock) && Served(e, y, e.clock).1
    ensures CanRun(e, [x, y])
  {
  }

  /** What matters of a start with everyone connected and a leader with the heaviest weight. */
  ghost predicate Begins(cfg: Config, i: Epoch) {
    && |i.docks| == |i.nodes| == cfg.n == |cfg.scheme| && cfg.n >= 5 && i.clock == 0 && i.rounds == []
    && i.weights == [InitialWeights(cfg.scheme)] && i.rankIds == [] && i.prioVal == cfg.scheme[0]
    && i.leaderID == cfg.leader && i.store == cfg.seed && i.replies == []
    && (forall f :: 0 < f < cfg.n ==> Moved(i.docks[f], Spawn) == FirstDock() && |i.docks[f].tasks| == 0)
    && (forall f :: 0 <= f < cfg.n ==> i.nodes[f] == Node(Prio(0, cfg.scheme[f]), cfg.seed))
  }

  lemma StartBegins(cfg: Config)
    requires ValidConfig(cfg) && cfg.leader == 0 && cfg.n >= 5
    ensures Begins(cfg, AllConnected(cfg)) && Reachable(cfg, AllConnected(cfg)) && Idle(FirstDock(), 0)
  {
    FirstDockIsIdle();
    StartsConnected(cfg);
    StartDocks(cfg);
  }

  lemma StartDocks(cfg: Config)
    requires cfg.leader == 0 && cfg.n == |cfg.scheme| > 0
    ensures forall f :: 0 < f < cfg.n ==>
      Moved(AllConnected(cfg).docks[f], Spawn) == FirstDock() && |AllConnected(cfg).docks[f].tasks| == 0
  {
    forall f | 0 < f < cfg.n
      ensures Moved(AllConnected(cfg).docks[f], Spawn) == FirstDock() && |AllConnected(cfg).docks[f].tasks| == 0
    {
    }
  }
}
