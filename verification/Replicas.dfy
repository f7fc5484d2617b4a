/** The initial leader's undisturbed epoch: no stale rounds, the right weights, and replicas that agree. */
module Replicas {
  import opened Weights
  import opened KVStore
  import opened PriorityStates
  import opened JobQueue
  import opened Rounds
  import opened Epochs
  import opened EpochInvariants
  import opened EpochTheorems

  function Commands(rounds: seq<Round>): seq<Command> {
    seq(|rounds|, i requires 0 <= i < |rounds| => rounds[i].cmd)
  }

  /** The store after the first k rounds' commands, each applied where it applies. */
  function History(cfg: Config, s: Epoch, k: nat): Store
    requires k <= |s.rounds|
  {
    Replay(cfg.seed, Commands(s.rounds), k)
  }

  /** The clock of the last call a follower ran, 0 before the first. */
  function LastClock(d: Dock): nat {
    if d.execs == [] then 0 else |d.execs| - 1
  }

  /** What a follower answered is what the history says of the command. */
  ghost predicate OutcomesOk(cfg: Config, s: Epoch, d: Dock) {
    && |d.execs| <= |s.rounds| && LastClock(d) < |s.weights|
    && (forall k :: 0 <= k < |d.execs| ==>
          k in d.outcome && d.outcome[k] == Execute(History(cfg, s, k), s.rounds[k].cmd).Done?)
  }

  /** A follower has replayed exactly the calls it ran and holds the manager's weight of the last. */
  ghost predicate FollowerOk(cfg: Config, s: Epoch, f: nat)
    requires f < |s.docks| && f < |s.nodes|
  {
    var d, node := s.docks[f], s.nodes[f];
    && OutcomesOk(cfg, s, d)
    && node.store == History(cfg, s, |d.execs|)
    && node.prio == Prio(LastClock(d), Lookup(s.weights[LastClock(d)], f))
  }

  ghost predicate FollowersOk(cfg: Config, s: Epoch)
    requires Shape(cfg, s)
  {
    forall f :: 0 <= f < cfg.n ==> FollowerOk(cfg, s, f)
  }

  /** The store of the leader after its first k answers: timed-out rounds do not reach it. */
  function LeaderReplay(cfg: Config, s: Epoch, k: nat): Store
    requires k <= |s.replies| && k <= |s.rounds|
  {
    if k == 0 then cfg.seed
    else if s.replies[k - 1] == Timeout then LeaderReplay(cfg, s, k - 1)
    else After(LeaderReplay(cfg, s, k - 1), s.rounds[k - 1].cmd)
  }

  function ReplyFor(result: ExecResult): Reply {
    match result
    case Done(_) => Ok
    case Failed(e) => Reply.ExecError(e)
  }

  /** A round that met a quorum carried a command that applies to the history, and was answered with what
      became of it on the leader. */
  ghost predicate AnswerOk(cfg: Config, s: Epoch, k: nat)
    requires k < |s.replies| && k < |s.rounds|
  {
    s.replies[k] != Timeout ==>
      && Execute(History(cfg, s, k), s.rounds[k].cmd).Done?
      && s.replies[k] == ReplyFor(Execute(LeaderReplay(cfg, s, k), s.rounds[k].cmd))
  }

  ghost predicate LeaderOk(cfg: Config, s: Epoch)
    requires |s.replies| <= |s.rounds|
  {
    && s.store == LeaderReplay(cfg, s, |s.replies|)
    && (forall k :: 0 <= k < |s.replies| ==> AnswerOk(cfg, s, k))
  }

  ghost predicate ReplicaInv(cfg: Config, s: Epoch) {
    && EpochInv(cfg, s)
    && FollowersOk(cfg, s)
    && |s.replies| <= |s.rounds|
    && LeaderOk(cfg, s)
  }

  // ---- Frame ----

  lemma HistoryKept(cfg: Config, s: Epoch, e: Epoch, k: nat)
    requires k <= |s.rounds| <= |e.rounds|
    requires forall i :: 0 <= i < |s.rounds| ==> e.rounds[i].cmd == s.rounds[i].cmd
    ensures History(cfg, e, k) == History(cfg, s, k)
  {
    ReplayPrefix(cfg.seed, Commands(s.rounds), Commands(e.rounds), k);
  }

  lemma FollowerKept(cfg: Config, s: Epoch, e: Epoch, f: nat)
    requires f < |s.docks| && f < |s.nodes| && f < |e.docks| && f < |e.nodes|
    requires FollowerOk(cfg, s, f)
    requires |s.rounds| <= |e.rounds| && s.weights <= e.weights && e.nodes[f] == s.nodes[f]
    requires forall i :: 0 <= i < |s.rounds| ==> e.rounds[i].cmd == s.rounds[i].cmd
    requires e.docks[f].execs == s.docks[f].execs && e.docks[f].outcome == s.docks[f].outcome
    ensures FollowerOk(cfg, e, f)
  {
    HistoryKept(cfg, s, e, |s.docks[f].execs|);
    forall k | 0 <= k < |s.docks[f].execs|
      ensures History(cfg, e, k) == History(cfg, s, k)
    {
      HistoryKept(cfg, s, e, k);
    }
  }

  lemma {:induction false} LeaderReplayKept(cfg: Config, s: Epoch, e: Epoch, k: nat)
    requires k <= |s.replies| <= |s.rounds| <= |e.rounds| && s.replies <= e.replies
    requires forall i :: 0 <= i < |s.rounds| ==> e.rounds[i].cmd == s.rounds[i].cmd
    ensures LeaderReplay(cfg, e, k) == LeaderReplay(cfg, s, k)
  {
    if k > 0 {
      LeaderReplayKept(cfg, s, e, k - 1);
    }
  }

  lemma AnswerKept(cfg: Config, s: Epoch, e: Epoch, k: nat)
    requires k < |s.replies| <= |s.rounds| <= |e.rounds| && s.replies <= e.replies && AnswerOk(cfg, s, k)
    requires forall i :: 0 <= i < |s.rounds| ==> e.rounds[i].cmd == s.rounds[i].cmd
    ensures AnswerOk(cfg, e, k)
  {
    HistoryKept(cfg, s, e, k);
    LeaderReplayKept(cfg, s, e, k);
  }

  lemma LeaderKept(cfg: Config, s: Epoch, e: Epoch)
    requires |s.replies| <= |s.rounds| <= |e.rounds| && LeaderOk(cfg, s)
    requires forall i :: 0 <= i < |s.rounds| ==> e.rounds[i].cmd == s.rounds[i].cmd
    requires e.store == s.store && e.replies == s.replies
    ensures LeaderOk(cfg, e)
  {
    LeaderReplayKept(cfg, s, e, |s.replies|);
    forall k | 0 <= k < |e.replies|
      ensures AnswerOk(cfg, e, k)
    {
      AnswerKept(cfg, s, e, k);
    }
  }

  // ---- Steps ----

  lemma InitReplicas(cfg: Config, s: Epoch)
    requires ValidConfig(cfg) && cfg.alone && Init(cfg, s)
    ensures ReplicaInv(cfg, s)
  {
    InitInv(cfg, s);
  }

  /** The call on the wire is the follower's next: it is accepted and carries the manager's weight. */
  lemma NextCall(cfg: Config, s: Epoch, f: nat, k: nat)
    requires ValidConfig(cfg) && EpochInv(cfg, s) && FollowersOk(cfg, s)
    requires f < |s.docks| && f < |s.nodes| && k in s.docks[f].inFlight
    ensures k == |s.docks[f].execs| < |s.rounds| && k < |s.weights| && s.rounds[k].weights == s.weights[k]
    ensures Accepts(s.nodes[f].prio, k) && s.nodes[f].store == History(cfg, s, k) && OutcomesOk(cfg, s, s.docks[f])
  {
    assert FollowerOk(cfg, s, f);
    assert RoundOk(cfg, s, k);
  }

  /** What a handler changes: one more call run and answered, and the node it leaves. */
  predicate Handled(s: Epoch, f: nat, k: nat, ok: bool, e: Epoch)
    requires f < |s.docks| && f < |s.nodes| && k < |s.rounds| && f < |e.docks| && f < |e.nodes|
  {
    && e.docks[f].execs == s.docks[f].execs + [k] && e.docks[f].outcome == s.docks[f].outcome[k := ok]
    && e.nodes[f] == Served(s, f, k).0 && ok == Served(s, f, k).1
    && e.rounds == s.rounds && e.weights == s.weights
  }

  lemma HandleIs(cfg: Config, s: Epoch, f: nat, step: DockStep, e: Epoch)
    requires TaskEnabled(cfg, s, f, step) && step.Handle? && e == ApplyTask(cfg, s, f, step)
    ensures |e.docks| == |s.docks| && |e.nodes| == |s.nodes| && Handled(s, f, step.k, step.ok, e)
  {
  }

  /** The history is one command longer where the follower's store now stands. */
  lemma OneMoreCommand(cfg: Config, s: Epoch, e: Epoch, k: nat)
    requires k < |s.rounds| && e.rounds == s.rounds
    ensures History(cfg, e, k) == History(cfg, s, k)
    ensures History(cfg, e, k + 1) == After(History(cfg, s, k), s.rounds[k].cmd)
  {
  }

  lemma SameHistory(cfg: Config, s: Epoch, e: Epoch, k: nat)
    requires k <= |s.rounds| && e.rounds == s.rounds
    ensures History(cfg, e, k) == History(cfg, s, k)
  {
  }

  lemma OutcomeAppended(execs: seq<nat>, outcome: map<nat, bool>, k: nat, ok: bool, i: nat)
    requires i < |execs + [k]| && k == |execs| && (i < k ==> i in outcome)
    ensures i in outcome[k := ok] && outcome[k := ok][i] == if i < k then outcome[i] else ok
  {
  }

  lemma OutcomeAt(cfg: Config, s: Epoch, f: nat, k: nat, ok: bool, e: Epoch, i: nat)
    requires f < |s.docks| && f < |s.nodes| && f < |e.docks| && f < |e.nodes|
    requires k == |s.docks[f].execs| < |s.rounds| && Handled(s, f, k, ok, e) && i <= k
    requires OutcomesOk(cfg, s, s.docks[f]) && ok == Execute(History(cfg, s, k), s.rounds[k].cmd).Done?
    ensures i in e.docks[f].outcome && e.docks[f].outcome[i] == Execute(History(cfg, e, i), e.rounds[i].cmd).Done?
  {
    var d := s.docks[f];
    OutcomeAppended(d.execs, d.outcome, k, ok, i);
    SameHistory(cfg, s, e, i);
  }

  lemma HandleKeepsOutcomes(cfg: Config, s: Epoch, f: nat, k: nat, ok: bool, e: Epoch)
    requires f < |s.docks| && f < |s.nodes| && f < |e.docks| && f < |e.nodes|
    requires k == |s.docks[f].execs| < |s.rounds| && k < |s.weights| && Handled(s, f, k, ok, e)
    requires OutcomesOk(cfg, s, s.docks[f]) && ok == Execute(History(cfg, s, k), s.rounds[k].cmd).Done?
    ensures OutcomesOk(cfg, e, e.docks[f])
  {
    forall i | 0 <= i < |e.docks[f].execs|
      ensures i in e.docks[f].outcome && e.docks[f].outcome[i] == Execute(History(cfg, e, i), e.rounds[i].cmd).Done?
    {
      OutcomeAt(cfg, s, f, k, ok, e, i);
    }
  }

  /** The handler of the next call accepts it, replays it and takes the manager's weight. */
  lemma HandleKeeps(cfg: Config, s: Epoch, f: nat, k: nat, ok: bool, e: Epoch)
    requires ValidConfig(cfg) && EpochInv(cfg, s) && FollowersOk(cfg, s)
    requires f < |s.docks| && f < |s.nodes| && f < |e.docks| && f < |e.nodes|
    requires k in s.docks[f].inFlight && k < |s.rounds| && Handled(s, f, k, ok, e)
    ensures FollowerOk(cfg, e, f)
  {
    NextCall(cfg, s, f, k);
    HandledIsOk(cfg, s, f, k, ok, e);
  }

  lemma HandledIsOk(cfg: Config, s: Epoch, f: nat, k: nat, ok: bool, e: Epoch)
    requires f < |s.docks| && f < |s.nodes| && f < |e.docks| && f < |e.nodes|
    requires k == |s.docks[f].execs| < |s.rounds| && k < |s.weights| && s.rounds[k].weights == s.weights[k]
    requires OutcomesOk(cfg, s, s.docks[f]) && s.nodes[f].store == History(cfg, s, k)
    requires Accepts(s.nodes[f].prio, k) && Handled(s, f, k, ok, e)
    ensures FollowerOk(cfg, e, f)
  {
    HandleKeepsOutcomes(cfg, s, f, k, ok, e);
    OneMoreCommand(cfg, s, e, k);
  }

  lemma TaskKeepsCommands(cfg: Config, s: Epoch, f: nat, step: DockStep)
    requires TaskEnabled(cfg, s, f, step)
    ensures var e := ApplyTask(cfg, s, f, step);
      forall i :: 0 <= i < |s.rounds| ==> e.rounds[i].cmd == s.rounds[i].cmd
  {
  }

  lemma TaskLeavesFollower(cfg: Config, s: Epoch, f: nat, step: DockStep, e: Epoch, g: nat)
    requires TaskEnabled(cfg, s, f, step) && e == ApplyTask(cfg, s, f, step)
    requires g < |s.docks| && g < |s.nodes| && !(g == f && step.Handle?)
    ensures e.nodes[g] == s.nodes[g]
    ensures e.docks[g].execs == s.docks[g].execs && e.docks[g].outcome == s.docks[g].outcome
  {
  }

  lemma TaskKeepsFollower(cfg: Config, s: Epoch, f: nat, step: DockStep, e: Epoch, g: nat)
    requires ValidConfig(cfg) && EpochInv(cfg, s) && FollowersOk(cfg, s) && TaskEnabled(cfg, s, f, step)
    requires e == ApplyTask(cfg, s, f, step) && g < cfg.n
    ensures FollowerOk(cfg, e, g)
  {
    assert FollowerOk(cfg, s, g);
    if g == f && step.Handle? {
      HandleIs(cfg, s, f, step, e);
      HandleKeeps(cfg, s, f, step.k, step.ok, e);
    } else {
      TaskFrame(cfg, s, f, step);
      TaskKeepsCommands(cfg, s, f, step);
      TaskLeavesFollower(cfg, s, f, step, e, g);
      FollowerKept(cfg, s, e, g);
    }
  }

  lemma TaskKeepsReplicas(cfg: Config, s: Epoch, f: nat, step: DockStep)
    requires ValidConfig(cfg) && ReplicaInv(cfg, s) && TaskEnabled(cfg, s, f, step)
    ensures ReplicaInv(cfg, ApplyTask(cfg, s, f, step))
  {
    var e := ApplyTask(cfg, s, f, step);
    TaskKeeps(cfg, s, f, step);
    forall g | 0 <= g < cfg.n
      ensures FollowerOk(cfg, e, g)
    {
      TaskKeepsFollower(cfg, s, f, step, e, g);
    }
    TaskKeepsLeader(cfg, s, f, step, e);
  }

  lemma TaskKeepsLeader(cfg: Config, s: Epoch, f: nat, step: DockStep, e: Epoch)
    requires |s.replies| <= |s.rounds| && LeaderOk(cfg, s) && TaskEnabled(cfg, s, f, step)
    requires e == ApplyTask(cfg, s, f, step)
    ensures |e.replies| <= |e.rounds| && LeaderOk(cfg, e)
  {
    TaskFrame(cfg, s, f, step);
    TaskKeepsCommands(cfg, s, f, step);
    LeaderKept(cfg, s, e);
  }

  /** A quorate round's command applies on the leader too: some follower ran it on the same history. */
  lemma QuorateApplies(cfg: Config, s: Epoch)
    requires ValidConfig(cfg) && EpochInv(cfg, s) && FollowersOk(cfg, s) && Busy(s) && Current(s).status.Quorate?
    ensures Execute(History(cfg, s, s.clock), Current(s).cmd).Done?
  {
    var r := Current(s);
    assert RoundOk(cfg, s, s.clock);
    var f := r.queue[0];
    InFirst(r.queue, r.counted, f);
    CountedSucceeded(cfg, s, s.clock, f);
    assert FollowerOk(cfg, s, f);
  }

  /** The commit step appends one answer and runs the command unless the round timed out. */
  lemma DecisionIs(cfg: Config, s: Epoch, e: Epoch)
    requires Enabled(cfg, s, Decide) && e == Apply(cfg, s, Decide) && |s.replies| == s.clock
    ensures |e.rounds| == |s.rounds| && forall i :: 0 <= i < |s.rounds| ==> e.rounds[i].cmd == s.rounds[i].cmd
    ensures var r := Current(s);
      if r.status.Quorate? then
        && e.store == After(s.store, r.cmd) && e.replies == s.replies + [ReplyFor(Execute(s.store, r.cmd))]
      else e.store == s.store && e.replies == s.replies + [Timeout]
  {
  }

  /** The commit step on the leader's store, given that a quorate command applies to the history. */
  lemma DecisionKeepsLeader(cfg: Config, s: Epoch, e: Epoch)
    requires Enabled(cfg, s, Decide) && e == Apply(cfg, s, Decide)
    requires |s.replies| == s.clock && LeaderOk(cfg, s)
    requires Current(s).status.Quorate? ==> Execute(History(cfg, s, s.clock), Current(s).cmd).Done?
    ensures LeaderOk(cfg, e)
  {
    var k := s.clock;
    DecisionIs(cfg, s, e);
    LeaderReplayKept(cfg, s, e, k);
    HistoryKept(cfg, s, e, k);
    forall i | 0 <= i < |e.replies|
      ensures AnswerOk(cfg, e, i)
    {
      if i < k {
        AnswerKept(cfg, s, e, i);
      }
    }
  }

  lemma DecideKeepsReplicas(cfg: Config, s: Epoch)
    requires ValidConfig(cfg) && ReplicaInv(cfg, s) && Enabled(cfg, s, Decide)
    ensures ReplicaInv(cfg, Apply(cfg, s, Decide))
  {
    var e := Apply(cfg, s, Decide);
    DecideKeeps(cfg, s, Decide);
    if Current(s).status.Quorate? {
      QuorateApplies(cfg, s);
    }
    DecisionKeepsLeader(cfg, s, e);
    FollowersKept(cfg, s, e);
  }

  predicate LoopStep(step: Step) {
    step.TakeCommand? || step.Receive? || step.Expire? || step.Drain? || step.Rerank?
  }

  /** What the round loop's steps leave of everyone else's state. */
  lemma LoopFrame(cfg: Config, s: Epoch, step: Step)
    requires Shape(cfg, s) && Enabled(cfg, s, step) && LoopStep(step)
    ensures var e := Apply(cfg, s, step);
      && e.nodes == s.nodes && e.store == s.store && e.replies == s.replies
      && |s.rounds| <= |e.rounds| && s.weights <= e.weights && |e.docks| == |s.docks|
      && (forall i :: 0 <= i < |s.rounds| ==> e.rounds[i].cmd == s.rounds[i].cmd)
      && (forall f :: 0 <= f < cfg.n ==>
            e.docks[f].execs == s.docks[f].execs && e.docks[f].outcome == s.docks[f].outcome)
  {
  }

  lemma FollowersKept(cfg: Config, s: Epoch, e: Epoch)
    requires Shape(cfg, s) && FollowersOk(cfg, s) && Shape(cfg, e)
    requires |s.rounds| <= |e.rounds| && s.weights <= e.weights && e.nodes == s.nodes
    requires forall i :: 0 <= i < |s.rounds| ==> e.rounds[i].cmd == s.rounds[i].cmd
    requires forall f :: 0 <= f < cfg.n ==>
      e.docks[f].execs == s.docks[f].execs && e.docks[f].outcome == s.docks[f].outcome
    ensures FollowersOk(cfg, e)
  {
    forall f | 0 <= f < cfg.n
      ensures FollowerOk(cfg, e, f)
    {
      assert FollowerOk(cfg, s, f);
      FollowerKept(cfg, s, e, f);
    }
  }

  lemma LoopKeepsReplicas(cfg: Config, s: Epoch, step: Step)
    requires ValidConfig(cfg) && ReplicaInv(cfg, s) && Enabled(cfg, s, step) && LoopStep(step)
    ensures ReplicaInv(cfg, Apply(cfg, s, step))
  {
    var e := Apply(cfg, s, step);
    StepKeepsInv(cfg, s, step);
    LoopFrame(cfg, s, step);
    LeaderKept(cfg, s, e);
    FollowersKept(cfg, s, e);
  }

  lemma StepKeepsReplicas(cfg: Config, s: Epoch, step: Step, e: Epoch)
    requires ValidConfig(cfg) && cfg.alone && ReplicaInv(cfg, s) && Next(cfg, s, step, e)
    ensures ReplicaInv(cfg, e)
  {
    match step {
      case Task(f, dockStep) => TaskKeepsReplicas(cfg, s, f, dockStep);
      case Decide => DecideKeepsReplicas(cfg, s);
      case _ => LoopKeepsReplicas(cfg, s, step);
    }
  }

  lemma {:induction false} RunReplicas(cfg: Config, run: Trace)
    requires ValidConfig(cfg) && cfg.alone && Run(cfg, run)
    ensures ReplicaInv(cfg, run.last)
  {
    match run {
      case Start(s) => InitReplicas(cfg, s);
      case Then(before, step, s) =>
        RunReplicas(cfg, before);
        StepKeepsReplicas(cfg, before.last, step, s);
    }
  }

  lemma ReachableReplicas(cfg: Config, s: Epoch)
    requires ValidConfig(cfg) && cfg.alone && Reachable(cfg, s)
    ensures ReplicaInv(cfg, s)
  {
    var run :| Run(cfg, run) && run.last == s;
    RunReplicas(cfg, run);
  }

  // ---- Theorems ----

  /** No call is ever rejected as stale. */
  lemma NoCallIsStale(cfg: Config, s: Epoch, f: nat, k: nat)
    requires ValidConfig(cfg) && cfg.alone && Reachable(cfg, s)
    requires f < |s.docks| && f < |s.nodes| && k in s.docks[f].inFlight
    ensures Accepts(s.nodes[f].prio, k)
  {
    ReachableReplicas(cfg, s);
    assert FollowerOk(cfg, s, f);
  }

  lemma EveryoneWeighs(cfg: Config, s: Epoch, k: nat, f: nat)
    requires ValidConfig(cfg) && cfg.alone && EpochInv(cfg, s) && k <= s.clock && f < cfg.n
    ensures f in s.weights[k]
  {
    AloneOwnsTopWeight(cfg, s, k);
    OwnIsRanked(cfg, s, k);
    var order := RankingOf(cfg, s, k);
  }

  /** A follower that ran a call holds exactly the manager's weight for it at that call's clock. */
  lemma FollowerHoldsManagersWeight(cfg: Config, s: Epoch, f: nat)
    requires ValidConfig(cfg) && cfg.alone && Reachable(cfg, s)
    requires f < |s.docks| && f < |s.nodes|
    ensures var k := LastClock(s.docks[f]);
      && k < |s.weights| && f in s.weights[k]
      && s.nodes[f].prio == Prio(k, s.weights[k][f])
  {
    ReachableReplicas(cfg, s);
    assert FollowerOk(cfg, s, f);
    EveryoneWeighs(cfg, s, LastClock(s.docks[f]), f);
  }

  // ---- Agreement ----

  /** Every round that timed out carried a command that changes nothing at its place in the history. */
  ghost predicate TimeoutsNeutral(cfg: Config, s: Epoch)
    requires |s.replies| <= |s.rounds|
  {
    forall k :: 0 <= k < |s.replies| && s.replies[k] == Timeout ==>
      After(History(cfg, s, k), s.rounds[k].cmd) == History(cfg, s, k)
  }

  lemma HistoryStep(cfg: Config, s: Epoch, k: nat)
    requires k < |s.rounds|
    ensures History(cfg, s, k + 1) == After(History(cfg, s, k), s.rounds[k].cmd)
  {
  }

  lemma {:induction false} NeutralAgrees(cfg: Config, s: Epoch, k: nat)
    requires k <= |s.replies| <= |s.rounds| && TimeoutsNeutral(cfg, s)
    ensures LeaderReplay(cfg, s, k) == History(cfg, s, k)
  {
    if k > 0 {
      NeutralAgrees(cfg, s, k - 1);
      HistoryStep(cfg, s, k - 1);
    }
  }

  /** The leader stays on the followers' history at every answer if and only if each timed-out command
      changes nothing there. */
  lemma AgreementExact(cfg: Config, s: Epoch)
    requires |s.replies| <= |s.rounds|
    ensures (forall k :: 0 <= k <= |s.replies| ==> LeaderReplay(cfg, s, k) == History(cfg, s, k))
        <==> TimeoutsNeutral(cfg, s)
  {
    if TimeoutsNeutral(cfg, s) {
      forall k | 0 <= k <= |s.replies|
        ensures LeaderReplay(cfg, s, k) == History(cfg, s, k)
      {
        NeutralAgrees(cfg, s, k);
      }
    } else {
      var k :| 0 <= k < |s.replies| && s.replies[k] == Timeout
               && After(History(cfg, s, k), s.rounds[k].cmd) != History(cfg, s, k);
      HistoryStep(cfg, s, k);
      assert LeaderReplay(cfg, s, k + 1) == LeaderReplay(cfg, s, k);
    }
  }

  /** In every run each follower, however slow and even when its connection failed, has replayed a prefix of
      the commands, and the leader exactly the commands whose rounds met a quorum. */
  lemma WhatReplicasHold(cfg: Config, s: Epoch, f: nat)
    requires ValidConfig(cfg) && cfg.alone && Reachable(cfg, s)
    requires f < |s.docks| && f < |s.nodes| && |s.replies| <= |s.rounds|
    ensures |s.docks[f].execs| <= |s.rounds|
    ensures s.nodes[f].store == History(cfg, s, |s.docks[f].execs|)
    ensures s.store == LeaderReplay(cfg, s, |s.replies|)
    ensures forall k :: 0 <= k < |s.replies| && s.replies[k] != Timeout ==>
      s.replies[k] == ReplyFor(Execute(LeaderReplay(cfg, s, k), s.rounds[k].cmd))
  {
    ReachableReplicas(cfg, s);
    assert FollowerOk(cfg, s, f);
    forall k | 0 <= k < |s.replies| && s.replies[k] != Timeout
      ensures s.replies[k] == ReplyFor(Execute(LeaderReplay(cfg, s, k), s.rounds[k].cmd))
    {
      assert AnswerOk(cfg, s, k);
    }
  }

  /** Replicas agree: when no timed-out command would have changed anything, the leader's store after its
      answers is each follower's after as many calls, and the leader's own execution never failed. */
  lemma ReplicasAgree(cfg: Config, s: Epoch, f: nat)
    requires ValidConfig(cfg) && cfg.alone && Reachable(cfg, s)
    requires f < |s.docks| && f < |s.nodes| && |s.replies| <= |s.rounds| && TimeoutsNeutral(cfg, s)
    ensures s.store == History(cfg, s, |s.replies|)
    ensures forall k :: 0 <= k < |s.replies| ==> !s.replies[k].ExecError?
    ensures |s.docks[f].execs| == |s.replies| ==> s.nodes[f].store == s.store
  {
    WhatReplicasHold(cfg, s, f);
    ReachableReplicas(cfg, s);
    NeutralAgrees(cfg, s, |s.replies|);
    forall k | 0 <= k < |s.replies|
      ensures !s.replies[k].ExecError?
    {
      assert AnswerOk(cfg, s, k);
      NeutralAgrees(cfg, s, k);
    }
  }
}
