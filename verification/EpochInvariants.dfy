/** What every step of an epoch keeps. */
module EpochInvariants {
  import opened Weights
  import opened PriorityManagers
  import opened KVStore
  import opened JobQueue
  import opened Rounds
  import opened Epochs

  ghost predicate Shape(cfg: Config, s: Epoch) {
    && cfg.leader < |s.docks| == |s.nodes| == cfg.n == |cfg.scheme|
    && |s.weights| == s.clock + 1 == |s.rankIds| + 1
    && s.clock <= |s.rounds| <= s.clock + 1
    && (forall f :: 0 <= f < cfg.n ==> DockInv(s.docks[f]) && |s.docks[f].tasks| == |s.rounds|)
    && !s.docks[cfg.leader].connected
  }

  /** The round of clock k was opened with the weights of clock k and counts honestly. */
  ghost predicate RoundOk(cfg: Config, s: Epoch, k: nat)
    requires k < |s.rounds| && k < |s.weights| && cfg.scheme != []
  {
    && s.rounds[k].weights == s.weights[k]
    && Tally(s.rounds[k], cfg.majority)
    && s.rounds[k].base <= cfg.scheme[0]
    && (cfg.alone ==> s.rounds[k].base == cfg.scheme[0])
    && (k < s.clock ==> Settled(s.rounds[k].status))
  }

  function Arrivals(r: Round): seq<int> {
    r.queue + r.inbox
  }

  /** The queue lists exactly the followers whose successful reply was delivered, once each. */
  ghost predicate Reported(queue: seq<int>, docks: seq<Dock>, k: nat) {
    && Distinct(queue)
    && (forall f :: f in queue <==> 0 <= f < |docks| && At(docks[f], k, Finished(true)))
  }

  ghost predicate ArrivalsOk(cfg: Config, s: Epoch, k: nat)
    requires k < |s.rounds| && |s.docks| == cfg.n
  {
    Reported(Arrivals(s.rounds[k]), s.docks, k)
  }

  /** Clock k+1 was ranked by the replies of round k, with the leader id read then. */
  ghost predicate RankedAfter(cfg: Config, s: Epoch, k: nat)
    requires k < |s.rounds| && k < |s.rankIds| && k + 1 < |s.weights| && cfg.scheme != []
  {
    Reranked(cfg, s.rounds[k].queue, s.rankIds[k], s.weights[k + 1])
  }

  ghost predicate Reranked(cfg: Config, queue: seq<int>, id: int, w: map<int, real>)
    requires cfg.scheme != []
  {
    exists rest :: Reranks(cfg, queue, id, rest, w)
  }

  ghost predicate RepliesOk(s: Epoch)
    requires s.clock <= |s.rounds|
  {
    && |s.replies| == s.clock + (if Busy(s) && Settled(Current(s).status) then 1 else 0)
    && (forall k :: 0 <= k < |s.replies| ==> Settled(s.rounds[k].status) && s.replies[k] == ReplyOf(s.rounds[k].status))
  }

  ghost predicate RoundsOk(cfg: Config, s: Epoch)
    requires Shape(cfg, s)
  {
    forall k :: 0 <= k < |s.rounds| ==> RoundOk(cfg, s, k) && ArrivalsOk(cfg, s, k)
  }

  ghost predicate WeightsOk(cfg: Config, s: Epoch)
    requires Shape(cfg, s)
  {
    && cfg.scheme != [] && s.weights[0] == InitialWeights(cfg.scheme)
    && (forall k :: 0 <= k < s.clock ==> RankedAfter(cfg, s, k))
  }

  ghost predicate OwnStateOk(cfg: Config, s: Epoch)
    requires cfg.scheme != []
  {
    && s.prioVal <= cfg.scheme[0]
    && (cfg.alone ==> s.prioVal == cfg.scheme[0] && s.leaderID == cfg.leader)
    && (cfg.alone ==> forall k :: 0 <= k < |s.rankIds| ==> s.rankIds[k] == cfg.leader)
  }

  ghost predicate EpochInv(cfg: Config, s: Epoch) {
    && Shape(cfg, s)
    && RoundsOk(cfg, s)
    && WeightsOk(cfg, s)
    && RepliesOk(s)
    && OwnStateOk(cfg, s)
  }

  lemma InitInv(cfg: Config, s: Epoch)
    requires ValidConfig(cfg) && Init(cfg, s)
    ensures EpochInv(cfg, s)
  {
    forall f | 0 <= f < cfg.n
      ensures DockInv(s.docks[f])
    {
      FreshInv(s.docks[f]);
    }
  }

  /** A round's replies are distinct followers, never the leader. */
  lemma RepliesAdmissible(cfg: Config, s: Epoch, k: nat)
    requires ValidConfig(cfg) && EpochInv(cfg, s) && k < |s.rounds|
    ensures Replies(cfg.n, cfg.leader, Arrivals(s.rounds[k]))
    ensures Replies(cfg.n, cfg.leader, s.rounds[k].queue)
    ensures |Arrivals(s.rounds[k])| < cfg.n
  {
    var q := Arrivals(s.rounds[k]);
    assert ArrivalsOk(cfg, s, k);
    forall i | 0 <= i < |q|
      ensures 0 <= q[i] < cfg.n
    {
      assert q[i] in q;
    }
    assert !At(s.docks[cfg.leader], k, Finished(true));
    DistinctFewer(q, cfg.n, cfg.leader);
    assert forall i :: 0 <= i < |s.rounds[k].queue| ==> s.rounds[k].queue[i] == q[i];
    assert cfg.leader in s.rounds[k].queue ==> cfg.leader in q;
  }

  // ---- Steps of the round loop ----

  lemma TakeCommandShape(cfg: Config, s: Epoch, cmd: Command, e: Epoch)
    requires ValidConfig(cfg) && Shape(cfg, s) && |s.rounds| == s.clock
    requires e == Apply(cfg, s, TakeCommand(cmd))
    ensures Shape(cfg, e)
  {
    forall f | 0 <= f < cfg.n
      ensures DockInv(e.docks[f]) && |e.docks[f].tasks| == |e.rounds|
    {
      DockInvKept(s.docks[f], Spawn);
    }
  }

  lemma TakeCommandOldRound(cfg: Config, s: Epoch, cmd: Command, e: Epoch, k: nat)
    requires ValidConfig(cfg) && EpochInv(cfg, s) && |s.rounds| == s.clock && k < s.clock
    requires e == Apply(cfg, s, TakeCommand(cmd)) && Shape(cfg, e)
    ensures RoundOk(cfg, e, k) && ArrivalsOk(cfg, e, k)
  {
    assert RoundOk(cfg, s, k) && ArrivalsOk(cfg, s, k);
    assert e.rounds[k] == s.rounds[k];
    forall f | 0 <= f < cfg.n
      ensures At(e.docks[f], k, Finished(true)) <==> At(s.docks[f], k, Finished(true))
    {
    }
  }

  lemma TakeCommandNewRound(cfg: Config, s: Epoch, cmd: Command, e: Epoch)
    requires ValidConfig(cfg) && EpochInv(cfg, s) && |s.rounds| == s.clock
    requires e == Apply(cfg, s, TakeCommand(cmd)) && Shape(cfg, e)
    ensures RoundOk(cfg, e, s.clock) && ArrivalsOk(cfg, e, s.clock)
  {
    OpenedTally(cmd, WeightsAt(s, s.clock), s.prioVal, cfg.majority);
  }

  lemma TakeCommandRounds(cfg: Config, s: Epoch, cmd: Command, e: Epoch)
    requires ValidConfig(cfg) && EpochInv(cfg, s) && |s.rounds| == s.clock
    requires e == Apply(cfg, s, TakeCommand(cmd)) && Shape(cfg, e)
    ensures RoundsOk(cfg, e)
  {
    forall k | 0 <= k < |e.rounds|
      ensures RoundOk(cfg, e, k) && ArrivalsOk(cfg, e, k)
    {
      if k < s.clock {
        TakeCommandOldRound(cfg, s, cmd, e, k);
      } else {
        TakeCommandNewRound(cfg, s, cmd, e);
      }
    }
  }

  /** The history of weights and queues is left alone by all steps but the re-ranking. */
  lemma WeightsKept(cfg: Config, s: Epoch, e: Epoch)
    requires Shape(cfg, s) && WeightsOk(cfg, s) && Shape(cfg, e)
    requires e.weights == s.weights && e.clock == s.clock && e.rankIds == s.rankIds
    requires forall k :: 0 <= k < s.clock ==> e.rounds[k].queue == s.rounds[k].queue
    ensures WeightsOk(cfg, e)
  {
    forall k | 0 <= k < e.clock
      ensures RankedAfter(cfg, e, k)
    {
      assert RankedAfter(cfg, s, k);
    }
  }

  lemma TakeCommandKeeps(cfg: Config, s: Epoch, step: Step)
    requires ValidConfig(cfg) && EpochInv(cfg, s) && step.TakeCommand? && Enabled(cfg, s, step)
    ensures EpochInv(cfg, Apply(cfg, s, step))
  {
    var e := Apply(cfg, s, step);
    TakeCommandShape(cfg, s, step.cmd, e);
    TakeCommandRounds(cfg, s, step.cmd, e);
    WeightsKept(cfg, s, e);
  }

  /** Steps that only rewrite the current round. */
  lemma CurrentRoundKeeps(cfg: Config, s: Epoch, e: Epoch)
    requires ValidConfig(cfg) && EpochInv(cfg, s) && Busy(s)
    requires e.docks == s.docks && e.weights == s.weights && e.clock == s.clock && e.rankIds == s.rankIds
    requires e.prioVal == s.prioVal && e.leaderID == s.leaderID && |e.nodes| == |s.nodes|
    requires |e.rounds| == |s.rounds| && forall k :: 0 <= k < s.clock ==> e.rounds[k] == s.rounds[k]
    requires Current(e).weights == Current(s).weights && Current(e).base == Current(s).base
    requires Tally(Current(e), cfg.majority)
    requires Arrivals(Current(e)) == Arrivals(Current(s))
    requires RepliesOk(e)
    ensures EpochInv(cfg, e)
  {
    forall k | 0 <= k < |e.rounds|
      ensures RoundOk(cfg, e, k) && ArrivalsOk(cfg, e, k)
    {
      assert RoundOk(cfg, s, k) && ArrivalsOk(cfg, s, k);
    }
    WeightsKept(cfg, s, e);
  }

  /** Moving a reply from the receiver to the priority queue loses and reorders nothing. */
  lemma MovingKeepsArrivals(r: Round, w: map<int, real>, majority: real)
    requires r.inbox != []
    ensures Arrivals(Received(r, w, majority)) == Arrivals(r) == Arrivals(Drained(r))
  {
  }

  lemma ReceiveKeeps(cfg: Config, s: Epoch)
    requires ValidConfig(cfg) && EpochInv(cfg, s) && Enabled(cfg, s, Receive)
    ensures EpochInv(cfg, Apply(cfg, s, Receive))
  {
    assert RoundOk(cfg, s, s.clock);
    ReceivedTally(Current(s), cfg.majority);
    MovingKeepsArrivals(Current(s), WeightsAt(s, s.clock), cfg.majority);
    CurrentRoundKeeps(cfg, s, Apply(cfg, s, Receive));
  }

  lemma DrainKeeps(cfg: Config, s: Epoch)
    requires ValidConfig(cfg) && EpochInv(cfg, s) && Enabled(cfg, s, Drain)
    ensures EpochInv(cfg, Apply(cfg, s, Drain))
  {
    assert RoundOk(cfg, s, s.clock);
    DrainedTally(Current(s), cfg.majority);
    MovingKeepsArrivals(Current(s), WeightsAt(s, s.clock), cfg.majority);
    CurrentRoundKeeps(cfg, s, Apply(cfg, s, Drain));
  }

  lemma ExpireKeeps(cfg: Config, s: Epoch)
    requires ValidConfig(cfg) && EpochInv(cfg, s) && Enabled(cfg, s, Expire)
    ensures EpochInv(cfg, Apply(cfg, s, Expire))
  {
    assert RoundOk(cfg, s, s.clock);
    CurrentRoundKeeps(cfg, s, Apply(cfg, s, Expire));
  }

  lemma DecideKeeps(cfg: Config, s: Epoch, step: Step)
    requires ValidConfig(cfg) && EpochInv(cfg, s) && step.Decide? && Enabled(cfg, s, step)
    ensures EpochInv(cfg, Apply(cfg, s, step))
  {
    assert RoundOk(cfg, s, s.clock);
    CurrentRoundKeeps(cfg, s, Apply(cfg, s, step));
  }

  /** The re-ranking of a round succeeds exactly if the node's leader id is a node's that did not reply. */
  lemma RerankSucceedsIff(cfg: Config, s: Epoch, k: nat, id: int)
    requires ValidConfig(cfg) && EpochInv(cfg, s) && k < |s.rounds|
    ensures 1 + |s.rounds[k].queue| + |Unplaced(cfg.n, s.rounds[k].queue, id)| <= |cfg.scheme|
       <==> 0 <= id < cfg.n && id !in s.rounds[k].queue
    ensures 0 <= cfg.leader < cfg.n && cfg.leader !in s.rounds[k].queue
  {
    RepliesAdmissible(cfg, s, k);
    FailsIffLeaderReplied(cfg.n, s.rounds[k].queue, id);
  }

  function AfterRerank(s: Epoch, w: map<int, real>): Epoch {
    s.(clock := s.clock + 1, weights := s.weights + [w], rankIds := s.rankIds + [s.leaderID])
  }

  lemma RerankShape(cfg: Config, s: Epoch, w: map<int, real>)
    requires Shape(cfg, s) && Busy(s)
    ensures Shape(cfg, AfterRerank(s, w))
  {
  }

  lemma RerankRounds(cfg: Config, s: Epoch, w: map<int, real>, e: Epoch)
    requires Shape(cfg, s) && RoundsOk(cfg, s) && Busy(s) && Settled(Current(s).status)
    requires e == AfterRerank(s, w) && Shape(cfg, e)
    ensures RoundsOk(cfg, e)
  {
    forall k | 0 <= k < |e.rounds|
      ensures RoundOk(cfg, e, k) && ArrivalsOk(cfg, e, k)
    {
      assert RoundOk(cfg, s, k) && ArrivalsOk(cfg, s, k);
    }
  }

  lemma RerankWeights(cfg: Config, s: Epoch, rest: seq<int>, w: map<int, real>, e: Epoch)
    requires Shape(cfg, s) && WeightsOk(cfg, s) && Busy(s)
    requires Reranks(cfg, Current(s).queue, s.leaderID, rest, w)
    requires e == AfterRerank(s, w) && Shape(cfg, e)
    ensures WeightsOk(cfg, e)
  {
    assert Reranked(cfg, Current(s).queue, s.leaderID, w);
    forall k | 0 <= k < e.clock
      ensures RankedAfter(cfg, e, k)
    {
      if k < s.clock {
        assert RankedAfter(cfg, s, k);
      }
    }
  }

  lemma RerankKeeps(cfg: Config, s: Epoch, step: Step)
    requires ValidConfig(cfg) && EpochInv(cfg, s) && step.Rerank? && Enabled(cfg, s, step)
    ensures EpochInv(cfg, Apply(cfg, s, step))
  {
    var e := Apply(cfg, s, step);
    RerankShape(cfg, s, step.w);
    RerankRounds(cfg, s, step.w, e);
    RerankWeights(cfg, s, step.rest, step.w, e);
  }

  // ---- Steps of the tasks ----

  /** Only a delivery makes a task report. */
  lemma FinishedByDelivery(d: Dock, step: DockStep, k: nat)
    requires CanMove(d, step) && !step.Spawn?
    requires !(step == Deliver(k) && d.tasks[k].ok)
    ensures At(Moved(d, step), k, Finished(true)) <==> At(d, k, Finished(true))
  {
  }

  /** What a task step leaves of the leader's state. */
  lemma TaskFrame(cfg: Config, s: Epoch, f: nat, step: DockStep)
    requires TaskEnabled(cfg, s, f, step)
    ensures var e := ApplyTask(cfg, s, f, step);
      && e.docks == s.docks[f := Moved(s.docks[f], step)] && |e.nodes| == |s.nodes|
      && |e.rounds| == |s.rounds| && e.weights == s.weights && e.clock == s.clock
      && e.rankIds == s.rankIds && e.leaderID == s.leaderID
      && e.prioVal == s.prioVal && e.store == s.store && e.replies == s.replies
      && (forall k :: 0 <= k < |s.rounds| ==>
            e.rounds[k] == if step == Deliver(k) && s.docks[f].tasks[k].ok then Delivered(s.rounds[k], f)
                else s.rounds[k])
  {
  }

  lemma TaskKeepsShape(cfg: Config, s: Epoch, f: nat, step: DockStep)
    requires ValidConfig(cfg) && Shape(cfg, s) && TaskEnabled(cfg, s, f, step)
    ensures Shape(cfg, ApplyTask(cfg, s, f, step))
  {
    TaskFrame(cfg, s, f, step);
    DockInvKept(s.docks[f], step);
  }

  lemma TaskKeepsArrivals(cfg: Config, s: Epoch, f: nat, step: DockStep, k: nat)
    requires ValidConfig(cfg) && Shape(cfg, s) && TaskEnabled(cfg, s, f, step)
    requires k < |s.rounds| && ArrivalsOk(cfg, s, k)
    ensures ArrivalsOk(cfg, ApplyTask(cfg, s, f, step), k)
  {
    var d := Moved(s.docks[f], step);
    TaskFrame(cfg, s, f, step);
    if step == Deliver(k) && s.docks[f].tasks[k].ok {
      ArrivalsGrow(s.rounds[k], f);
      ReportedMore(Arrivals(s.rounds[k]), s.docks, f, d, k);
    } else {
      FinishedByDelivery(s.docks[f], step, k);
      ReportedStill(Arrivals(s.rounds[k]), s.docks, f, d, k);
    }
  }

  lemma ArrivalsGrow(r: Round, f: int)
    ensures Arrivals(Delivered(r, f)) == Arrivals(r) + [f]
  {
  }

  lemma ReportedMore(queue: seq<int>, docks: seq<Dock>, f: nat, d: Dock, k: nat)
    requires Reported(queue, docks, k) && f < |docks|
    requires !At(docks[f], k, Finished(true)) && At(d, k, Finished(true))
    ensures Reported(queue + [f], docks[f := d], k)
  {
    forall g
      ensures g in queue + [f] <==> 0 <= g < |docks| && At(docks[f := d][g], k, Finished(true))
    {
      assert g in queue <==> 0 <= g < |docks| && At(docks[g], k, Finished(true));
    }
    assert f !in queue;
  }

  lemma ReportedStill(queue: seq<int>, docks: seq<Dock>, f: nat, d: Dock, k: nat)
    requires Reported(queue, docks, k) && f < |docks|
    requires At(d, k, Finished(true)) <==> At(docks[f], k, Finished(true))
    ensures Reported(queue, docks[f := d], k)
  {
    forall g
      ensures g in queue <==> 0 <= g < |docks| && At(docks[f := d][g], k, Finished(true))
    {
      assert g in queue <==> 0 <= g < |docks| && At(docks[g], k, Finished(true));
    }
  }

  lemma TaskKeepsRounds(cfg: Config, s: Epoch, f: nat, step: DockStep, e: Epoch)
    requires ValidConfig(cfg) && Shape(cfg, s) && RoundsOk(cfg, s) && TaskEnabled(cfg, s, f, step)
    requires e == ApplyTask(cfg, s, f, step) && Shape(cfg, e)
    ensures RoundsOk(cfg, e)
  {
    TaskFrame(cfg, s, f, step);
    forall k | 0 <= k < |e.rounds|
      ensures RoundOk(cfg, e, k) && ArrivalsOk(cfg, e, k)
    {
      assert RoundOk(cfg, s, k) && ArrivalsOk(cfg, s, k);
      TaskKeepsArrivals(cfg, s, f, step, k);
    }
  }

  lemma TaskKeeps(cfg: Config, s: Epoch, f: nat, step: DockStep)
    requires ValidConfig(cfg) && EpochInv(cfg, s) && TaskEnabled(cfg, s, f, step)
    ensures EpochInv(cfg, ApplyTask(cfg, s, f, step))
  {
    var e := ApplyTask(cfg, s, f, step);
    TaskFrame(cfg, s, f, step);
    TaskKeepsShape(cfg, s, f, step);
    TaskKeepsRounds(cfg, s, f, step, e);
    WeightsKept(cfg, s, e);
  }

  lemma DisturbKeeps(cfg: Config, s: Epoch, step: Step)
    requires ValidConfig(cfg) && EpochInv(cfg, s) && Enabled(cfg, s, step)
    requires step.DisturbFollower? || step.DisturbLeader?
    ensures EpochInv(cfg, Apply(cfg, s, step))
  {
    var e := Apply(cfg, s, step);
    forall k | 0 <= k < |e.rounds|
      ensures RoundOk(cfg, e, k) && ArrivalsOk(cfg, e, k)
    {
      assert RoundOk(cfg, s, k) && ArrivalsOk(cfg, s, k);
    }
    WeightsKept(cfg, s, e);
  }

  lemma StepKeepsInv(cfg: Config, s: Epoch, step: Step)
    requires ValidConfig(cfg) && EpochInv(cfg, s) && Enabled(cfg, s, step)
    ensures EpochInv(cfg, Apply(cfg, s, step))
  {
    match step {
      case TakeCommand(_) => TakeCommandKeeps(cfg, s, step);
      case Receive => ReceiveKeeps(cfg, s);
      case Expire => ExpireKeeps(cfg, s);
      case Decide => DecideKeeps(cfg, s, step);
      case Drain => DrainKeeps(cfg, s);
      case Rerank(_, _) => RerankKeeps(cfg, s, step);
      case Task(f, dockStep) => TaskKeeps(cfg, s, f, dockStep);
      case DisturbFollower(_, _) => DisturbKeeps(cfg, s, step);
      case DisturbLeader(_, _, _) => DisturbKeeps(cfg, s, step);
    }
  }

  lemma NextKeepsInv(cfg: Config, s: Epoch, step: Step, e: Epoch)
    requires ValidConfig(cfg) && EpochInv(cfg, s) && Next(cfg, s, step, e)
    ensures EpochInv(cfg, e)
  {
    StepKeepsInv(cfg, s, step);
  }

  /** The invariant holds in every state of every run. */
  lemma {:induction false} RunInv(cfg: Config, run: Trace)
    requires ValidConfig(cfg) && Run(cfg, run)
    ensures EpochInv(cfg, run.last)
  {
    match run {
      case Start(s) => InitInv(cfg, s);
      case Then(before, step, s) =>
        RunInv(cfg, before);
        NextKeepsInv(cfg, before.last, step, s);
    }
  }

  lemma ReachableInv(cfg: Config, s: Epoch)
    requires ValidConfig(cfg) && Reachable(cfg, s)
    ensures EpochInv(cfg, s)
  {
    var run :| Run(cfg, run) && run.last == s;
    RunInv(cfg, run);
  }
}
