/** Building runs of an epoch: a follower answers a call, and a round meets its quorum. */
module EpochRuns {
  import opened Weights
  import opened KVStore
  import opened JobQueue
  import opened Rounds
  import opened Epochs

  // ---- Continuing a run ----

  ghost predicate RunFrom(cfg: Config, s: Epoch, run: Trace) {
    match run
    case Start(x) => x == s
    case Then(before, step, x) => RunFrom(cfg, s, before) && Next(cfg, before.last, step, x)
  }

  /** Some run leads from s to e. */
  ghost predicate Later(cfg: Config, s: Epoch, e: Epoch) {
    exists run :: RunFrom(cfg, s, run) && run.last == e
  }

  lemma LaterItself(cfg: Config, s: Epoch)
    ensures Later(cfg, s, s)
  {
    assert RunFrom(cfg, s, Trace.Start(s));
  }

  lemma LaterStill(cfg: Config, s: Epoch, e: Epoch, step: Epochs.Step)
    requires Later(cfg, s, e) && Enabled(cfg, e, step)
    ensures Later(cfg, s, Apply(cfg, e, step))
  {
    var run :| RunFrom(cfg, s, run) && run.last == e;
    assert RunFrom(cfg, s, Trace.Then(run, step, Apply(cfg, e, step)));
  }

  lemma {:induction false} RunContinues(cfg: Config, s: Epoch, run: Trace)
    requires Reachable(cfg, s) && RunFrom(cfg, s, run)
    ensures Reachable(cfg, run.last)
  {
    match run {
      case Start(_) =>
      case Then(before, step, e) =>
        RunContinues(cfg, s, before);
        var whole :| Run(cfg, whole) && whole.last == before.last;
        assert Run(cfg, Trace.Then(whole, step, e));
    }
  }

  lemma LaterIsReachable(cfg: Config, s: Epoch, e: Epoch)
    requires Reachable(cfg, s) && Later(cfg, s, e)
    ensures Reachable(cfg, e)
  {
    var run :| RunFrom(cfg, s, run) && run.last == e;
    RunContinues(cfg, s, run);
  }

  // ---- The dock of a follower that answers ----

  /** A working connection that has dealt with all rounds before k, and whose task of round k has just started. */
  ghost predicate Idle(d: Dock, k: nat) {
    && DockInv(d) && !d.broken && k < |d.tasks| && d.tasks[k] == Spawned
    && |d.calls| == k == |d.execs| && (k > 0 ==> Sent(d, k - 1))
  }

  lemma IdleFacts(d: Dock, k: nat)
    requires Idle(d, k)
    ensures d.inFlight == {} && k !in d.jobQ && k !in d.outcome
    ensures k > 0 ==> k - 1 in d.jobQ && d.jobQ[k - 1] == 1
  {
    assert !Passed(d, k);
    assert forall j :: j in d.inFlight ==> j == |d.execs| < |d.calls|;
  }

  /** The dock while the call of round k is being made: the predecessor's token is taken. */
  function Called(d: Dock, k: nat): Dock
    requires k < |d.tasks|
  {
    d.(tasks := d.tasks[k := Calling], jobQ := if k == 0 then d.jobQ[k := 0] else d.jobQ[k := 0][k - 1 := 0],
       calls := d.calls + [k], inFlight := {k})
  }

  function DockAfter(d: Dock, k: nat, phase: Phase, tokens: nat): Dock
    requires k < |d.tasks|
  {
    var c := Called(d, k);
    c.(tasks := d.tasks[k := phase], jobQ := c.jobQ[k := tokens],
       inFlight := {}, execs := d.execs + [k], outcome := d.outcome[k := true])
  }

  /** The dock after the follower answered round k. */
  function DockAnswered(d: Dock, k: nat): Dock
    requires k < |d.tasks|
  {
    DockAfter(d, k, Finished(true), 1)
  }

  predicate Quiet(step: DockStep) {
    step.Register? || step.ReadPrev? || step.Take? || step.Start? || step.ReturnReply? || step.Signal?
  }

  function WithDock(s: Epoch, f: nat, d: Dock): Epoch
    requires f < |s.docks|
  {
    s.(docks := s.docks[f := d])
  }

  /** A task step that touches nothing but the follower's dock. */
  lemma QuietLater(cfg: Config, s0: Epoch, s: Epoch, f: nat, d: Dock, step: DockStep)
    requires f < |s.docks| && f < |s.nodes| && Later(cfg, s0, WithDock(s, f, d))
    requires Quiet(step) && CanMove(d, step)
    ensures Later(cfg, s0, WithDock(s, f, Moved(d, step)))
  {
    var a := WithDock(s, f, d);
    assert TaskEnabled(cfg, a, f, step);
    LaterStill(cfg, s0, a, Task(f, step));
    assert ApplyTask(cfg, a, f, step) == WithDock(s, f, Moved(d, step));
  }

  lemma HandleLater(cfg: Config, s0: Epoch, s: Epoch, f: nat, d: Dock, k: nat, ok: bool)
    requires f < |s.docks| && f < |s.nodes| && k < |s.rounds| && ok == Served(s, f, k).1
    requires Later(cfg, s0, WithDock(s, f, d)) && CanMove(d, Handle(k, ok))
    ensures Later(cfg, s0, WithDock(s, f, Moved(d, Handle(k, ok))).(nodes := s.nodes[f := Served(s, f, k).0]))
  {
    var a := WithDock(s, f, d);
    assert TaskEnabled(cfg, a, f, Handle(k, ok));
    LaterStill(cfg, s0, a, Task(f, Handle(k, ok)));
    assert ApplyTask(cfg, a, f, Handle(k, ok))
        == WithDock(s, f, Moved(d, Handle(k, ok))).(nodes := s.nodes[f := Served(s, f, k).0]);
  }

  lemma DeliverLater(cfg: Config, s0: Epoch, s: Epoch, f: nat, d: Dock, k: nat)
    requires f < |s.docks| && f < |s.nodes| && k < |s.rounds| && |s.rounds[k].inbox| < cfg.n
    requires Later(cfg, s0, WithDock(s, f, d)) && At(d, k, Signalled(true))
    ensures Later(cfg, s0, WithDock(s, f, Moved(d, Deliver(k))).(rounds := s.rounds[k := Delivered(s.rounds[k], f)]))
  {
    var a := WithDock(s, f, d);
    assert TaskEnabled(cfg, a, f, Deliver(k));
    LaterStill(cfg, s0, a, Task(f, Deliver(k)));
    assert ApplyTask(cfg, a, f, Deliver(k))
        == WithDock(s, f, Moved(d, Deliver(k))).(rounds := s.rounds[k := Delivered(s.rounds[k], f)]);
  }

  // ---- Up to the call ----

  function Registering(d: Dock, k: nat, phase: Phase): Dock
    requires k < |d.tasks|
  {
    d.(tasks := d.tasks[k := phase], jobQ := d.jobQ[k := 0])
  }

  lemma FirstCallMoves(d: Dock)
    requires Idle(d, 0)
    ensures CanMove(d, Register(0)) && Moved(d, Register(0)) == Registering(d, 0, Registered)
    ensures CanMove(Registering(d, 0, Registered), ReadPrev(0))
    ensures Moved(Registering(d, 0, Registered), ReadPrev(0)) == Registering(d, 0, Ready)
    ensures CanMove(Registering(d, 0, Ready), DockStep.Start(0))
    ensures Moved(Registering(d, 0, Ready), DockStep.Start(0)) == Called(d, 0)
  {
    IdleFacts(d, 0);
    assert d.tasks[0 := Registered][0 := Ready] == d.tasks[0 := Ready];
    assert d.tasks[0 := Ready][0 := Calling] == d.tasks[0 := Calling];
  }

  function Tokened(d: Dock, k: nat): Dock
    requires 0 < k < |d.tasks|
  {
    d.(tasks := d.tasks[k := Ready], jobQ := d.jobQ[k := 0][k - 1 := 0])
  }

  lemma NextCallMoves(d: Dock, k: nat)
    requires Idle(d, k) && k > 0
    ensures CanMove(d, Register(k)) && Moved(d, Register(k)) == Registering(d, k, Registered)
    ensures CanMove(Registering(d, k, Registered), ReadPrev(k))
    ensures Moved(Registering(d, k, Registered), ReadPrev(k)) == Registering(d, k, Waiting)
    ensures CanMove(Registering(d, k, Waiting), Take(k)) && Moved(Registering(d, k, Waiting), Take(k)) == Tokened(d, k)
    ensures CanMove(Tokened(d, k), DockStep.Start(k)) && Moved(Tokened(d, k), DockStep.Start(k)) == Called(d, k)
  {
    IdleFacts(d, k);
    assert d.tasks[k := Registered][k := Waiting] == d.tasks[k := Waiting];
    assert d.tasks[k := Waiting][k := Ready] == d.tasks[k := Ready];
    assert d.tasks[k := Ready][k := Calling] == d.tasks[k := Calling];
  }

  lemma CallIsMade(cfg: Config, s0: Epoch, s: Epoch, f: nat, k: nat)
    requires f < |s.docks| && f < |s.nodes| && Later(cfg, s0, s) && Idle(s.docks[f], k)
    ensures Later(cfg, s0, WithDock(s, f, Called(s.docks[f], k)))
  {
    var d := s.docks[f];
    assert WithDock(s, f, d) == s;
    if k == 0 {
      FirstCallMoves(d);
      QuietLater(cfg, s0, s, f, d, Register(0));
      QuietLater(cfg, s0, s, f, Registering(d, 0, Registered), ReadPrev(0));
      QuietLater(cfg, s0, s, f, Registering(d, 0, Ready), DockStep.Start(0));
    } else {
      NextCallMoves(d, k);
      QuietLater(cfg, s0, s, f, d, Register(k));
      QuietLater(cfg, s0, s, f, Registering(d, k, Registered), ReadPrev(k));
      QuietLater(cfg, s0, s, f, Registering(d, k, Waiting), Take(k));
      QuietLater(cfg, s0, s, f, Tokened(d, k), DockStep.Start(k));
    }
  }

  // ---- From the handler to the delivery ----

  lemma HandleMoves(d: Dock, k: nat)
    requires Idle(d, k)
    ensures CanMove(Called(d, k), Handle(k, true))
    ensures Moved(Called(d, k), Handle(k, true)) == DockAfter(d, k, Calling, 0)
  {
    IdleFacts(d, k);
    assert Called(d, k).jobQ[k := 0] == Called(d, k).jobQ;
    assert {k} - {k} == {};
  }

  lemma PhaseMoves(tasks: seq<Phase>, k: nat, p: Phase, q: Phase)
    requires k < |tasks|
    ensures tasks[k := p][k := q] == tasks[k := q]
  {
  }

  lemma ReturnMoves(d: Dock, k: nat)
    requires Idle(d, k)
    ensures CanMove(DockAfter(d, k, Calling, 0), ReturnReply(k))
    ensures Moved(DockAfter(d, k, Calling, 0), ReturnReply(k)) == DockAfter(d, k, Returned(true), 0)
  {
    PhaseMoves(d.tasks, k, Calling, Returned(true));
  }

  lemma SignalMoves(d: Dock, k: nat)
    requires Idle(d, k)
    ensures CanMove(DockAfter(d, k, Returned(true), 0), Signal(k))
    ensures Moved(DockAfter(d, k, Returned(true), 0), Signal(k)) == DockAfter(d, k, Signalled(true), 1)
  {
    PhaseMoves(d.tasks, k, Returned(true), Signalled(true));
    assert Called(d, k).jobQ[k := 0][k := 1] == Called(d, k).jobQ[k := 1];
  }

  lemma DeliverMoves(d: Dock, k: nat)
    requires Idle(d, k)
    ensures At(DockAfter(d, k, Signalled(true), 1), k, Signalled(true))
    ensures Moved(DockAfter(d, k, Signalled(true), 1), Deliver(k)) == DockAnswered(d, k)
  {
    PhaseMoves(d.tasks, k, Signalled(true), Finished(true));
    assert Moved(DockAfter(d, k, Signalled(true), 1), Deliver(k)).tasks == d.tasks[k := Finished(true)];
  }

  /** The state after follower f answered round k. */
  function Replied(s: Epoch, f: nat, k: nat): Epoch
    requires f < |s.docks| && f < |s.nodes| && k < |s.rounds| && k < |s.docks[f].tasks|
  {
    s.(docks := s.docks[f := DockAnswered(s.docks[f], k)], nodes := s.nodes[f := Served(s, f, k).0],
       rounds := s.rounds[k := Delivered(s.rounds[k], f)])
  }

  lemma HandlerReturns(cfg: Config, s0: Epoch, s: Epoch, f: nat, d: Dock, k: nat)
    requires f < |s.docks| && f < |s.nodes| && k < |s.rounds| && |s.rounds[k].inbox| < cfg.n && Idle(d, k)
    requires Later(cfg, s0, WithDock(s, f, DockAfter(d, k, Calling, 0)))
    ensures Later(cfg, s0, WithDock(s, f, DockAnswered(d, k)).(rounds := s.rounds[k := Delivered(s.rounds[k], f)]))
  {
    ReturnMoves(d, k);
    SignalMoves(d, k);
    DeliverMoves(d, k);
    QuietLater(cfg, s0, s, f, DockAfter(d, k, Calling, 0), ReturnReply(k));
    QuietLater(cfg, s0, s, f, DockAfter(d, k, Returned(true), 0), Signal(k));
    DeliverLater(cfg, s0, s, f, DockAfter(d, k, Signalled(true), 1), k);
  }

  /** An idle follower whose handler succeeds can answer, whatever everyone else has got to. */
  lemma FollowerAnswers(cfg: Config, s0: Epoch, s: Epoch, f: nat, k: nat)
    requires Later(cfg, s0, s) && f < |s.docks| && f < |s.nodes| && k < |s.rounds| && Idle(s.docks[f], k)
    requires Served(s, f, k).1 && |s.rounds[k].inbox| < cfg.n
    ensures Later(cfg, s0, Replied(s, f, k))
  {
    var d := s.docks[f];
    CallIsMade(cfg, s0, s, f, k);
    HandleMoves(d, k);
    HandleLater(cfg, s0, s, f, Called(d, k), k, true);
    var a := s.(nodes := s.nodes[f := Served(s, f, k).0]);
    var ran := DockAfter(d, k, Calling, 0);
    assert WithDock(a, f, ran) == WithDock(s, f, ran).(nodes := a.nodes);
    HandlerReturns(cfg, s0, a, f, d, k);
  }

  // ---- A round that meets its quorum ----

  /** The current round has heard exactly the first j of these followers, and nothing else has moved since s. */
  ghost predicate Partway(cfg: Config, s: Epoch, e: Epoch, cmd: Command, ids: seq<int>, j: nat)
    requires Busy(s) && j <= |ids|
  {
    var k, r := s.clock, s.rounds[s.clock];
    && e.clock == s.clock && e.weights == s.weights && e.rankIds == s.rankIds && e.leaderID == s.leaderID
    && e.prioVal == s.prioVal && e.store == s.store && e.replies == s.replies
    && e.rounds == s.rounds[k := Waited(cmd, r.weights, r.base, cfg.majority, ids[..j])]
    && |e.docks| == |s.docks| == |e.nodes| == |s.nodes|
    && (forall f :: 0 <= f < |s.docks| && f !in ids[..j] ==> e.docks[f] == s.docks[f] && e.nodes[f] == s.nodes[f])
  }

  /** The followers are there, have nothing else to do and would run the command. */
  ghost predicate CanRun(s: Epoch, ids: seq<int>) {
    && Distinct(ids) && |s.docks| == |s.nodes| && Busy(s)
    && (forall i :: 0 <= i < |ids| ==>
          0 <= ids[i] < |s.docks| && Idle(s.docks[ids[i]], s.clock) && Served(s, ids[i], s.clock).1)
  }

  lemma NextInLine(cfg: Config, s: Epoch, e: Epoch, cmd: Command, ids: seq<int>, j: nat)
    requires CanRun(s, ids) && j < |ids| && Partway(cfg, s, e, cmd, ids, j) && s.rounds[s.clock].cmd == cmd
    ensures 0 <= ids[j] < |e.docks| == |e.nodes| && Idle(e.docks[ids[j]], s.clock) && s.clock < |e.rounds|
    ensures Served(e, ids[j], s.clock).1
  {
    assert ids[j] !in ids[..j];
  }

  lemma OneMoreWaited(cfg: Config, r: Round, cmd: Command, ids: seq<int>, j: nat)
    requires j < |ids| && Waited(cmd, r.weights, r.base, cfg.majority, ids[..j]).status.Gathering?
    ensures Received(Delivered(Waited(cmd, r.weights, r.base, cfg.majority, ids[..j]), ids[j]), r.weights, cfg.majority)
         == Waited(cmd, r.weights, r.base, cfg.majority, ids[..j + 1])
  {
    var w := Waited(cmd, r.weights, r.base, cfg.majority, ids[..j]);
    WaitedOneMore(cmd, r.weights, r.base, cfg.majority, ids[..j], ids[j]);
    assert ids[..j + 1] == ids[..j] + [ids[j]];
    assert Delivered(w, ids[j]) == w.(inbox := [ids[j]]);
  }

  /** The reply waiting in the receiver is weighed. */
  lemma Weighed(cfg: Config, s0: Epoch, a: Epoch, r: Round)
    requires Later(cfg, s0, a) && Busy(a) && Current(a) == r && r.inbox != [] && r.status.Gathering?
    requires |r.queue| < cfg.n && r.weights == WeightsAt(a, a.clock)
    ensures Later(cfg, s0, a.(rounds := a.rounds[a.clock := Received(r, r.weights, cfg.majority)]))
  {
    LaterStill(cfg, s0, a, Receive);
    assert Apply(cfg, a, Receive) == a.(rounds := a.rounds[a.clock := Received(r, r.weights, cfg.majority)]);
  }

  /** One more follower answers and its reply is weighed. */
  lemma OneMoreHeard(cfg: Config, s0: Epoch, s: Epoch, e: Epoch, cmd: Command, ids: seq<int>, j: nat) returns (a: Epoch)
    requires CanRun(s, ids) && j < |ids| < cfg.n && s.rounds[s.clock].cmd == cmd
    requires s.rounds[s.clock].weights == WeightsAt(s, s.clock)
    requires Later(cfg, s0, e) && Partway(cfg, s, e, cmd, ids, j)
    requires e.rounds[s.clock].status.Gathering?
    ensures Later(cfg, s0, a) && Partway(cfg, s, a, cmd, ids, j + 1)
  {
    var k, f := s.clock, ids[j];
    NextInLine(cfg, s, e, cmd, ids, j);
    FollowerAnswers(cfg, s0, e, f, k);
    var b := Replied(e, f, k);
    Weighed(cfg, s0, b, b.rounds[k]);
    OneMoreWaited(cfg, s.rounds[k], cmd, ids, j);
    a := b.(rounds := b.rounds[k := Received(b.rounds[k], b.rounds[k].weights, cfg.majority)]);
    HeardIsPartway(cfg, s, e, a, cmd, ids, j);
  }

  lemma HeardIsPartway(cfg: Config, s: Epoch, e: Epoch, a: Epoch, cmd: Command, ids: seq<int>, j: nat)
    requires CanRun(s, ids) && j < |ids| && Partway(cfg, s, e, cmd, ids, j)
    requires 0 <= ids[j] < |e.docks| && s.clock < |e.docks[ids[j]].tasks|
    requires var b := Replied(e, ids[j], s.clock); a == b.(rounds := a.rounds)
    requires a.rounds == s.rounds[s.clock :=
      Waited(cmd, s.rounds[s.clock].weights, s.rounds[s.clock].base, cfg.majority, ids[..j + 1])]
    ensures Partway(cfg, s, a, cmd, ids, j + 1)
  {
    OthersStill(s, e, a, ids, j);
  }

  lemma OthersStill(s: Epoch, e: Epoch, a: Epoch, ids: seq<int>, j: nat)
    requires j < |ids| && 0 <= ids[j] < |s.docks| == |s.nodes| == |e.docks| == |e.nodes|
    requires |a.docks| == |a.nodes| == |e.docks|
    requires forall f :: 0 <= f < |s.docks| && f !in ids[..j] ==>
      e.docks[f] == s.docks[f] && e.nodes[f] == s.nodes[f]
    requires forall f :: 0 <= f < |s.docks| && f != ids[j] ==>
      a.docks[f] == e.docks[f] && a.nodes[f] == e.nodes[f]
    ensures forall f :: 0 <= f < |s.docks| && f !in ids[..j + 1] ==>
      a.docks[f] == s.docks[f] && a.nodes[f] == s.nodes[f]
  {
    assert ids[..j + 1] == ids[..j] + [ids[j]];
  }

  /** The state in which a run has arrived partway, kept out of the sums' way. */
  ghost predicate CanHear(cfg: Config, s0: Epoch, s: Epoch, cmd: Command, ids: seq<int>, j: nat)
    requires Busy(s) && j <= |ids|
  {
    exists e :: Later(cfg, s0, e) && Partway(cfg, s, e, cmd, ids, j)
  }

  predicate Gathers(cfg: Config, r: Round, cmd: Command, ids: seq<int>, j: nat)
    requires j <= |ids|
  {
    Waited(cmd, r.weights, r.base, cfg.majority, ids[..j]).status.Gathering?
  }

  lemma CanHearOneMore(cfg: Config, s0: Epoch, s: Epoch, cmd: Command, ids: seq<int>, j: nat)
    requires CanRun(s, ids) && j < |ids| < cfg.n && s.rounds[s.clock].cmd == cmd
    requires s.rounds[s.clock].weights == WeightsAt(s, s.clock)
    requires CanHear(cfg, s0, s, cmd, ids, j) && Gathers(cfg, s.rounds[s.clock], cmd, ids, j)
    ensures CanHear(cfg, s0, s, cmd, ids, j + 1)
  {
    var e :| Later(cfg, s0, e) && Partway(cfg, s, e, cmd, ids, j);
    var a := OneMoreHeard(cfg, s0, s, e, cmd, ids, j);
  }

  /** As many of them answer as it takes. */
  lemma {:induction false} HearUntil(cfg: Config, s0: Epoch, s: Epoch, cmd: Command, ids: seq<int>,
                                     quorate: set<nat>, j: nat)
    returns (m: nat)
    requires CanRun(s, ids) && j <= |ids| < cfg.n && s.rounds[s.clock].cmd == cmd
    requires s.rounds[s.clock].weights == WeightsAt(s, s.clock)
    requires |ids| in quorate
    requires forall i: nat :: i < |ids| && i !in quorate ==> Gathers(cfg, s.rounds[s.clock], cmd, ids, i)
    requires CanHear(cfg, s0, s, cmd, ids, j)
    ensures m <= |ids| && m in quorate && CanHear(cfg, s0, s, cmd, ids, m)
    decreases |ids| - j
  {
    if j in quorate {
      m := j;
    } else {
      CanHearOneMore(cfg, s0, s, cmd, ids, j);
      m := HearUntil(cfg, s0, s, cmd, ids, quorate, j + 1);
    }
  }

  /** Round clock of s was acknowledged on the first m of these followers, and nothing else moved. */
  ghost predicate AcknowledgedOn(s: Epoch, e: Epoch, cmd: Command, ids: seq<int>, m: nat)
    requires Busy(s) && m <= |ids|
  {
    var k := s.clock;
    && e.replies == s.replies + [Ok] && e.store == After(s.store, cmd)
    && e.clock == k && e.weights == s.weights && e.rankIds == s.rankIds && |e.rounds| == |s.rounds|
    && e.rounds[k].status.Committed? && e.rounds[k].queue == ids[..m] && e.rounds[k].counted == m
    && e.rounds[k].weights == s.rounds[k].weights
    && |e.docks| == |s.docks| == |e.nodes| == |s.nodes|
    && (forall f :: 0 <= f < |s.docks| && f !in ids[..m] ==> e.docks[f] == s.docks[f] && e.nodes[f] == s.nodes[f])
  }

  lemma Committing(cfg: Config, s0: Epoch, s: Epoch, cmd: Command, ids: seq<int>, m: nat) returns (e: Epoch)
    requires Busy(s) && m <= |ids| && CanHear(cfg, s0, s, cmd, ids, m) && !Gathers(cfg, s.rounds[s.clock], cmd, ids, m)
    requires Execute(s.store, cmd).Done?
    ensures Later(cfg, s0, e) && AcknowledgedOn(s, e, cmd, ids, m)
  {
    var a :| Later(cfg, s0, a) && Partway(cfg, s, a, cmd, ids, m);
    LaterStill(cfg, s0, a, Decide);
    e := Apply(cfg, a, Decide);
  }

  lemma OpenedIsPartway(cfg: Config, s: Epoch, cmd: Command, ids: seq<int>)
    requires Busy(s) && |s.docks| == |s.nodes| && Current(s) == Opened(cmd, Current(s).weights, Current(s).base)
    ensures Partway(cfg, s, s, cmd, ids, 0)
  {
    assert ids[..0] == [];
    assert s.rounds == s.rounds[s.clock := Current(s)];
  }

  /** A freshly opened round is acknowledged by any followers that are free, able to run the command and
      heavy enough together; the others are not even called. */
  lemma RoundSucceeds(cfg: Config, s0: Epoch, s: Epoch, cmd: Command, ids: seq<int>) returns (e: Epoch, m: nat)
    requires Later(cfg, s0, s) && CanRun(s, ids) && 0 < |ids| < cfg.n && Execute(s.store, cmd).Done?
    requires Current(s) == Opened(cmd, WeightsAt(s, s.clock), Current(s).base)
    requires Current(s).base + RunningSum(WeightsAt(s, s.clock), ids, |ids|) > cfg.majority
    ensures m <= |ids| && Later(cfg, s0, e) && AcknowledgedOn(s, e, cmd, ids, m)
  {
    OpenedIsPartway(cfg, s, cmd, ids);
    var r := Current(s);
    assert ids[..|ids|] == ids;
    var quorate := set i: nat | i <= |ids| && !Gathers(cfg, r, cmd, ids, i);
    assert |ids| in quorate;
    m := HearUntil(cfg, s0, s, cmd, ids, quorate, 0);
    e := Committing(cfg, s0, s, cmd, ids, m);
  }
}
