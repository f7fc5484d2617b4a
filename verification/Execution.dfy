/** What a call does to the follower that handles it, disturbed epochs included, and what it means that a node
    has run a command. */
module Executions {
  import opened Weights
  import opened PriorityManagers
  import opened KVStore
  import opened PriorityStates
  import opened JobQueue
  import opened Rounds
  import opened Epochs
  import opened EpochInvariants
  import opened EpochTheorems

  // ---- The steps that run a command ----

  /** A call succeeds exactly if its clock is not below the follower's and its command applies there. A call that
      is not stale leaves its clock and weight, one that succeeds also its command's result; nobody else moves. */
  lemma CallIs(cfg: Config, s: Epoch, f: nat, k: nat, ok: bool)
    requires Enabled(cfg, s, Task(f, Handle(k, ok)))
    ensures k < |s.rounds| && f < |s.nodes|
    ensures var e := Apply(cfg, s, Task(f, Handle(k, ok)));
      && |e.nodes| == |s.nodes| && (forall g :: 0 <= g < |s.nodes| && g != f ==> e.nodes[g] == s.nodes[g])
      && (ok <==> s.nodes[f].prio.clock <= k && Execute(s.nodes[f].store, s.rounds[k].cmd).Done?)
      && (ok ==> Execute(s.nodes[f].store, s.rounds[k].cmd) == Done(e.nodes[f].store))
      && (!ok ==> e.nodes[f].store == s.nodes[f].store)
      && (s.nodes[f].prio.clock <= k ==> e.nodes[f].prio == Prio(k, Lookup(s.rounds[k].weights, f)))
      && (s.nodes[f].prio.clock > k ==> e.nodes[f].prio == s.nodes[f].prio)
      && e.docks[f].outcome == s.docks[f].outcome[k := ok]
      && e.rounds == s.rounds && e.store == s.store && e.replies == s.replies && e.prioVal == s.prioVal
  {
  }

  /** The leader runs a quorate round's command and answers with what became of it; a round that expired runs
      nothing and is answered by a timeout. */
  lemma DecideIs(cfg: Config, s: Epoch)
    requires Enabled(cfg, s, Decide)
    ensures var e, r := Apply(cfg, s, Decide), Current(s);
      && |e.replies| == |s.replies| + 1 && s.replies <= e.replies && |e.rounds| == |s.rounds| && e.nodes == s.nodes
      && (r.status.Expired? ==>
            e.store == s.store && e.replies[|s.replies|] == Timeout && e.rounds[s.clock].status.TimedOut?)
      && (r.status.Quorate? && Execute(s.store, r.cmd).Done? ==>
            && Execute(s.store, r.cmd) == Done(e.store) && e.replies[|s.replies|] == Ok
            && e.rounds[s.clock].status.Committed?)
      && (r.status.Quorate? && Execute(s.store, r.cmd).Failed? ==>
            && e.store == s.store && e.replies[|s.replies|] == Reply.ExecError(Execute(s.store, r.cmd).error)
            && e.rounds[s.clock].status == ExecFailed(Execute(s.store, r.cmd).error))
  {
  }

  /** A round opens on its clock's map, with the leader's PrioVal of that moment and nothing heard. */
  lemma TakeCommandIs(cfg: Config, s: Epoch, cmd: Command)
    requires Enabled(cfg, s, TakeCommand(cmd)) && s.clock < |s.weights|
    ensures Apply(cfg, s, TakeCommand(cmd)).rounds
         == s.rounds + [Round(cmd, s.weights[s.clock], s.prioVal, s.prioVal, [], [], 0, Gathering)]
  {
  }

  // ---- Having run a command ----

  /** In this step node f runs the command of round k, which applies to what the node holds: as the leader when a
      quorum is met, as a follower through a call that is not stale. */
  predicate Executes(cfg: Config, s: Epoch, step: Step, e: Epoch, k: nat, f: int, cmd: Command) {
    && k < |s.rounds| && s.rounds[k].cmd == cmd
    && if f == cfg.leader then
         step == Decide && s.clock == k && s.rounds[k].status.Quorate? && Execute(s.store, cmd) == Done(e.store)
       else
         && 0 <= f < |s.nodes| && f < |e.nodes| && step == Task(f, Handle(k, true)) && s.nodes[f].prio.clock <= k
         && Execute(s.nodes[f].store, cmd) == Done(e.nodes[f].store)
         && e.nodes[f].prio == Prio(k, Lookup(s.rounds[k].weights, f))
  }

  /** The run has such a step. */
  predicate ExecutedIn(cfg: Config, run: Trace, k: nat, f: int, cmd: Command) {
    match run
    case Start(_) => false
    case Then(before, step, s) =>
      Executes(cfg, before.last, step, s, k, f, cmd) || ExecutedIn(cfg, before, k, f, cmd)
  }

  /** No round is forgotten and no command rewritten. */
  lemma CommandsKept(cfg: Config, s: Epoch, step: Step)
    requires ValidConfig(cfg) && EpochInv(cfg, s) && Enabled(cfg, s, step)
    ensures |s.rounds| <= |Apply(cfg, s, step).rounds|
    ensures forall k :: 0 <= k < |s.rounds| ==> Apply(cfg, s, step).rounds[k].cmd == s.rounds[k].cmd
  {
    if step.Task? {
      TaskFrame(cfg, s, step.f, step.step);
    }
  }

  /** Which loop step makes the leader's round committed, and that no other does. */
  lemma LeaderRanBy(cfg: Config, s: Epoch, step: Step, k: nat)
    requires ValidConfig(cfg) && EpochInv(cfg, s) && Enabled(cfg, s, step) && k < |s.rounds|
    ensures Ran(cfg, Apply(cfg, s, step), k, cfg.leader) <==>
              || Ran(cfg, s, k, cfg.leader)
              || Executes(cfg, s, step, Apply(cfg, s, step), k, cfg.leader, s.rounds[k].cmd)
  {
    CommandsKept(cfg, s, step);
    if step.Task? {
      TaskFrame(cfg, s, step.f, step.step);
    } else if step.Decide? {
      DecideIs(cfg, s);
    }
  }

  lemma RanByHandling(cfg: Config, s: Epoch, f: nat, step: DockStep, e: Epoch, k: nat)
    requires Enabled(cfg, s, Task(f, step)) && e == Apply(cfg, s, Task(f, step)) && step.Handle?
    requires f < |s.docks| == |s.nodes| && f != cfg.leader && k < |s.rounds| && step.k != k
    ensures Ran(cfg, e, k, f) <==> Ran(cfg, s, k, f)
  {
    CallIs(cfg, s, f, step.k, step.ok);
  }

  lemma RanByHandlingIt(cfg: Config, s: Epoch, f: nat, step: DockStep, e: Epoch)
    requires Enabled(cfg, s, Task(f, step)) && e == Apply(cfg, s, Task(f, step)) && step.Handle?
    requires f < |s.docks| == |s.nodes| && f != cfg.leader && step.k < |s.rounds|
    ensures Ran(cfg, e, step.k, f) <==> step.ok
    ensures step.ok ==> Executes(cfg, s, Task(f, step), e, step.k, f, s.rounds[step.k].cmd)
  {
    CallIs(cfg, s, f, step.k, step.ok);
  }

  lemma RanByOtherTask(cfg: Config, s: Epoch, g: nat, step: DockStep, e: Epoch, k: nat, f: int)
    requires Enabled(cfg, s, Task(g, step)) && e == Apply(cfg, s, Task(g, step))
    requires 0 <= f < |s.docks| && f != cfg.leader && k < |s.rounds| && !(step.Handle? && g == f)
    ensures Ran(cfg, e, k, f) <==> Ran(cfg, s, k, f)
  {
    TaskFrame(cfg, s, g, step);
    assert e.docks[f].outcome == s.docks[f].outcome;
  }

  lemma FollowerRanByTask(cfg: Config, s: Epoch, g: nat, step: DockStep, k: nat, f: int)
    requires ValidConfig(cfg) && EpochInv(cfg, s) && Enabled(cfg, s, Task(g, step)) && k < |s.rounds|
    requires 0 <= f < cfg.n && f != cfg.leader
    ensures Ran(cfg, Apply(cfg, s, Task(g, step)), k, f) <==>
              Ran(cfg, s, k, f) || Executes(cfg, s, Task(g, step), Apply(cfg, s, Task(g, step)), k, f, s.rounds[k].cmd)
  {
    var e := Apply(cfg, s, Task(g, step));
    if !(step.Handle? && g == f) {
      RanByOtherTask(cfg, s, g, step, e, k, f);
    } else if step.k == k {
      RanByHandlingIt(cfg, s, f, step, e);
      if Ran(cfg, s, k, f) {
        TaskKeepsRan(cfg, s, g, step, k, f);
      }
    } else {
      RanByHandling(cfg, s, f, step, e, k);
    }
  }

  lemma FollowerRanBy(cfg: Config, s: Epoch, step: Step, k: nat, f: int)
    requires ValidConfig(cfg) && EpochInv(cfg, s) && Enabled(cfg, s, step) && k < |s.rounds|
    requires 0 <= f < cfg.n && f != cfg.leader
    ensures Ran(cfg, Apply(cfg, s, step), k, f) <==>
              Ran(cfg, s, k, f) || Executes(cfg, s, step, Apply(cfg, s, step), k, f, s.rounds[k].cmd)
  {
    if step.Task? {
      FollowerRanByTask(cfg, s, step.f, step.step, k, f);
    }
  }

  /** A round just opened has been run by nobody. */
  lemma NewRoundRanByNobody(cfg: Config, s: Epoch, step: Step, k: nat, f: int)
    requires ValidConfig(cfg) && EpochInv(cfg, s) && Enabled(cfg, s, step) && k >= |s.rounds|
    ensures !Ran(cfg, Apply(cfg, s, step), k, f)
  {
    if step.Task? {
      TaskFrame(cfg, s, step.f, step.step);
    } else if step.TakeCommand? && 0 <= f < |s.docks| && f != cfg.leader {
      assert DockInv(s.docks[f]);
      assert Moved(s.docks[f], Spawn).outcome == s.docks[f].outcome;
    }
  }

  lemma {:induction false} ExecutedIsOpen(cfg: Config, run: Trace, k: nat, f: int, cmd: Command)
    requires ValidConfig(cfg) && Run(cfg, run) && ExecutedIn(cfg, run, k, f, cmd)
    ensures k < |run.last.rounds| && run.last.rounds[k].cmd == cmd
  {
    match run {
      case Then(before, step, _) =>
        RunInv(cfg, before);
        CommandsKept(cfg, before.last, step);
        if !Executes(cfg, before.last, step, run.last, k, f, cmd) {
          ExecutedIsOpen(cfg, before, k, f, cmd);
        }
    }
  }

  /** Ran means ran: a node counts as having run the command of round k exactly if the run has a step in which it
      ran that command on the store it had, whatever the followers and the other leaders do. */
  lemma {:induction false} RanExact(cfg: Config, run: Trace, k: nat, f: int)
    requires ValidConfig(cfg) && Run(cfg, run) && k < |run.last.rounds| && 0 <= f < cfg.n
    ensures Ran(cfg, run.last, k, f) <==> ExecutedIn(cfg, run, k, f, run.last.rounds[k].cmd)
  {
    match run {
      case Start(_) =>
      case Then(before, step, s) =>
        RunInv(cfg, before);
        CommandsKept(cfg, before.last, step);
        if k < |before.last.rounds| {
          RanExact(cfg, before, k, f);
          if f == cfg.leader {
            LeaderRanBy(cfg, before.last, step, k);
          } else {
            FollowerRanBy(cfg, before.last, step, k, f);
          }
        } else {
          NewRoundRanByNobody(cfg, before.last, step, k, f);
          if ExecutedIn(cfg, before, k, f, s.rounds[k].cmd) {
            ExecutedIsOpen(cfg, before, k, f, s.rounds[k].cmd);
          }
        }
    }
  }

  /** So t+1 nodes really ran an acknowledged write, each on the store it had, wherever the round's guard holds. */
  lemma AcknowledgedWasExecuted(cfg: Config, run: Trace, k: nat) returns (nodes: set<int>)
    requires ValidConfig(cfg) && Run(cfg, run)
    requires var s := run.last;
      k < |s.replies| && k < |s.rounds| && k <= |s.rankIds| && s.replies[k] == Ok && NeedsMany(cfg, s, k)
    ensures nodes <= Ids(cfg.n) && |nodes| >= cfg.t + 1 && cfg.leader in nodes
    ensures forall f :: f in nodes ==> ExecutedIn(cfg, run, k, f, run.last.rounds[k].cmd)
  {
    assert Reachable(cfg, run.last);
    AcknowledgedIsHeld(cfg, run.last, k);
    nodes := Holders(cfg, run.last, k);
    forall f | f in nodes
      ensures ExecutedIn(cfg, run, k, f, run.last.rounds[k].cmd)
    {
      RanExact(cfg, run, k, f);
    }
  }
}
