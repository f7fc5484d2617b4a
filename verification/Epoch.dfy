/** One leader's epoch as a state machine: the round loop, one task per follower and round, and the
    followers' side of every call, interleaved in any order. */
module Epochs {
  import opened Weights
  import opened PriorityManagers
  import opened KVStore
  import opened PriorityStates
  import opened JobQueue
  import opened Rounds

  /** alone: the initial leader's epoch, undisturbed by calls from any other leader. */
  datatype Config = Config(
    n: nat,
    t: nat,
    scheme: seq<real>,
    majority: real,
    leader: nat,
    seed: Store,
    alone: bool)

  predicate ValidConfig(cfg: Config) {
    && |cfg.scheme| == cfg.n
    && cfg.leader < cfg.n
    && Sound(cfg.scheme, cfg.t, cfg.majority)
    && (cfg.alone ==> cfg.leader == 0)
  }

  /** A follower: its weight state and its collection. */
  datatype Node = Node(prio: Prio, store: Store)

  /** rounds[k] is the round of clock k; weights[k] is the manager's map for clock k, empty where the
      re-ranking failed; rankIds[k] is the leader id that the re-ranking after round k read. leaderID,
      prioVal and store are the node's own state, which its handlers share with the loop. */
  datatype Epoch = Epoch(
    docks: seq<Dock>,
    nodes: seq<Node>,
    rounds: seq<Round>,
    weights: seq<map<int, real>>,
    rankIds: seq<int>,
    clock: nat,
    leaderID: int,
    prioVal: real,
    store: Store,
    replies: seq<Reply>)

  datatype Step =
    | TakeCommand(cmd: Command)
    | Receive
    | Expire
    | Decide
    | Drain
    | Rerank(rest: seq<int>, w: map<int, real>)
    | Task(f: nat, step: DockStep)
    | DisturbFollower(f: nat, node: Node)
    | DisturbLeader(leaderID: int, prioVal: real, store: Store)

  /** The leader starts with empty job queues. Alone, everyone holds its initial weight and the seed;
      an elected leader finds any leader id, weights and stores, its own weight at most the heaviest. */
  predicate Init(cfg: Config, s: Epoch) {
    && |s.docks| == |s.nodes| == cfg.n == |cfg.scheme|
    && cfg.leader < cfg.n
    && (forall f :: 0 <= f < cfg.n ==> Fresh(s.docks[f]))
    && !s.docks[cfg.leader].connected
    && s.rounds == [] && s.replies == [] && s.rankIds == [] && s.clock == 0
    && s.weights == [InitialWeights(cfg.scheme)]
    && s.prioVal <= cfg.scheme[0]
    && (cfg.alone ==>
          && s.leaderID == cfg.leader && s.prioVal == cfg.scheme[0] && s.store == cfg.seed
          && (forall f :: 0 <= f < cfg.n ==> s.nodes[f] == Node(Prio(0, cfg.scheme[f]), cfg.seed)))
  }

  /** A round is under way. */
  predicate Busy(s: Epoch) {
    |s.rounds| == s.clock + 1
  }

  function Current(s: Epoch): Round
    requires Busy(s)
  {
    s.rounds[s.clock]
  }

  /** What GetFollowerPriorities returns: an unranked clock reads as Go's nil map. */
  function WeightsAt(s: Epoch, k: nat): map<int, real> {
    if k < |s.weights| then s.weights[k] else map[]
  }

  /** The follower's side of a call: what ConsensusService leaves, and whether it succeeds. */
  function Serve(node: Node, clock: int, val: real, cmd: Command): (Node, bool) {
    if !Accepts(node.prio, clock) then (node, false)
    else (Node(Updated(node.prio, clock, val), After(node.store, cmd)), Execute(node.store, cmd).Done?)
  }

  /** The call of round k. */
  function Served(s: Epoch, f: nat, k: nat): (Node, bool)
    requires f < |s.nodes| && k < |s.rounds|
  {
    Serve(s.nodes[f], k, Lookup(s.rounds[k].weights, f), s.rounds[k].cmd)
  }

  predicate TaskEnabled(cfg: Config, s: Epoch, f: nat, step: DockStep) {
    && f < |s.docks| && f < |s.nodes|
    && CanMove(s.docks[f], step)
    && (step.Connect? ==> f != cfg.leader)
    && !step.Spawn?
    && (step.Handle? ==> step.k < |s.rounds| && step.ok == Served(s, f, step.k).1)
    && (step.Deliver? && s.docks[f].tasks[step.k].ok ==> step.k < |s.rounds| && |s.rounds[step.k].inbox| < cfg.n)
  }

  /** The re-ranking with the given id comes to w: the map it stored, or none where it failed. */
  predicate Reranks(cfg: Config, queue: seq<int>, id: int, rest: seq<int>, w: map<int, real>)
    requires cfg.scheme != []
  {
    if 1 + |queue| + |Unplaced(cfg.n, queue, id)| <= |cfg.scheme|
    then Redistributed(cfg.scheme, cfg.n, queue, id, rest, w)
    else w == map[]
  }

  predicate Enabled(cfg: Config, s: Epoch, step: Step) {
    match step
    case TakeCommand(_) => |s.rounds| == s.clock
    case Receive => Busy(s) && Current(s).status.Gathering? && Current(s).inbox != [] && |Current(s).queue| < cfg.n
    case Expire => Busy(s) && Current(s).status.Gathering?
    case Decide => Busy(s) && (Current(s).status.Quorate? || Current(s).status.Expired?)
    case Drain => Busy(s) && Settled(Current(s).status) && Current(s).inbox != [] && |Current(s).queue| < cfg.n
    case Rerank(rest, w) =>
      && Busy(s) && Settled(Current(s).status)
      && cfg.scheme != [] && Reranks(cfg, Current(s).queue, s.leaderID, rest, w)
    case Task(f, dockStep) => TaskEnabled(cfg, s, f, dockStep)
    case DisturbFollower(f, _) => !cfg.alone && f < |s.nodes|
    case DisturbLeader(_, v, _) => !cfg.alone && cfg.scheme != [] && v <= cfg.scheme[0]
  }

  function SetRound(s: Epoch, k: nat, r: Round): Epoch
    requires k < |s.rounds|
  {
    s.(rounds := s.rounds[k := r])
  }

  /** Every connected follower gets a task for the new round. */
  function Broadcast(docks: seq<Dock>): (r: seq<Dock>)
    ensures |r| == |docks|
  {
    seq(|docks|, f requires 0 <= f < |docks| => Moved(docks[f], Spawn))
  }

  function ApplyTask(cfg: Config, s: Epoch, f: nat, step: DockStep): Epoch
    requires TaskEnabled(cfg, s, f, step)
  {
    var e := s.(docks := s.docks[f := Moved(s.docks[f], step)]);
    if step.Handle? then e.(nodes := e.nodes[f := Served(s, f, step.k).0])
    else if step.Deliver? && s.docks[f].tasks[step.k].ok then SetRound(e, step.k, Delivered(s.rounds[step.k], f))
    else e
  }

  function Apply(cfg: Config, s: Epoch, step: Step): Epoch
    requires Enabled(cfg, s, step)
  {
    match step
    case TakeCommand(cmd) =>
      s.(docks := Broadcast(s.docks), rounds := s.rounds + [Opened(cmd, WeightsAt(s, s.clock), s.prioVal)])
    case Receive => SetRound(s, s.clock, Received(Current(s), WeightsAt(s, s.clock), cfg.majority))
    case Expire => SetRound(s, s.clock, Current(s).(status := Status.Expired))
    case Decide =>
      var r := Current(s);
      var status := Decision(r.status, s.store, r.cmd);
      SetRound(s, s.clock, r.(status := status)).(
        store := if r.status.Quorate? then After(s.store, r.cmd) else s.store,
        replies := s.replies + [ReplyOf(status)])
    case Drain => SetRound(s, s.clock, Drained(Current(s)))
    case Rerank(_, w) => s.(clock := s.clock + 1, weights := s.weights + [w], rankIds := s.rankIds + [s.leaderID])
    case Task(f, dockStep) => ApplyTask(cfg, s, f, dockStep)
    case DisturbFollower(f, node) => s.(nodes := s.nodes[f := node])
    case DisturbLeader(id, v, store) => s.(leaderID := id, prioVal := v, store := store)
  }

  predicate Next(cfg: Config, s: Epoch, step: Step, e: Epoch) {
    Enabled(cfg, s, step) && e == Apply(cfg, s, step)
  }

  /** A finite run, from its first state to its last. */
  datatype Trace = Start(last: Epoch) | Then(before: Trace, step: Step, last: Epoch)

  ghost predicate Run(cfg: Config, run: Trace) {
    match run
    case Start(s) => Init(cfg, s)
    case Then(before, step, s) => Run(cfg, before) && Next(cfg, before.last, step, s)
  }

  /** s is the last state of some run. */
  ghost predicate Reachable(cfg: Config, s: Epoch) {
    exists run :: Run(cfg, run) && run.last == s
  }
}
