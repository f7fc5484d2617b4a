/** A leader's consensus loop over its manager and its collection. */
module Leaders {
  import opened Weights
  import opened PriorityManagers
  import opened PriorityStates
  import opened KVStore
  import opened Rounds
  import opened Miscounts

  /** A command, what the selects of its wait loop find, the replies its drain loop still finds, and what the
      node's handlers share with the loop: the PrioVal that the round reads, and the leader id that its
      re-ranking reads, the node's own unless another leader has written it. */
  datatype RoundInput = RoundInput(cmd: Command, events: seq<Event>, late: seq<int>, prioVal: real, rankID: int)

  /** Each follower answers a round at most once, and the deadline passes at some point. */
  ghost predicate Admissible(n: nat, self: int, input: RoundInput) {
    && Clock in input.events
    && (forall i :: 0 <= i < |input.events| && input.events[i].Arrival? ==>
          Follower(n, self, input.events[i].sid) && input.events[i].sid !in input.late)
    && (forall i, j :: 0 <= i < j < |input.events| && input.events[i].Arrival? && input.events[j].Arrival?
          ==> input.events[i].sid != input.events[j].sid)
    && Distinct(input.late) && (forall i :: 0 <= i < |input.late| ==> Follower(n, self, input.late[i]))
  }

  lemma QueueIsReplies(n: nat, self: int, input: RoundInput, prompt: seq<int>)
    requires Admissible(n, self, input) && 0 <= self < n && Arrived(input.events, prompt)
    ensures Replies(n, self, prompt + input.late) && |prompt + input.late| < n
  {
    var queue := prompt + input.late;
    forall i | 0 <= i < |queue|
      ensures Follower(n, self, queue[i])
    {
      if i < |prompt| {
        assert input.events[i] == Arrival(prompt[i]);
      }
    }
    forall i, j | 0 <= i < j < |queue|
      ensures queue[i] != queue[j]
    {
      if i < |prompt| {
        assert input.events[i] == Arrival(prompt[i]);
        if j < |prompt| {
          assert input.events[j] == Arrival(prompt[j]);
        }
      }
    }
    DistinctFewer(queue, n, self);
  }

  /** The settled round: its prompt replies were weighed, the late ones only queued. */
  function Settle(w: map<int, real>, base: real, sum: real, input: RoundInput, prompt: seq<int>, timedOut: bool,
                  store: Store): Round {
    Round(input.cmd, w, base, sum, [], prompt + input.late, |prompt|,
          Decision(if timedOut then Expired else Quorate, store, input.cmd))
  }

  lemma SettleTally(w: map<int, real>, base: real, sum: real, input: RoundInput, prompt: seq<int>, timedOut: bool,
                    store: Store, majority: real)
    requires CountsHonestly(w, base, majority, prompt, sum)
    requires if timedOut then prompt != [] ==> sum <= majority else prompt != [] && sum > majority
    ensures Tally(Settle(w, base, sum, input, prompt, timedOut, store), majority)
  {
    var queue := prompt + input.late;
    forall j | 0 <= j <= |prompt|
      ensures RunningSum(w, queue, j) == RunningSum(w, prompt, j)
    {
      RunningSumPrefix(w, prompt, queue, j);
    }
  }

  /** What a round on this input comes to, given the manager's weights and the store it finds. */
  ghost predicate RoundOf(input: RoundInput, w: map<int, real>, base: real, majority: real, store: Store, r: Round) {
    && r.cmd == input.cmd && r.weights == w && r.base == base && r.inbox == []
    && Tally(r, majority)
    && Arrived(input.events, r.queue[..r.counted]) && r.queue[r.counted..] == input.late
    && (r.status.TimedOut? ==> r.counted < |input.events| && input.events[r.counted].Clock?)
    && (!r.status.TimedOut? ==> r.status == Decision(Quorate, store, r.cmd))
    && Settled(r.status)
  }

  lemma SettleIsRoundOf(w: map<int, real>, base: real, sum: real, input: RoundInput, prompt: seq<int>, timedOut: bool,
                        store: Store, majority: real)
    requires Arrived(input.events, prompt) && CountsHonestly(w, base, majority, prompt, sum)
    requires if timedOut then prompt != [] ==> sum <= majority else prompt != [] && sum > majority
    requires timedOut ==> |prompt| < |input.events| && input.events[|prompt|].Clock?
    ensures RoundOf(input, w, base, majority, store, Settle(w, base, sum, input, prompt, timedOut, store))
  {
    SettleTally(w, base, sum, input, prompt, timedOut, store, majority);
    assert (prompt + input.late)[..|prompt|] == prompt && (prompt + input.late)[|prompt|..] == input.late;
  }

  /** The manager's map of a clock, empty where there is none. */
  function MapAt(m: map<int, map<int, real>>, clock: int): map<int, real> {
    if clock in m then m[clock] else map[]
  }

  ghost predicate SomeRedistribution(scheme: seq<real>, n: nat, queue: seq<int>, id: int, w: map<int, real>) {
    exists rest :: Redistributed(scheme, n, queue, id, rest, w)
  }

  /** The re-ranking after a round: a new map for the next clock, or none if the id read is no node's or
      belongs to a node that replied. */
  ghost predicate RankedNext(scheme: seq<real>, n: nat, m: map<int, map<int, real>>, m': map<int, map<int, real>>,
                             clock: nat, queue: seq<int>, rankID: int)
  {
    if 0 <= rankID < n && rankID !in queue then
      clock + 1 in m' && m' == m[clock + 1 := m'[clock + 1]]
      && SomeRedistribution(scheme, n, queue, rankID, m'[clock + 1])
    else m' == m
  }

  /** What the client of a command that was run is told. */
  function Told(result: ExecResult): Reply {
    match result
    case Done(_) => Ok
    case Failed(e) => Reply.ExecError(e)
  }

  /** The commit step and the reply to the waiting client. */
  method Commit(collection: Collection, cmd: Command, timedOut: bool) returns (reply: Reply)
    modifies collection
    ensures reply == Timeout <==> timedOut
    ensures reply == Ok <==> !timedOut && Execute(old(collection.docs), cmd).Done?
    ensures forall e :: reply == Reply.ExecError(e) <==> !timedOut && Execute(old(collection.docs), cmd) == Failed(e)
    ensures collection.docs == if timedOut then old(collection.docs) else After(old(collection.docs), cmd)
  {
    if timedOut {
      return Timeout;
    }
    var err := collection.Run(cmd);
    reply := match err case None => Ok case Some(e) => ExecError(e);
  }

  method RunRound(pm: PriorityManager, prio: PriorityState, collection: Collection, self: int, clock: nat,
                  input: RoundInput)
    returns (reply: Reply, ghost r: Round)
    requires |pm.scheme| == pm.n && 0 <= self < pm.n && Admissible(pm.n, self, input)
    modifies pm`m, collection
    ensures RoundOf(input, old(MapAt(pm.m, clock)), prio.prioVal, prio.majority, old(collection.docs), r)
    ensures r.counted <= |r.queue| && r.queue[r.counted..] == input.late && r.counted <= |input.events|
    ensures forall i :: 0 <= i < r.counted ==> input.events[i] == Arrival(r.queue[i])
    ensures reply != Timeout ==> r.counted > 0
    ensures reply == Timeout ==> r.counted < |input.events| && input.events[r.counted].Clock?
    ensures forall j :: 0 < j <= r.counted ==>
      (prio.prioVal + RunningSum(old(MapAt(pm.m, clock)), r.queue, j) > prio.majority <==>
        j == r.counted && reply != Timeout)
    ensures reply == Timeout <==> r.status.TimedOut?
    ensures reply != Timeout ==> reply == Told(Execute(old(collection.docs), input.cmd))
    ensures collection.docs == if reply == Timeout then old(collection.docs) else After(old(collection.docs), input.cmd)
    ensures Replies(pm.n, self, r.queue)
    ensures RankedNext(pm.scheme, pm.n, old(pm.m), pm.m, clock, r.queue, input.rankID)
  {
    var w := pm.GetFollowerPriorities(clock);
    var prompt, sum, timedOut := WaitLoop(w, prio.prioVal, prio.majority, input.events);
    r := Settle(w, prio.prioVal, sum, input, prompt, timedOut, collection.docs);
    SettleIsRoundOf(w, prio.prioVal, sum, input, prompt, timedOut, collection.docs, prio.majority);
    reply := Commit(collection, input.cmd, timedOut);
    QueueIsReplies(pm.n, self, input, prompt);
    Rerank(pm, clock, prompt + input.late, input.rankID);
  }

  method Rerank(pm: PriorityManager, clock: nat, prioQueue: seq<int>, rankID: int)
    requires |pm.scheme| == pm.n && Distinct(prioQueue) && Within(prioQueue, pm.n) && |prioQueue| < pm.n
    modifies pm`m
    ensures RankedNext(pm.scheme, pm.n, old(pm.m), pm.m, clock, prioQueue, rankID)
  {
    FailsIffLeaderReplied(pm.n, prioQueue, rankID);
    ghost var rest;
    var ok;
    ok, rest := pm.UpdateFollowerPriorities(clock + 1, prioQueue, rankID);
  }

  // ---- The loop over commands ----

  /** The weights are some ranking of the nodes that starts with these. */
  ghost predicate RankedFrom(w: map<int, real>, scheme: seq<real>, first: seq<int>) {
    exists order :: RankedBy(w, order, scheme) && first <= order
  }

  lemma RedistributedIsRankedFrom(scheme: seq<real>, n: nat, queue: seq<int>, id: int, rest: seq<int>,
                                  w: map<int, real>)
    requires n == |scheme| && Replies(n, id, queue) && Redistributed(scheme, n, queue, id, rest, w)
    ensures RankedFrom(w, scheme, [id] + queue)
  {
    RedistributedIsRanked(scheme, n, queue, id, rest, w);
    assert [id] + queue <= NewOrder(id, queue, rest);
  }

  lemma InitialIsRankedFrom(scheme: seq<real>)
    ensures RankedFrom(InitialWeights(scheme), scheme, Identity(|scheme|))
  {
    InitialIsRanked(scheme);
  }

  /** Then the i-th of these holds scheme[i]. */
  lemma RankedFromWeight(w: map<int, real>, scheme: seq<real>, first: seq<int>, i: nat)
    requires RankedFrom(w, scheme, first) && i < |first|
    ensures i < |scheme| && first[i] in w && w[first[i]] == scheme[i]
  {
    var order :| RankedBy(w, order, scheme) && first <= order;
    assert order[i] == first[i];
    RankLookup(w, order, scheme, i);
  }

  /** A clock's map is a ranking or missing. */
  ghost predicate RankedOrMissing(w: map<int, real>, scheme: seq<real>) {
    w == map[] || exists first :: RankedFrom(w, scheme, first)
  }

  /** A round that did not time out was answered by a weighted quorum of at least t+1 nodes, if the leader did
      not overstate its own weight; Miscounts.QuorumExitExact says when else it was. */
  lemma RoundHasQuorum(scheme: seq<real>, t: nat, majority: real, self: int, r: Round)
    requires Sound(scheme, t, majority) && RankedOrMissing(r.weights, scheme) && Tally(r, majority)
    requires Replies(|scheme|, self, r.queue) && Settled(r.status) && !r.status.TimedOut?
    requires r.base <= Lookup(r.weights, self)
    ensures Quorum(r.weights, Counted(self, r), |scheme|, majority) && |Counted(self, r)| >= t + 1
  {
    ExitIsPassing(|scheme|, self, r.weights, r.base, majority, r);
    if r.weights == map[] {
      TopSumMono(scheme, 0, t);
      NothingWeighsNothing(Counted(self, r), |scheme|);
    } else {
      var first :| RankedFrom(r.weights, scheme, first);
      var order :| RankedBy(r.weights, order, scheme) && first <= order;
      QuorumIsLarge(r.weights, order, scheme, t, majority, Counted(self, r));
    }
  }

  /** What the loop promises of round k, with stores[k] the collection it found and stores[k + 1] the one it left. */
  ghost predicate RoundDone(scheme: seq<real>, t: nat, majority: real, self: int, stores: seq<Store>,
                            inputs: seq<RoundInput>, log: seq<Round>, replies: seq<Reply>, k: nat)
  {
    && k < |inputs| && k < |log| && k < |replies| && k + 1 < |stores|
    && RoundOf(inputs[k], log[k].weights, inputs[k].prioVal, majority, stores[k], log[k])
    && Replies(|scheme|, self, log[k].queue) && RankedOrMissing(log[k].weights, scheme)
    && (replies[k] == Timeout <==> log[k].status.TimedOut?)
    && (replies[k] == Timeout ==> stores[k + 1] == stores[k])
    && (replies[k] != Timeout ==>
          && stores[k + 1] == After(stores[k], inputs[k].cmd)
          && replies[k] == Told(Execute(stores[k], inputs[k].cmd)))
    && (replies[k] != Timeout && inputs[k].prioVal <= Lookup(log[k].weights, self) ==>
          Quorum(log[k].weights, Counted(self, log[k]), |scheme|, majority) && |Counted(self, log[k])| >= t + 1)
  }

  ghost predicate LogOk(scheme: seq<real>, t: nat, majority: real, self: int, stores: seq<Store>,
                        inputs: seq<RoundInput>, log: seq<Round>, replies: seq<Reply>)
  {
    && |log| == |replies| == |stores| - 1 <= |inputs|
    && forall k :: 0 <= k < |log| ==> RoundDone(scheme, t, majority, self, stores, inputs, log, replies, k)
  }

  lemma LogGrows(scheme: seq<real>, t: nat, majority: real, self: int, stores: seq<Store>, inputs: seq<RoundInput>,
                 log: seq<Round>, replies: seq<Reply>, r: Round, reply: Reply, store: Store)
    requires Sound(scheme, t, majority) && LogOk(scheme, t, majority, self, stores, inputs, log, replies)
    requires |log| < |inputs| && RankedOrMissing(r.weights, scheme) && Replies(|scheme|, self, r.queue)
    requires RoundOf(inputs[|log|], r.weights, inputs[|log|].prioVal, majority, stores[|log|], r)
    requires reply == Timeout <==> r.status.TimedOut?
    requires reply != Timeout ==> reply == Told(Execute(stores[|log|], inputs[|log|].cmd))
    requires store == if reply == Timeout then stores[|log|] else After(stores[|log|], inputs[|log|].cmd)
    ensures LogOk(scheme, t, majority, self, stores + [store], inputs, log + [r], replies + [reply])
  {
    if !r.status.TimedOut? && r.base <= Lookup(r.weights, self) {
      RoundHasQuorum(scheme, t, majority, self, r);
    }
    forall k | 0 <= k < |log|
      ensures RoundDone(scheme, t, majority, self, stores + [store], inputs, log + [r], replies + [reply], k)
    {
      assert RoundDone(scheme, t, majority, self, stores, inputs, log, replies, k);
    }
    assert RoundDone(scheme, t, majority, self, stores + [store], inputs, log + [r], replies + [reply], |log|);
  }

  /** The map of clock k: the initial one, then the ranking that starts with the id read after the round before
      and goes on with its replies as they arrived, if that id allows one. */
  ghost predicate ClockOk(m: map<int, map<int, real>>, scheme: seq<real>, inputs: seq<RoundInput>, log: seq<Round>,
                          k: nat)
    requires k <= |log| <= |inputs|
  {
    if k == 0 then 0 in m && RankedFrom(m[0], scheme, Identity(|scheme|))
    else if 0 <= inputs[k - 1].rankID < |scheme| && inputs[k - 1].rankID !in log[k - 1].queue then
      k in m && RankedFrom(m[k], scheme, [inputs[k - 1].rankID] + log[k - 1].queue)
    else k !in m
  }

  /** Every clock so far is as it should be, each round ran on its own clock's weights, and no map is left over. */
  ghost predicate ManagerOk(m: map<int, map<int, real>>, scheme: seq<real>, inputs: seq<RoundInput>, log: seq<Round>)
    requires |log| <= |inputs|
  {
    && (forall k :: 0 <= k <= |log| ==> ClockOk(m, scheme, inputs, log, k))
    && (forall k :: 0 <= k < |log| ==> log[k].weights == MapAt(m, k))
    && (forall k :: k in m ==> k <= |log|)
  }

  lemma ClockIsRankedOrMissing(m: map<int, map<int, real>>, scheme: seq<real>, inputs: seq<RoundInput>,
                               log: seq<Round>, k: nat)
    requires k <= |log| <= |inputs| && ClockOk(m, scheme, inputs, log, k)
    ensures RankedOrMissing(MapAt(m, k), scheme)
  {
  }

  lemma ClockGrows(m: map<int, map<int, real>>, m': map<int, map<int, real>>, scheme: seq<real>, self: int,
                   inputs: seq<RoundInput>, log: seq<Round>, r: Round)
    requires |log| < |inputs| && ManagerOk(m, scheme, inputs, log) && Replies(|scheme|, self, r.queue)
    requires RankedNext(scheme, |scheme|, m, m', |log|, r.queue, inputs[|log|].rankID)
    ensures ClockOk(m', scheme, inputs, log + [r], |log| + 1)
  {
    var id, k := inputs[|log|].rankID, |log| + 1;
    if 0 <= id < |scheme| && id !in r.queue {
      var rest :| Redistributed(scheme, |scheme|, r.queue, id, rest, m'[k]);
      RedistributedIsRankedFrom(scheme, |scheme|, r.queue, id, rest, m'[k]);
    }
  }

  lemma ManagerGrows(m: map<int, map<int, real>>, m': map<int, map<int, real>>, scheme: seq<real>, self: int,
                     inputs: seq<RoundInput>, log: seq<Round>, r: Round)
    requires |log| < |inputs| && ManagerOk(m, scheme, inputs, log) && Replies(|scheme|, self, r.queue)
    requires RankedNext(scheme, |scheme|, m, m', |log|, r.queue, inputs[|log|].rankID)
    requires r.weights == MapAt(m, |log|)
    ensures ManagerOk(m', scheme, inputs, log + [r])
  {
    ClockGrows(m, m', scheme, self, inputs, log, r);
    forall k | 0 <= k <= |log + [r]|
      ensures ClockOk(m', scheme, inputs, log + [r], k)
    {
      if k <= |log| {
        OldClock(m, m', scheme, inputs, log, r, k);
      }
    }
    RoundsKeepMaps(m, m', scheme, inputs, log, r);
  }

  lemma RoundsKeepMaps(m: map<int, map<int, real>>, m': map<int, map<int, real>>, scheme: seq<real>,
                       inputs: seq<RoundInput>, log: seq<Round>, r: Round)
    requires |log| < |inputs| && ManagerOk(m, scheme, inputs, log) && r.weights == MapAt(m, |log|)
    requires m' == m || (|log| + 1 in m' && m' == m[|log| + 1 := m'[|log| + 1]])
    ensures forall k :: 0 <= k < |log + [r]| ==> (log + [r])[k].weights == MapAt(m', k)
    ensures forall k :: k in m' ==> k <= |log + [r]|
  {
    forall k | 0 <= k <= |log|
      ensures MapAt(m', k) == MapAt(m, k)
    {
      OldClock(m, m', scheme, inputs, log, r, k);
    }
  }

  lemma OldClock(m: map<int, map<int, real>>, m': map<int, map<int, real>>, scheme: seq<real>,
                 inputs: seq<RoundInput>, log: seq<Round>, r: Round, k: nat)
    requires k <= |log| < |inputs| && ManagerOk(m, scheme, inputs, log)
    requires m' == m || (|log| + 1 in m' && m' == m[|log| + 1 := m'[|log| + 1]])
    ensures ClockOk(m', scheme, inputs, log + [r], k) && MapAt(m', k) == MapAt(m, k)
  {
    assert ClockOk(m, scheme, inputs, log, k);
  }

  /** What the loop holds between rounds: the rounds so far, their replies, the manager's maps and the collection. */
  ghost predicate Leading(scheme: seq<real>, majority: real, t: nat, self: int, m: map<int, map<int, real>>,
                          stores: seq<Store>, inputs: seq<RoundInput>, log: seq<Round>, replies: seq<Reply>)
  {
    && Sound(scheme, t, majority)
    && LogOk(scheme, t, majority, self, stores, inputs, log, replies)
    && ManagerOk(m, scheme, inputs, log)
  }

  lemma ManagerStarts(m: map<int, map<int, real>>, scheme: seq<real>, inputs: seq<RoundInput>, w: map<int, real>)
    requires RankedFrom(w, scheme, Identity(|scheme|)) && m == map[0 := w]
    ensures ManagerOk(m, scheme, inputs, [])
  {
    forall k: nat | k == 0
      ensures ClockOk(m, scheme, inputs, [], k)
    {
      assert m[k] == w;
    }
  }

  lemma InitialManager(m: map<int, map<int, real>>, scheme: seq<real>, inputs: seq<RoundInput>)
    requires m == map[0 := InitialWeights(scheme)]
    ensures ManagerOk(m, scheme, inputs, [])
  {
    InitialIsRankedFrom(scheme);
    ManagerStarts(m, scheme, inputs, InitialWeights(scheme));
  }

  lemma LeadingGrows(scheme: seq<real>, majority: real, t: nat, self: int,
                     m: map<int, map<int, real>>, m': map<int, map<int, real>>, stores: seq<Store>, store: Store,
                     inputs: seq<RoundInput>, log: seq<Round>, replies: seq<Reply>, r: Round, reply: Reply)
    requires Leading(scheme, majority, t, self, m, stores, inputs, log, replies) && |log| < |inputs|
    requires RoundOf(inputs[|log|], MapAt(m, |log|), inputs[|log|].prioVal, majority, stores[|log|], r)
    requires reply == Timeout <==> r.status.TimedOut?
    requires reply != Timeout ==> reply == Told(Execute(stores[|log|], inputs[|log|].cmd))
    requires store == if reply == Timeout then stores[|log|] else After(stores[|log|], inputs[|log|].cmd)
    requires Replies(|scheme|, self, r.queue)
    requires RankedNext(scheme, |scheme|, m, m', |log|, r.queue, inputs[|log|].rankID)
    ensures Leading(scheme, majority, t, self, m', stores + [store], inputs, log + [r], replies + [reply])
  {
    ClockIsRankedOrMissing(m, scheme, inputs, log, |log|);
    LogGrows(scheme, t, majority, self, stores, inputs, log, replies, r, reply, store);
    ManagerGrows(m, m', scheme, self, inputs, log, r);
  }

  /** RunConsensus on any node, the PrioVal it reads and the id it ranks by under anyone's control: one reply
      per command in order, each told by its own round; the collection goes through the commands of the rounds
      that did not time out, and no others; each clock is ranked for the id read and then by the replies, or has
      no map; and a reply stands for a quorum wherever the leader's weight is not overstated. */
  method RunConsensus(pm: PriorityManager, prio: PriorityState, collection: Collection, ghost t: nat, self: int,
                      inputs: seq<RoundInput>)
    returns (replies: seq<Reply>, ghost log: seq<Round>, ghost stores: seq<Store>)
    requires Sound(pm.scheme, t, pm.majority) && |pm.scheme| == pm.n && prio.majority == pm.majority
    requires 0 <= self < pm.n && pm.m == map[0 := InitialWeights(pm.scheme)]
    requires forall k :: 0 <= k < |inputs| ==> Admissible(pm.n, self, inputs[k])
    modifies pm`m, prio`prioVal, collection
    ensures |replies| == |log| == |inputs| == |stores| - 1
    ensures stores[0] == old(collection.docs) && stores[|inputs|] == collection.docs
    ensures Leading(pm.scheme, pm.majority, t, self, pm.m, stores, inputs, log, replies)
  {
    replies, log, stores := [], [], [collection.docs];
    var leaderPClock := 0;
    InitialManager(pm.m, pm.scheme, inputs);
    while leaderPClock < |inputs|
      invariant |log| == leaderPClock <= |inputs|
      invariant Leading(pm.scheme, pm.majority, t, self, pm.m, stores, inputs, log, replies)
      invariant stores[0] == old(collection.docs) && stores[|log|] == collection.docs
    {
      ghost var m := pm.m;
      prio.prioVal := inputs[leaderPClock].prioVal;
      var reply; ghost var r;
      reply, r := RunRound(pm, prio, collection, self, leaderPClock, inputs[leaderPClock]);
      LeadingGrows(pm.scheme, pm.majority, t, self, m, pm.m, stores, collection.docs,
                   inputs, log, replies, r, reply);
      replies, log, stores := replies + [reply], log + [r], stores + [collection.docs];
      leaderPClock := leaderPClock + 1;
    }
  }

  /** What each reply of the loop means: the queue is the arrivals before the verdict and then the late ones, the
      verdict is a quorum at the first arrival whose sum exceeds the majority and a timeout if the clock came
      first, and the collection took the command exactly if it was no timeout. */
  lemma LoopAnswers(scheme: seq<real>, majority: real, t: nat, self: int, m: map<int, map<int, real>>,
                    stores: seq<Store>, inputs: seq<RoundInput>, log: seq<Round>, replies: seq<Reply>, k: nat)
    requires Leading(scheme, majority, t, self, m, stores, inputs, log, replies) && k < |log|
    ensures |log| == |replies| == |stores| - 1 <= |inputs|
    ensures var c, queue, input := log[k].counted, log[k].queue, inputs[k];
      && c <= |queue| && c <= |input.events| && queue[c..] == input.late
      && (forall i :: 0 <= i < c ==> input.events[i] == Arrival(queue[i]))
      && (forall j :: 0 < j <= c ==>
            (input.prioVal + RunningSum(MapAt(m, k), queue, j) > majority <==> j == c && replies[k] != Timeout))
      && (replies[k] == Timeout ==> c < |input.events| && input.events[c].Clock? && stores[k + 1] == stores[k])
      && (replies[k] != Timeout ==> c > 0)
      && (replies[k] == Ok ==> Execute(stores[k], input.cmd) == Done(stores[k + 1]))
      && (forall e :: replies[k] == Reply.ExecError(e) ==>
            Execute(stores[k], input.cmd) == Failed(e) && stores[k + 1] == stores[k])
  {
    assert RoundDone(scheme, t, majority, self, stores, inputs, log, replies, k);
  }

  /** Fast followers are rewarded: after each round whose re-ranking succeeds the node ranked for holds scheme[0]
      and the j-th replier scheme[j + 1] for the next. */
  lemma LoopRewardsReplies(scheme: seq<real>, majority: real, t: nat, self: int, m: map<int, map<int, real>>,
                           stores: seq<Store>, inputs: seq<RoundInput>, log: seq<Round>, replies: seq<Reply>, k: nat)
    requires Leading(scheme, majority, t, self, m, stores, inputs, log, replies) && k < |log| <= |inputs|
    requires 0 <= inputs[k].rankID < |scheme| && inputs[k].rankID !in log[k].queue
    ensures k + 1 in m && |log[k].queue| < |scheme| && Lookup(m[k + 1], inputs[k].rankID) == scheme[0]
    ensures forall j :: 0 <= j < |log[k].queue| ==> Lookup(m[k + 1], log[k].queue[j]) == scheme[j + 1]
  {
    assert ClockOk(m, scheme, inputs, log, k + 1);
    var first := [inputs[k].rankID] + log[k].queue;
    RankedFromWeight(m[k + 1], scheme, first, 0);
    RankedFromWeight(m[k + 1], scheme, first, |first| - 1);
    forall j | 0 <= j < |log[k].queue|
      ensures Lookup(m[k + 1], log[k].queue[j]) == scheme[j + 1]
    {
      RankedFromWeight(m[k + 1], scheme, first, j + 1);
    }
  }

  /** The initial leader ranking by its own id never overstates its weight, so all its replies stand for quorums. */
  lemma InitialLeaderIsTrusted(scheme: seq<real>, majority: real, t: nat, m: map<int, map<int, real>>,
                               stores: seq<Store>, inputs: seq<RoundInput>, log: seq<Round>, replies: seq<Reply>,
                               k: nat)
    requires scheme != [] && Leading(scheme, majority, t, 0, m, stores, inputs, log, replies)
    requires k < |log| <= |inputs| && inputs[k].prioVal == scheme[0] && (k > 0 ==> inputs[k - 1].rankID == 0)
    requires |log| == |replies| && replies[k] != Timeout
    ensures log[k].counted <= |log[k].queue|
    ensures Quorum(log[k].weights, Counted(0, log[k]), |scheme|, majority) && |Counted(0, log[k])| >= t + 1
  {
    assert ClockOk(m, scheme, inputs, log, k);
    assert RoundDone(scheme, t, majority, 0, stores, inputs, log, replies, k);
    if k > 0 {
      assert RoundDone(scheme, t, majority, 0, stores, inputs, log, replies, k - 1);
      RankedFromWeight(m[k], scheme, [inputs[k - 1].rankID] + log[k - 1].queue, 0);
    } else {
      RankedFromWeight(m[0], scheme, Identity(|scheme|), 0);
    }
  }
}
