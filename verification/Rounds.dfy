/** One round of the leader's loop: the weighted wait, the commit and the drain. */
module Rounds {
  import opened Weights
  import opened KVStore

  datatype Status = Gathering | Quorate | Expired | Committed | ExecFailed(error: ExecError) | TimedOut

  /** inbox is the receiver channel, queue the prioQueue channel; the first counted entries were weighed. */
  datatype Round = Round(
    cmd: Command,
    weights: map<int, real>,
    base: real,
    prioSum: real,
    inbox: seq<int>,
    queue: seq<int>,
    counted: nat,
    status: Status)

  /** What the waiting client is told. */
  datatype Reply = Ok | ExecError(error: ExecError) | Timeout

  function Opened(cmd: Command, weights: map<int, real>, base: real): Round {
    Round(cmd, weights, base, base, [], [], 0, Gathering)
  }

  function Delivered(r: Round, sid: int): Round {
    r.(inbox := r.inbox + [sid])
  }

  /** One turn of the wait loop that found a reply; w is the map read from the manager. */
  function Received(r: Round, w: map<int, real>, majority: real): Round
    requires r.inbox != []
  {
    var sid := r.inbox[0];
    var sum := r.prioSum + Lookup(w, sid);
    r.(inbox := r.inbox[1..], queue := r.queue + [sid], counted := r.counted + 1, prioSum := sum,
       status := if sum > majority then Quorate else r.status)
  }

  function Drained(r: Round): Round
    requires r.inbox != []
  {
    r.(inbox := r.inbox[1..], queue := r.queue + [r.inbox[0]])
  }

  predicate Settled(status: Status) {
    status.Committed? || status.ExecFailed? || status.TimedOut?
  }

  /** The commit step: a quorate round runs the command on the leader's store. */
  function Decision(status: Status, store: Store, cmd: Command): Status {
    if status.Quorate? then
      match Execute(store, cmd)
      case Done(_) => Committed
      case Failed(e) => ExecFailed(e)
    else TimedOut
  }

  function ReplyOf(status: Status): Reply
    requires Settled(status)
  {
    match status
    case Committed => Ok
    case ExecFailed(e) => ExecError(e)
    case TimedOut => Timeout
  }

  /** The running sum is honest and no earlier arrival had completed a quorum. */
  ghost predicate Tally(r: Round, majority: real) {
    && r.counted <= |r.queue|
    && r.prioSum == r.base + RunningSum(r.weights, r.queue, r.counted)
    && (forall j :: 0 < j < r.counted ==> r.base + RunningSum(r.weights, r.queue, j) <= majority)
    && (r.status.Quorate? || r.status.Committed? || r.status.ExecFailed? ==> r.counted > 0 && r.prioSum > majority)
    && (r.status.Gathering? || r.status.Expired? || r.status.TimedOut? ==> r.counted > 0 ==> r.prioSum <= majority)
    && (!Settled(r.status) ==> r.counted == |r.queue|)
  }

  lemma OpenedTally(cmd: Command, w: map<int, real>, base: real, majority: real)
    ensures Tally(Opened(cmd, w, base), majority)
  {
  }

  lemma ReceivedTally(r: Round, majority: real)
    requires Tally(r, majority) && r.status.Gathering? && r.inbox != []
    ensures Tally(Received(r, r.weights, majority), majority)
  {
    var e := Received(r, r.weights, majority);
    forall j | 0 <= j <= r.counted
      ensures RunningSum(r.weights, e.queue, j) == RunningSum(r.weights, r.queue, j)
    {
      RunningSumPrefix(r.weights, r.queue, e.queue, j);
    }
  }

  lemma DrainedTally(r: Round, majority: real)
    requires Tally(r, majority) && Settled(r.status) && r.inbox != []
    ensures Tally(Drained(r), majority)
  {
    var e := Drained(r);
    forall j | 0 <= j <= r.counted
      ensures RunningSum(r.weights, e.queue, j) == RunningSum(r.weights, r.queue, j)
    {
      RunningSumPrefix(r.weights, r.queue, e.queue, j);
    }
  }

  // ---- The wait loop itself ----

  /** What one select of the wait loop finds. */
  datatype Event = Arrival(sid: int) | Clock

  /** The events are the arrivals of these replies, in this order. */
  predicate Arrived(events: seq<Event>, sids: seq<int>) {
    |sids| <= |events| && forall i :: 0 <= i < |sids| ==> events[i] == Arrival(sids[i])
  }

  /** The round after these replies arrived one by one, each weighed while the round still gathers. */
  function AfterArrivals(r: Round, sids: seq<int>, majority: real): Round {
    if sids == [] then r
    else
      var before := AfterArrivals(r, sids[..|sids| - 1], majority);
      if before.status.Gathering? then
        Received(before.(inbox := [sids[|sids| - 1]]), r.weights, majority)
      else before
  }

  /** What the wait loop may say of the replies it weighed: the sum is theirs, and only the last
      of them can have completed a quorum. */
  ghost predicate CountsHonestly(w: map<int, real>, prioVal: real, majority: real, prioQueue: seq<int>, prioSum: real) {
    && prioSum == prioVal + RunningSum(w, prioQueue, |prioQueue|)
    && (forall j :: 0 < j < |prioQueue| ==> prioVal + RunningSum(w, prioQueue, j) <= majority)
  }

  lemma CountOneMore(w: map<int, real>, prioVal: real, majority: real, prioQueue: seq<int>, prioSum: real, sid: int)
    requires CountsHonestly(w, prioVal, majority, prioQueue, prioSum)
    requires prioQueue != [] ==> prioSum <= majority
    ensures CountsHonestly(w, prioVal, majority, prioQueue + [sid], prioSum + Lookup(w, sid))
  {
    forall j | 0 <= j <= |prioQueue|
      ensures RunningSum(w, prioQueue + [sid], j) == RunningSum(w, prioQueue, j)
    {
      RunningSumPrefix(w, prioQueue, prioQueue + [sid], j);
    }
  }

  lemma ClockStillAhead(events: seq<Event>, u: nat)
    requires u < |events| && events[u].Arrival? && Clock in events[u..]
    ensures Clock in events[u + 1..]
  {
    assert events[u..] == [events[u]] + events[u + 1..];
  }

  /** The waitLoop of RunConsensus over the events it selects; the clock fires at some point. */
  method WaitLoop(w: map<int, real>, prioVal: real, majority: real, events: seq<Event>)
    returns (prioQueue: seq<int>, prioSum: real, timedOut: bool)
    requires Clock in events
    ensures |prioQueue| <= |events| && forall i :: 0 <= i < |prioQueue| ==> events[i] == Arrival(prioQueue[i])
    ensures prioSum == prioVal + RunningSum(w, prioQueue, |prioQueue|)
    ensures forall j :: 0 < j < |prioQueue| ==> prioVal + RunningSum(w, prioQueue, j) <= majority
    ensures timedOut ==> |prioQueue| < |events| && events[|prioQueue|].Clock?
    ensures if timedOut then prioQueue != [] ==> prioSum <= majority else prioQueue != [] && prioSum > majority
  {
    prioQueue, prioSum, timedOut := [], prioVal, false;
    while true
      invariant Arrived(events, prioQueue) && Clock in events[|prioQueue|..]
      invariant CountsHonestly(w, prioVal, majority, prioQueue, prioSum)
      invariant prioQueue != [] ==> prioSum <= majority
      decreases |events| - |prioQueue|
    {
      match events[|prioQueue|] {
        case Arrival(sid) =>
          ClockStillAhead(events, |prioQueue|);
          CountOneMore(w, prioVal, majority, prioQueue, prioSum, sid);
          prioQueue := prioQueue + [sid];
          prioSum := prioSum + Lookup(w, sid);
          if prioSum > majority {
            return;
          }
        case Clock =>
          timedOut := true;
          return;
      }
    }
  }

  /** The round a wait loop that weighed these replies has made of a freshly opened one. */
  function Waited(cmd: Command, w: map<int, real>, prioVal: real, majority: real, queue: seq<int>): Round {
    var sum := prioVal + RunningSum(w, queue, |queue|);
    Round(cmd, w, prioVal, sum, [], queue, |queue|, if queue != [] && sum > majority then Quorate else Gathering)
  }

  lemma WaitedOneMore(cmd: Command, w: map<int, real>, prioVal: real, majority: real, p: seq<int>, sid: int)
    requires Waited(cmd, w, prioVal, majority, p).status.Gathering?
    ensures Received(Waited(cmd, w, prioVal, majority, p).(inbox := [sid]), w, majority)
         == Waited(cmd, w, prioVal, majority, p + [sid])
  {
    RunningSumPrefix(w, p, p + [sid], |p|);
  }

  /** The loop and the single arrival steps agree: a freshly opened round ends with exactly the
      queue, the sum and the verdict of the loop. */
  lemma {:induction false} LoopIsArrivalSteps(cmd: Command, w: map<int, real>, prioVal: real, majority: real,
                                              prioQueue: seq<int>)
    requires forall j :: 0 < j < |prioQueue| ==> prioVal + RunningSum(w, prioQueue, j) <= majority
    ensures AfterArrivals(Opened(cmd, w, prioVal), prioQueue, majority)
         == Waited(cmd, w, prioVal, majority, prioQueue)
  {
    if prioQueue != [] {
      var p, sid := prioQueue[..|prioQueue| - 1], prioQueue[|prioQueue| - 1];
      assert prioQueue == p + [sid];
      forall j | 0 <= j <= |p|
        ensures RunningSum(w, p, j) == RunningSum(w, prioQueue, j)
      {
        RunningSumPrefix(w, p, prioQueue, j);
      }
      LoopIsArrivalSteps(cmd, w, prioVal, majority, p);
      WaitedOneMore(cmd, w, prioVal, majority, p, sid);
    }
  }
}
