/** A node's RPC handlers, its candidate's vote count and its leader's step-down, over its own state. */
module Services {
  import opened KVStore
  import opened PriorityStates
  import opened Epochs
  import E = Elections

  class ServerState {
    var leaderID: int
    var term: int
    var votedForTerm: int
    var votedForID: int

    constructor ()
      ensures leaderID == term == votedForTerm == votedForID == 0
    {
      leaderID, term, votedForTerm, votedForID := 0, 0, 0, 0;
    }

    function View(): E.Peer
      reads this
    {
      E.Peer(term, votedForTerm, votedForID, leaderID)
    }

    method SetLeaderID(id: int)
      modifies this`leaderID
      ensures leaderID == id
    {
      leaderID := id;
    }

    method SetTerm(newTerm: int)
      modifies this`term
      ensures term == newTerm
    {
      term := newTerm;
    }

    /** At most one vote a term. */
    method TryVote(forTerm: int, candidateID: int) returns (granted: bool)
      modifies this`votedForTerm, this`votedForID
      ensures granted <==> forTerm > old(votedForTerm)
      ensures granted ==> votedForTerm == forTerm && votedForID == candidateID
      ensures !granted ==> votedForTerm == old(votedForTerm) && votedForID == old(votedForID)
      ensures View() == E.AfterTryVote(old(View()), forTerm, candidateID)
    {
      granted := forTerm > votedForTerm;
      if granted {
        votedForTerm := forTerm;
        votedForID := candidateID;
      }
    }
  }

  /** An election call that a node's service may receive at any time. */
  datatype Incoming = VoteAsked(term: int, candidateID: int) | BeatHeard(leaderID: int, term: int)

  function AfterCall(p: E.Peer, call: Incoming): E.Peer {
    match call
    case VoteAsked(term, candidateID) => E.AfterRequestVote(p, term, candidateID)
    case BeatHeard(leaderID, term) => E.AfterHeartbeat(p, leaderID, term)
  }

  /** What a sequence of calls makes of a node's election state. */
  function AfterCalls(p: E.Peer, calls: seq<Incoming>): E.Peer {
    if calls == [] then p else AfterCall(AfterCalls(p, calls[..|calls| - 1]), calls[|calls| - 1])
  }

  /** Each call counts: an accepted heartbeat sets the leader id, a granted vote the term and the vote, and a
      refused one nothing. */
  lemma LastCallCounts(p: E.Peer, calls: seq<Incoming>, call: Incoming)
    ensures var q, e := AfterCalls(p, calls), AfterCalls(p, calls + [call]);
      match call
      case BeatHeard(leaderID, term) => e == if term >= q.term then q.(leaderID := leaderID) else q
      case VoteAsked(term, candidateID) =>
        e == if term > q.term && term > q.votedForTerm then E.Peer(term, term, candidateID, q.leaderID) else q
  {
    assert (calls + [call])[..|calls|] == calls;
  }

  /** No call lowers a term or gives a vote of a term back. */
  lemma {:induction false} CallsOnlyRaise(p: E.Peer, calls: seq<Incoming>)
    ensures AfterCalls(p, calls).term >= p.term && AfterCalls(p, calls).votedForTerm >= p.votedForTerm
    ensures AfterCalls(p, calls).votedForTerm == p.votedForTerm ==> AfterCalls(p, calls).votedForID == p.votedForID
  {
    if calls != [] {
      CallsOnlyRaise(p, calls[..|calls| - 1]);
    }
  }

  class CabService {
    const priority: PriorityState
    const myState: ServerState
    const collection: Collection
    var lastHeartbeat: int
    var beatCount: nat

    constructor (p: PriorityState, state: ServerState, docs: Collection, now: int)
      ensures priority == p && myState == state && collection == docs
      ensures lastHeartbeat == now && beatCount == 0
    {
      priority, myState, collection, lastHeartbeat, beatCount := p, state, docs, now, 0;
    }

    /** This node as an epoch's follower. */
    function AsNode(): Node
      reads priority, collection
    {
      Node(priority.View(), collection.docs)
    }

    /** A stale sender is refused and does not refresh the timeout. */
    method Heartbeat(leaderID: int, term: int, now: int) returns (success: bool)
      modifies this, myState
      ensures success <==> term >= old(myState.term)
      ensures myState.leaderID == if success then leaderID else old(myState.leaderID)
      ensures myState.term == old(myState.term)
      ensures myState.votedForTerm == old(myState.votedForTerm) && myState.votedForID == old(myState.votedForID)
      ensures myState.View() == E.AfterHeartbeat(old(myState.View()), leaderID, term)
      ensures lastHeartbeat == if success then now else old(lastHeartbeat)
      ensures beatCount == old(beatCount) + if success then 1 else 0
    {
      if term < myState.term {
        return false;
      }
      lastHeartbeat := now;
      myState.SetLeaderID(leaderID);
      success := true;
      beatCount := beatCount + 1;
    }

    method RequestVote(term: int, candidateID: int) returns (replyTerm: int, voteGranted: bool)
      modifies myState
      ensures replyTerm == old(myState.term)
      ensures voteGranted <==> term > old(myState.term) && term > old(myState.votedForTerm)
      ensures voteGranted ==>
        myState.term == term && myState.votedForTerm == term && myState.votedForID == candidateID
      ensures !voteGranted ==>
        && myState.term == old(myState.term)
        && myState.votedForTerm == old(myState.votedForTerm) && myState.votedForID == old(myState.votedForID)
      ensures myState.leaderID == old(myState.leaderID)
      ensures myState.View() == E.AfterRequestVote(old(myState.View()), term, candidateID)
    {
      var myTerm := myState.term;
      replyTerm := myTerm;
      if term <= myTerm {
        return replyTerm, false;
      }
      voteGranted := myState.TryVote(term, candidateID);
      if voteGranted {
        myState.SetTerm(term);
      }
    }

    /** The calls of other candidates and leaders, served in this order. */
    method ServeAll(calls: seq<Incoming>, now: int)
      modifies this, myState
      ensures myState.View() == AfterCalls(old(myState.View()), calls)
    {
      for i := 0 to |calls|
        invariant myState.View() == AfterCalls(old(myState.View()), calls[..i])
      {
        match calls[i] {
          case VoteAsked(term, candidateID) => var _, _ := RequestVote(term, candidateID);
          case BeatHeard(leaderID, term) => var _ := Heartbeat(leaderID, term, now);
        }
        assert calls[..i + 1][..i] == calls[..i];
      }
      assert calls[..|calls|] == calls;
    }

    /** Clock check and weight first, then the command: a stale call does not reach the collection, and
        a command that fails still leaves the new weight. */
    method ConsensusService(prioClock: int, prioVal: real, cmd: Command) returns (success: bool)
      modifies priority, collection
      ensures success <==> prioClock >= old(priority.prioClock) && Execute(old(collection.docs), cmd).Done?
      ensures success ==> Execute(old(collection.docs), cmd) == Done(collection.docs)
      ensures !success ==> collection.docs == old(collection.docs)
      ensures if prioClock >= old(priority.prioClock)
        then priority.prioClock == prioClock && priority.prioVal == prioVal
        else priority.prioClock == old(priority.prioClock) && priority.prioVal == old(priority.prioVal)
      ensures priority.majority == old(priority.majority)
      ensures (AsNode(), success) == Serve(old(AsNode()), prioClock, prioVal, cmd)
    {
      var ok := priority.UpdatePriority(prioClock, prioVal);
      if !ok {
        return false;
      }
      var err := collection.Run(cmd);
      success := err.None?;
    }
  }

  // ---- The candidate ----

  /** What comes of asking one peer for its vote. */
  datatype VoteAnswer = Unreachable | CallFailed | Replied(voteGranted: bool)

  /** The peers below k whose vote the candidate hears of. */
  function Granters(nodeID: int, answers: seq<VoteAnswer>, k: nat): (ids: set<int>)
    requires k <= |answers|
    ensures forall id :: id in ids <==> 0 <= id < k && id != nodeID && answers[id] == Replied(true)
  {
    set id | 0 <= id < k && id != nodeID && answers[id] == Replied(true)
  }

  lemma OneMoreAnswer(nodeID: int, answers: seq<VoteAnswer>, k: nat)
    requires k < |answers|
    ensures |Granters(nodeID, answers, k + 1)| ==
            |Granters(nodeID, answers, k)| + if k != nodeID && answers[k] == Replied(true) then 1 else 0
  {
    var before := Granters(nodeID, answers, k);
    if k != nodeID && answers[k] == Replied(true) {
      assert Granters(nodeID, answers, k + 1) == before + {k};
    } else {
      assert Granters(nodeID, answers, k + 1) == before;
    }
  }

  /** The candidate's standing: the next term is stored and, if it can be, voted for. */
  method Stand(nodeID: int, state: ServerState) returns (newTerm: int)
    modifies state
    ensures newTerm == old(state.term) + 1 && state.term == newTerm
    ensures newTerm > old(state.votedForTerm) ==> state.votedForTerm == newTerm && state.votedForID == nodeID
    ensures newTerm <= old(state.votedForTerm) ==>
      state.votedForTerm == old(state.votedForTerm) && state.votedForID == old(state.votedForID)
    ensures state.leaderID == old(state.leaderID)
    ensures state.View() == E.AfterStand(old(state.View()), nodeID)
  {
    newTerm := state.term + 1;
    state.SetTerm(newTerm);
    var _ := state.TryVote(newTerm, nodeID);
  }

  /** The candidate stands, counts itself whatever TryVote said, and wins on n-t votes. calls are those its own
      service handles while it polls; after them it has not voted in its term again. */
  method StartElection(nodeID: int, numNodes: nat, tolerance: nat, service: CabService, answers: seq<VoteAnswer>,
                       calls: seq<Incoming>, now: int)
    returns (won: bool)
    requires |answers| == numNodes
    modifies service, service.myState
    ensures won <==> 1 + |Granters(nodeID, answers, numNodes)| >= numNodes - tolerance
    ensures won ==> service.myState.leaderID == nodeID
    ensures service.myState.term > old(service.myState.term)
    ensures service.myState.votedForTerm > old(service.myState.term)
    ensures calls == [] ==>
      && service.myState.term == old(service.myState.term) + 1
      && (!won ==> service.myState.leaderID == old(service.myState.leaderID))
      && (old(service.myState.votedForTerm <= service.myState.term) ==>
            service.myState.votedForTerm == service.myState.term && service.myState.votedForID == nodeID)
      && (old(service.myState.votedForTerm > service.myState.term) ==>
            && service.myState.votedForTerm == old(service.myState.votedForTerm)
            && service.myState.votedForID == old(service.myState.votedForID))
    ensures var p := AfterCalls(E.AfterStand(old(service.myState.View()), nodeID), calls);
            service.myState.View() == if won then p.(leaderID := nodeID) else p
  {
    var state := service.myState;
    var newTerm := Stand(nodeID, state);
    ghost var stood := state.View();
    CallsOnlyRaise(stood, calls);
    var quorum := numNodes - tolerance;
    var votes := 1;
    for i := 0 to numNodes
      invariant votes == 1 + |Granters(nodeID, answers, i)| && state.View() == stood
    {
      OneMoreAnswer(nodeID, answers, i);
      if i != nodeID {
        if answers[i] == Replied(true) {
          votes := votes + 1;
        }
      }
    }
    service.ServeAll(calls, now);
    won := votes >= quorum;
    if won {
      state.SetLeaderID(nodeID);
    }
  }

  /** The method's count is the machine's: a candidacy whose counted polls are the grants heard of. */
  lemma CountIsMachineCount(cand: E.Candidacy, answers: seq<VoteAnswer>)
    requires forall p :: p in cand.polls && cand.polls[p] == E.Counted
                         <==> 0 <= p < |answers| && p != cand.node && answers[p] == Replied(true)
    ensures |E.Counts(cand)| == 1 + |Granters(cand.node, answers, |answers|)|
  {
    assert E.Counts(cand) == {cand.node} + Granters(cand.node, answers, |answers|);
  }

  // ---- The leader's step-down ----

  /** What comes of one heartbeat call. */
  datatype BeatAnswer = NoAnswer | BeatReply(success: bool)

  /** The once-guarded stop of RunHeartbeat; deposed counts the calls of onDeposed. */
  class Deposition {
    var stopped: bool
    var deposed: nat

    constructor ()
      ensures !stopped && deposed == 0
    {
      stopped, deposed := false, 0;
    }

    method Stop()
      modifies this
      ensures stopped
      ensures deposed == if old(stopped) then old(deposed) else old(deposed) + 1
    {
      if !stopped {
        stopped := true;
        deposed := deposed + 1;
      }
    }

    /** The tail of sendHeartbeat: only a reply that says no stops the leader. */
    method Hear(answer: BeatAnswer)
      modifies this
      ensures stopped == (old(stopped) || answer == BeatReply(false))
      ensures deposed == if !old(stopped) && answer == BeatReply(false) then old(deposed) + 1 else old(deposed)
    {
      if answer == BeatReply(false) {
        Stop();
      }
    }
  }

  /** Over all answers a leader ever gets, in any order, it is deposed once if any is a rejection and
      never otherwise. */
  method RunHeartbeat(answers: seq<BeatAnswer>) returns (stopped: bool, deposed: nat)
    ensures stopped <==> BeatReply(false) in answers
    ensures deposed == if BeatReply(false) in answers then 1 else 0
  {
    var d := new Deposition();
    for i := 0 to |answers|
      invariant d.stopped <==> BeatReply(false) in answers[..i]
      invariant d.deposed == if d.stopped then 1 else 0
    {
      assert answers[..i + 1] == answers[..i] + [answers[i]];
      d.Hear(answers[i]);
    }
    assert answers[..|answers|] == answers;
    stopped, deposed := d.stopped, d.deposed;
  }
}
