/** The same elections with every RequestVote and every candidate start taken as one step. */
module AtomicElections {
  import opened Weights
  import opened Elections
  import opened ElectionSafeties

  datatype Act =
    | Stand(node: nat)
    | Request(c: nat, p: nat)
    | Hear(c: nat, p: nat)
    | Conclude(c: nat)
    | Beat(p: nat, leader: int, term: int)

  predicate CanDo(cfg: Config, s: State, act: Act) {
    match act
    case Stand(node) => Enabled(cfg, s, Begin(node))
    case Request(c, p) => Enabled(cfg, s, CheckTerm(c, p))
    case Hear(c, p) => Enabled(cfg, s, CountVote(c, p))
    case Conclude(c) => Enabled(cfg, s, Finish(c))
    case Beat(p, leader, term) => Enabled(cfg, s, Heartbeat(p, leader, term))
  }

  /** Each act is the steps of the handler, or of the candidate's start, without a break. */
  function Do(cfg: Config, s: State, act: Act): State
    requires CanDo(cfg, s, act)
  {
    match act
    case Stand(node) =>
      var a := Apply(cfg, s, Begin(node));
      var b := Apply(cfg, a, StoreTerm(|s.cands|));
      Apply(cfg, b, SelfVote(|s.cands|))
    case Request(c, p) =>
      var a := Apply(cfg, s, CheckTerm(c, p));
      if AtPoll(a, c, p, Denied) then a else
      var b := Apply(cfg, a, CastVote(c, p));
      if AtPoll(b, c, p, Denied) then b else Apply(cfg, b, AdoptTerm(c, p))
    case Hear(c, p) => Apply(cfg, s, CountVote(c, p))
    case Conclude(c) => Apply(cfg, s, Finish(c))
    case Beat(p, leader, term) => Apply(cfg, s, Heartbeat(p, leader, term))
  }

  datatype AtomicTrace = From(last: State) | Did(before: AtomicTrace, act: Act, last: State)

  ghost predicate RunFrom(cfg: Config, s: State, run: AtomicTrace) {
    match run
    case From(x) => x == s
    case Did(before, act, x) =>
      RunFrom(cfg, s, before) && CanDo(cfg, before.last, act) && x == Do(cfg, before.last, act)
  }

  ghost predicate Later(cfg: Config, s: State, e: State) {
    exists run :: RunFrom(cfg, s, run) && run.last == e
  }

  ghost predicate AtomicReachable(cfg: Config, e: State) {
    exists s :: Init(cfg, s) && Later(cfg, s, e)
  }

  // ---- Refinement ----

  /** One uninterrupted act is a stretch of the interruptible machine. */
  lemma ActIsSteps(cfg: Config, s: State, act: Act)
    requires Reachable(cfg, s) && CanDo(cfg, s, act)
    ensures Reachable(cfg, Do(cfg, s, act))
  {
    match act {
      case Stand(node) =>
        Extend(cfg, s, Begin(node));
        var a := Apply(cfg, s, Begin(node));
        Extend(cfg, a, StoreTerm(|s.cands|));
        Extend(cfg, Apply(cfg, a, StoreTerm(|s.cands|)), SelfVote(|s.cands|));
      case Request(c, p) =>
        Extend(cfg, s, CheckTerm(c, p));
        var a := Apply(cfg, s, CheckTerm(c, p));
        if !AtPoll(a, c, p, Denied) {
          Extend(cfg, a, CastVote(c, p));
          var b := Apply(cfg, a, CastVote(c, p));
          if !AtPoll(b, c, p, Denied) {
            Extend(cfg, b, AdoptTerm(c, p));
          }
        }
      case Hear(c, p) => Extend(cfg, s, CountVote(c, p));
      case Conclude(c) => Extend(cfg, s, Finish(c));
      case Beat(p, leader, term) => Extend(cfg, s, Heartbeat(p, leader, term));
    }
  }

  lemma {:induction false} RunIsRun(cfg: Config, s: State, run: AtomicTrace)
    requires Reachable(cfg, s) && RunFrom(cfg, s, run)
    ensures Reachable(cfg, run.last)
  {
    match run {
      case From(_) =>
      case Did(before, act, _) =>
        RunIsRun(cfg, s, before);
        ActIsSteps(cfg, before.last, act);
    }
  }

  lemma AtomicIsReachable(cfg: Config, s: State)
    requires AtomicReachable(cfg, s)
    ensures Reachable(cfg, s)
  {
    var i :| Init(cfg, i) && Later(cfg, i, s);
    assert Run(cfg, Start(i));
    LaterIsReachable(cfg, i, s);
  }

  lemma LaterStill(cfg: Config, s: State, e: State, act: Act)
    requires Later(cfg, s, e) && CanDo(cfg, e, act)
    ensures Later(cfg, s, Do(cfg, e, act))
  {
    var run :| RunFrom(cfg, s, run) && run.last == e;
    assert RunFrom(cfg, s, Did(run, act, Do(cfg, e, act)));
  }

  lemma LaterIsReachable(cfg: Config, s: State, e: State)
    requires Reachable(cfg, s) && Later(cfg, s, e)
    ensures Reachable(cfg, e)
  {
    var run :| RunFrom(cfg, s, run) && run.last == e;
    RunIsRun(cfg, s, run);
  }

  // ---- The invariant ----

  /** A node's term is the last term it voted in. */
  predicate InStep(p: Peer) {
    0 <= p.votedForTerm == p.term
  }

  /** A candidate voted for itself, and whoever it has a vote from has reached its term. */
  ghost predicate Backed(s: State, cand: Candidacy) {
    && cand.selfVoted && cand.term >= 1
    && !cand.stage.Chosen? && !cand.stage.Announced?
    && 0 <= cand.node < |s.peers| && s.peers[cand.node].term >= cand.term
    && (forall p :: p in cand.polls ==> 0 <= p < |s.peers|)
    && (forall p :: p in cand.polls && HoldsVote(cand.polls[p]) ==> s.peers[p].term >= cand.term)
  }

  ghost predicate AtomicInv(cfg: Config, s: State) {
    && |s.peers| == cfg.n
    && (forall p :: 0 <= p < cfg.n ==> InStep(s.peers[p]))
    && (forall c :: 0 <= c < |s.cands| ==> Backed(s, s.cands[c]))
    && (forall v :: v in s.granted ==> v.1 >= 1)
  }

  predicate Risen(s: State, e: State) {
    |e.peers| == |s.peers| && forall p :: 0 <= p < |s.peers| ==> e.peers[p].term >= s.peers[p].term
  }

  lemma StayBacked(s: State, e: State, cand: Candidacy)
    requires Backed(s, cand) && Risen(s, e)
    ensures Backed(e, cand)
  {
  }

  /** What a start does as a whole; the self-vote may fail in a state no run reaches. */
  lemma StandIs(cfg: Config, s: State, node: nat)
    requires CanDo(cfg, s, Stand(node))
    ensures var p := s.peers[node]; var e := Do(cfg, s, Stand(node));
      && e.peers == s.peers[node := AfterStand(p, node)]
      && e.cands == s.cands + [Candidacy(node, p.term + 1, Polling, Votes(p, p.term + 1), map[])]
      && e.granted == if Votes(p, p.term + 1) then s.granted[(node, p.term + 1) := node] else s.granted
  {
    var term := s.peers[node].term + 1;
    var b := Apply(cfg, Apply(cfg, s, Begin(node)), StoreTerm(|s.cands|));
    assert b.peers == s.peers[node := s.peers[node].(term := term)];
    assert b.cands == s.cands + [Candidacy(node, term, Announced, false, map[])];
  }

  lemma StandKeeps(cfg: Config, s: State, node: nat)
    requires AtomicInv(cfg, s) && CanDo(cfg, s, Stand(node))
    ensures AtomicInv(cfg, Do(cfg, s, Stand(node))) && Risen(s, Do(cfg, s, Stand(node)))
  {
    var e := Do(cfg, s, Stand(node));
    StandIs(cfg, s, node);
    assert InStep(s.peers[node]);
    forall c | 0 <= c < |s.cands|
      ensures Backed(e, s.cands[c])
    {
      StayBacked(s, e, s.cands[c]);
    }
  }

  /** What one RequestVote does as a whole: grant and move to the term, or change nothing but the poll. */
  lemma RequestIs(cfg: Config, s: State, c: nat, p: nat)
    requires CanDo(cfg, s, Request(c, p))
    ensures var cand := s.cands[c]; var e := Do(cfg, s, Request(c, p));
      && e.peers == s.peers[p := AfterRequestVote(s.peers[p], cand.term, cand.node)]
      && e.cands == SetPoll(s, c, p, if Grants(s.peers[p], cand.term) then Granted else Denied).cands
      && e.granted == if Grants(s.peers[p], cand.term) then s.granted[(p, cand.term) := cand.node] else s.granted
  {
    var cand := s.cands[c];
    if cand.term > s.peers[p].term {
      var a := Apply(cfg, s, CheckTerm(c, p));
      var b := Apply(cfg, a, CastVote(c, p));
      assert cand.polls[p := Checked][p := Voted][p := Granted] == cand.polls[p := Granted];
      assert cand.polls[p := Checked][p := Denied] == cand.polls[p := Denied];
      assert b.cands[c].polls[p] == if Grants(s.peers[p], cand.term) then Voted else Denied;
    }
  }

  lemma RequestKeeps(cfg: Config, s: State, c: nat, p: nat)
    requires AtomicInv(cfg, s) && CanDo(cfg, s, Request(c, p))
    ensures AtomicInv(cfg, Do(cfg, s, Request(c, p))) && Risen(s, Do(cfg, s, Request(c, p)))
  {
    RequestIs(cfg, s, c, p);
    var e := Do(cfg, s, Request(c, p));
    forall d | 0 <= d < |s.cands|
      ensures Backed(e, e.cands[d])
    {
      StayBacked(s, e, s.cands[d]);
    }
  }

  lemma ActKeeps(cfg: Config, s: State, act: Act)
    requires AtomicInv(cfg, s) && CanDo(cfg, s, act)
    ensures AtomicInv(cfg, Do(cfg, s, act)) && Risen(s, Do(cfg, s, act))
  {
    match act {
      case Stand(node) => StandKeeps(cfg, s, node);
      case Request(c, p) => RequestKeeps(cfg, s, c, p);
      case Hear(c, p) => RestKeeps(cfg, s, act);
      case Conclude(c) => RestKeeps(cfg, s, act);
      case Beat(_, _, _) => RestKeeps(cfg, s, act);
    }
  }

  lemma RestKeeps(cfg: Config, s: State, act: Act)
    requires AtomicInv(cfg, s) && CanDo(cfg, s, act) && (act.Hear? || act.Conclude? || act.Beat?)
    ensures AtomicInv(cfg, Do(cfg, s, act)) && Risen(s, Do(cfg, s, act))
  {
    var e := Do(cfg, s, act);
    assert Risen(s, e);
    assert |e.cands| == |s.cands|;
    forall d | 0 <= d < |s.cands|
      ensures Backed(e, e.cands[d])
    {
      StayBacked(s, e, s.cands[d]);
    }
  }

  lemma {:induction false} RunKeeps(cfg: Config, s: State, run: AtomicTrace)
    requires AtomicInv(cfg, s) && RunFrom(cfg, s, run)
    ensures AtomicInv(cfg, run.last) && Risen(s, run.last)
  {
    match run {
      case From(_) =>
      case Did(before, act, _) =>
        RunKeeps(cfg, s, before);
        ActKeeps(cfg, before.last, act);
    }
  }

  lemma AtomicReachableInv(cfg: Config, s: State)
    requires AtomicReachable(cfg, s)
    ensures AtomicInv(cfg, s)
  {
    var i :| Init(cfg, i) && Later(cfg, i, s);
    var run :| RunFrom(cfg, i, run) && run.last == s;
    RunKeeps(cfg, i, run);
  }

  // ---- What an uninterrupted handler buys ----

  /** A node's vote never runs ahead of its term, whatever it has voted; every candidate has its own
      vote; and term 0, the initial leader's, is never voted for. */
  lemma VotesFollowTerms(cfg: Config, s: State)
    requires AtomicReachable(cfg, s)
    ensures |s.peers| == cfg.n && (forall p :: 0 <= p < cfg.n ==> 0 <= s.peers[p].votedForTerm == s.peers[p].term)
    ensures forall c :: 0 <= c < |s.cands| ==> s.cands[c].selfVoted
    ensures forall v :: v in s.granted ==> v.1 >= 1
  {
    AtomicReachableInv(cfg, s);
    assert forall c :: 0 <= c < |s.cands| ==> Backed(s, s.cands[c]);
  }

  lemma TermsNeverDecrease(cfg: Config, s: State, e: State, p: nat)
    requires AtomicReachable(cfg, s) && Later(cfg, s, e) && p < cfg.n
    ensures |s.peers| == |e.peers| == cfg.n
    ensures e.peers[p].term >= s.peers[p].term && e.peers[p].votedForTerm >= s.peers[p].votedForTerm
  {
    AtomicReachableInv(cfg, s);
    var run :| RunFrom(cfg, s, run) && run.last == e;
    RunKeeps(cfg, s, run);
    assert InStep(s.peers[p]) && InStep(e.peers[p]);
  }

  lemma AtomicElectionSafety(cfg: Config, s: State, c: nat, d: nat)
    requires AtomicReachable(cfg, s) && 2 * cfg.t < cfg.n
    requires Winner(s, c) && Winner(s, d) && s.cands[c].term == s.cands[d].term
    ensures s.cands[c].node == s.cands[d].node
  {
    AtomicIsReachable(cfg, s);
    VotesFollowTerms(cfg, s);
    if s.cands[c].node != s.cands[d].node {
      ElectionSafety(cfg, s, c, d);
    }
  }

  // ---- Stale leaders ----

  /** The electors of a won term have all reached it. */
  lemma ElectorsReached(cfg: Config, s: State, c: nat, p: int)
    requires AtomicReachable(cfg, s) && Winner(s, c) && p in Counts(s.cands[c])
    ensures 0 <= p < cfg.n == |s.peers| && s.peers[p].term >= s.cands[c].term
  {
    AtomicReachableInv(cfg, s);
    assert Backed(s, s.cands[c]);
  }

  /** Node asked[i], in state heard[i], refuses the heartbeat of this term. */
  predicate Refuses(asked: seq<int>, heard: seq<State>, term: int, i: nat) {
    && i < |asked| && i < |heard| && 0 <= asked[i] < |heard[i].peers|
    && !AcceptsHeartbeat(heard[i].peers[asked[i]], term)
  }

  /** Once term T' is won, any t+1 nodes that later answer a heartbeat of an older term, each in its own
      later state, include one that rejects it. */
  lemma StaleLeaderFound(cfg: Config, s: State, c: nat, term: int, asked: seq<int>, heard: seq<State>)
    requires AtomicReachable(cfg, s) && Winner(s, c) && term < s.cands[c].term
    requires Distinct(asked) && Within(asked, cfg.n) && |asked| == |heard| >= cfg.t + 1
    requires forall i :: 0 <= i < |heard| ==> Later(cfg, s, heard[i])
    ensures exists i :: Refuses(asked, heard, term, i)
  {
    AtomicIsReachable(cfg, s);
    WinnersCounts(cfg, s, c);
    MembersCount(asked);
    var p := InBoth(cfg.n, Counts(s.cands[c]), Members(asked));
    var i: nat :| i < |asked| && asked[i] == p;
    ElectorsReached(cfg, s, c, p);
    TermsNeverDecrease(cfg, s, heard[i], p);
    assert Refuses(asked, heard, term, i);
  }

  lemma InBoth(n: nat, p: set<int>, q: set<int>) returns (id: int)
    requires p <= Ids(n) && q <= Ids(n) && |p| + |q| > n
    ensures id in p && id in q
  {
    if p !! q {
      assert |p + q| == |p| + |q|;
      SubsetCount(p + q, Ids(n));
    }
    id :| id in p && id in q;
  }

  lemma WinnersCounts(cfg: Config, s: State, c: nat)
    requires Reachable(cfg, s) && Winner(s, c)
    ensures Counts(s.cands[c]) <= Ids(cfg.n) && |Counts(s.cands[c])| >= cfg.n - cfg.t
  {
    var run :| Run(cfg, run) && run.last == s;
    RunVoteInv(cfg, run);
    CountsAreNodes(cfg, s, c);
  }
}
