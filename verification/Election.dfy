/** Terms and votes: the separately locked steps of candidates and of RequestVote handlers, in any order. */
module Elections {

  /** The election fields of a node's ServerState. */
  datatype Peer = Peer(term: int, votedForTerm: int, votedForID: int, leaderID: int)

  /** TryVote, which runs under the lock: at most one vote per term, for rising terms. */
  predicate Votes(p: Peer, term: int) {
    term > p.votedForTerm
  }

  function AfterTryVote(p: Peer, term: int, candidate: int): Peer {
    if Votes(p, term) then p.(votedForTerm := term, votedForID := candidate) else p
  }

  /** A whole RequestVote: the term check, TryVote, and SetTerm when the vote is given. */
  predicate Grants(p: Peer, term: int) {
    term > p.term && Votes(p, term)
  }

  function AfterRequestVote(p: Peer, term: int, candidate: int): Peer {
    if Grants(p, term) then Peer(term, term, candidate, p.leaderID) else p
  }

  /** A whole start: the next term is stored and, if it can be, voted for. */
  function AfterStand(p: Peer, node: int): Peer {
    AfterTryVote(p.(term := p.term + 1), p.term + 1, node)
  }

  predicate AcceptsHeartbeat(p: Peer, term: int) {
    term >= p.term
  }

  function AfterHeartbeat(p: Peer, leader: int, term: int): Peer {
    if AcceptsHeartbeat(p, term) then p.(leaderID := leader) else p
  }

  /** StartElection: the new term is chosen, stored, voted for; then the peers are polled. */
  datatype Stage = Chosen | Announced | Polling | Won | Lost

  /** A RequestVote call: past the term check, past TryVote, past SetTerm, and its reply counted. */
  datatype Poll = Checked | Voted | Granted | Denied | Counted

  datatype Candidacy = Candidacy(node: int, term: int, stage: Stage, selfVoted: bool, polls: map<int, Poll>)

  /** watching says which nodes run a heartbeat monitor, without which a node never stands; granted remembers
      every vote TryVote ever gave: (voter, term) to candidate. */
  datatype State = State(
    peers: seq<Peer>,
    watching: seq<bool>,
    cands: seq<Candidacy>,
    granted: map<(int, int), int>)

  datatype Config = Config(n: nat, t: nat)

  datatype Step =
    | Begin(node: nat)
    | StoreTerm(c: nat)
    | SelfVote(c: nat)
    | CheckTerm(c: nat, p: nat)
    | CastVote(c: nat, p: nat)
    | AdoptTerm(c: nat, p: nat)
    | CountVote(c: nat, p: nat)
    | Finish(c: nat)
    | Heartbeat(p: nat, leader: int, term: int)

  /** Everyone watches but node 0, the fixed first leader. */
  predicate Init(cfg: Config, s: State) {
    && |s.peers| == |s.watching| == cfg.n
    && (forall p :: 0 <= p < cfg.n ==> (s.watching[p] <==> p != 0))
    && (forall p :: 0 <= p < cfg.n ==> s.peers[p] == Peer(0, 0, 0, 0))
    && s.cands == [] && s.granted == map[]
  }

  predicate AtStage(s: State, c: nat, stage: Stage) {
    c < |s.cands| && s.cands[c].stage == stage && 0 <= s.cands[c].node < |s.peers|
  }

  predicate AtPoll(s: State, c: nat, p: nat, poll: Poll) {
    c < |s.cands| && p < |s.peers| && p in s.cands[c].polls && s.cands[c].polls[p] == poll
  }

  /** The votes a candidate counts: its own, assumed, and the grants it heard of. */
  function Counts(cand: Candidacy): set<int> {
    {cand.node} + set p | p in cand.polls && cand.polls[p] == Counted
  }

  /** Who sends heartbeats of a term: node 0 those of term 0, a winner those of whatever term it reads. */
  predicate Sends(s: State, leader: int, term: int) {
    (leader == 0 && term == 0) || exists c :: 0 <= c < |s.cands| && s.cands[c].stage == Won && s.cands[c].node == leader
  }

  predicate Enabled(cfg: Config, s: State, step: Step) {
    match step
    case Begin(node) => node < |s.peers| && node < |s.watching| && s.watching[node]
    case StoreTerm(c) => AtStage(s, c, Chosen)
    case SelfVote(c) => AtStage(s, c, Announced)
    case CheckTerm(c, p) =>
      AtStage(s, c, Polling) && p < |s.peers| && p != s.cands[c].node && p !in s.cands[c].polls
    case CastVote(c, p) => AtPoll(s, c, p, Checked)
    case AdoptTerm(c, p) => AtPoll(s, c, p, Voted)
    case CountVote(c, p) => AtStage(s, c, Polling) && AtPoll(s, c, p, Granted)
    case Finish(c) => AtStage(s, c, Polling)
    case Heartbeat(p, leader, term) => p < |s.peers| && p != leader && Sends(s, leader, term)
  }

  /** The node's monitor is stopped when it times out, and started when an election is lost or the leader
      deposed. */
  function SetWatching(s: State, node: int, on: bool): (e: State)
    ensures e.peers == s.peers && e.cands == s.cands && e.granted == s.granted && |e.watching| == |s.watching|
  {
    if 0 <= node < |s.watching| then s.(watching := s.watching[node := on]) else s
  }

  function SetPoll(s: State, c: nat, p: nat, poll: Poll): State
    requires c < |s.cands|
  {
    s.(cands := s.cands[c := s.cands[c].(polls := s.cands[c].polls[p := poll])])
  }

  function SetPeer(s: State, p: nat, peer: Peer): State
    requires p < |s.peers|
  {
    s.(peers := s.peers[p := peer])
  }

  /** TryVote on node p, with the vote remembered when it is given. */
  function TryVote(s: State, p: nat, term: int, candidate: int): State
    requires p < |s.peers|
  {
    var e := SetPeer(s, p, AfterTryVote(s.peers[p], term, candidate));
    if Votes(s.peers[p], term) then e.(granted := e.granted[(p, term) := candidate]) else e
  }

  function Apply(cfg: Config, s: State, step: Step): State
    requires Enabled(cfg, s, step)
  {
    match step
    case Begin(node) =>
      SetWatching(s.(cands := s.cands + [Candidacy(node, s.peers[node].term + 1, Chosen, false, map[])]), node, false)
    case StoreTerm(c) =>
      var cand := s.cands[c];
      SetPeer(s.(cands := s.cands[c := cand.(stage := Announced)]), cand.node, s.peers[cand.node].(term := cand.term))
    case SelfVote(c) =>
      var cand := s.cands[c];
      var voted := Votes(s.peers[cand.node], cand.term);
      TryVote(s.(cands := s.cands[c := cand.(stage := Polling, selfVoted := voted)]), cand.node, cand.term, cand.node)
    case CheckTerm(c, p) =>
      SetPoll(s, c, p, if s.cands[c].term <= s.peers[p].term then Denied else Checked)
    case CastVote(c, p) =>
      var cand := s.cands[c];
      TryVote(SetPoll(s, c, p, if Votes(s.peers[p], cand.term) then Voted else Denied), p, cand.term, cand.node)
    case AdoptTerm(c, p) =>
      SetPeer(SetPoll(s, c, p, Granted), p, s.peers[p].(term := s.cands[c].term))
    case CountVote(c, p) => SetPoll(s, c, p, Counted)
    case Finish(c) =>
      var cand := s.cands[c];
      if |Counts(cand)| >= cfg.n - cfg.t then
        SetPeer(s.(cands := s.cands[c := cand.(stage := Won)]), cand.node, s.peers[cand.node].(leaderID := cand.node))
      else SetWatching(s.(cands := s.cands[c := cand.(stage := Lost)]), cand.node, true)
    case Heartbeat(p, leader, term) =>
      if AcceptsHeartbeat(s.peers[p], term) then SetPeer(s, p, AfterHeartbeat(s.peers[p], leader, term))
      else SetWatching(s, leader, true)
  }

  predicate Next(cfg: Config, s: State, step: Step, e: State) {
    Enabled(cfg, s, step) && e == Apply(cfg, s, step)
  }

  datatype Trace = Start(last: State) | Then(before: Trace, step: Step, last: State)

  ghost predicate Run(cfg: Config, run: Trace) {
    match run
    case Start(s) => Init(cfg, s)
    case Then(before, step, s) => Run(cfg, before) && Next(cfg, before.last, step, s)
  }

  ghost predicate Reachable(cfg: Config, s: State) {
    exists run :: Run(cfg, run) && run.last == s
  }

  /** A candidate wins exactly if its count reaches n-t, and then is its own leader; otherwise it waits for
      heartbeats again. */
  lemma FinishIs(cfg: Config, s: State, c: nat)
    requires Enabled(cfg, s, Finish(c))
    ensures var e, node := Apply(cfg, s, Finish(c)), s.cands[c].node;
      && |e.cands| == |s.cands| && |e.peers| == |s.peers| && |e.watching| == |s.watching| && e.granted == s.granted
      && (forall d :: 0 <= d < |s.cands| && d != c ==> e.cands[d] == s.cands[d])
      && (e.cands[c].stage == Won <==> |Counts(s.cands[c])| >= cfg.n - cfg.t)
      && (e.cands[c].stage == Won ==>
            e.peers == s.peers[node := s.peers[node].(leaderID := node)] && e.watching == s.watching)
      && (e.cands[c].stage != Won ==>
            && e.cands[c].stage == Lost && e.peers == s.peers
            && (node < |s.watching| ==> e.watching == s.watching[node := true]))
  {
  }

  predicate Winner(s: State, c: nat) {
    c < |s.cands| && s.cands[c].stage == Won
  }
}
