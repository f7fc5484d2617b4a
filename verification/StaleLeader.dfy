/** A stale leader among interruptible handlers: its heartbeats may all be accepted, but votes survive. */
module StaleLeaders {
  import opened Weights
  import opened Elections
  import opened ElectionSafeties
  import A = AtomicElections

  // ---- What survives ----

  ghost predicate Onwards(cfg: Config, s: State, run: Trace) {
    match run
    case Start(x) => x == s
    case Then(before, step, x) => Onwards(cfg, s, before) && Next(cfg, before.last, step, x)
  }

  /** Some run of the interruptible machine leads from s to e. */
  ghost predicate LeadsTo(cfg: Config, s: State, e: State) {
    exists run :: Onwards(cfg, s, run) && run.last == e
  }

  lemma {:induction false} VotesRise(cfg: Config, s: State, run: Trace, p: nat)
    requires Onwards(cfg, s, run) && p < |s.peers|
    ensures |run.last.peers| == |s.peers| && run.last.peers[p].votedForTerm >= s.peers[p].votedForTerm
  {
    match run {
      case Start(_) =>
      case Then(before, step, _) =>
        VotesRise(cfg, s, before, p);
        VotedTermsRise(cfg, before.last, step, p);
    }
  }

  /** Whoever a winner counted has used up its vote for that term, the winner itself included. */
  lemma ElectorsVoted(cfg: Config, s: State, c: nat, p: int)
    requires Reachable(cfg, s) && Winner(s, c) && p in Counts(s.cands[c])
    ensures 0 <= p < cfg.n == |s.peers| && s.peers[p].votedForTerm >= s.cands[c].term
  {
    var run :| Run(cfg, run) && run.last == s;
    RunVoteInv(cfg, run);
    RunNeverMutual(cfg, run);
    assert CandidacyOk(cfg, s, s.cands[c]);
    if p != s.cands[c].node {
      assert Casts(s, p, s.cands[c].term, s.cands[c].node);
    } else {
      assert Asking(s, c);
    }
  }

  /** Node asked[i], in state heard[i], has voted in this term or a later one. */
  predicate HasVoted(asked: seq<int>, heard: seq<State>, term: int, i: nat) {
    && i < |asked| && i < |heard| && 0 <= asked[i] < |heard[i].peers|
    && heard[i].peers[asked[i]].votedForTerm >= term
  }

  /** Its term has fallen behind its vote: a SetTerm is still to come, or an older one came late. */
  predicate Lags(p: Peer) {
    p.term < p.votedForTerm
  }

  /** Once a term is won, any t+1 nodes, each in its own later state, include one that will not vote for it or
      any older term again, however the handlers interleave. */
  lemma VotesSurvive(cfg: Config, s: State, c: nat, asked: seq<int>, heard: seq<State>) returns (i: nat)
    requires Reachable(cfg, s) && Winner(s, c)
    requires Distinct(asked) && Within(asked, cfg.n) && |asked| == |heard| >= cfg.t + 1
    requires forall j :: 0 <= j < |heard| ==> LeadsTo(cfg, s, heard[j])
    ensures HasVoted(asked, heard, s.cands[c].term, i)
    ensures forall term :: term <= s.cands[c].term ==> !Votes(heard[i].peers[asked[i]], term)
  {
    i := CommonElector(cfg, s, c, asked);
    StillVoted(cfg, s, c, asked[i], heard[i]);
  }

  lemma CommonElector(cfg: Config, s: State, c: nat, asked: seq<int>) returns (i: nat)
    requires Reachable(cfg, s) && Winner(s, c) && Distinct(asked) && Within(asked, cfg.n) && |asked| >= cfg.t + 1
    ensures i < |asked| && asked[i] in Counts(s.cands[c])
  {
    A.WinnersCounts(cfg, s, c);
    MembersCount(asked);
    var p := A.InBoth(cfg.n, Counts(s.cands[c]), Members(asked));
    i :| i < |asked| && asked[i] == p;
  }

  lemma StillVoted(cfg: Config, s: State, c: nat, p: int, e: State)
    requires Reachable(cfg, s) && Winner(s, c) && p in Counts(s.cands[c]) && LeadsTo(cfg, s, e)
    ensures 0 <= p < |e.peers| && e.peers[p].votedForTerm >= s.cands[c].term
  {
    ElectorsVoted(cfg, s, c, p);
    var run :| Onwards(cfg, s, run) && run.last == e;
    VotesRise(cfg, s, run, p);
  }

  /** So a stale leader is still found out by t+1 nodes of which none lags: exactly what whole handlers ensure. */
  lemma StaleLeaderFoundUnlessLagging(cfg: Config, s: State, c: nat, term: int, asked: seq<int>, heard: seq<State>)
    requires Reachable(cfg, s) && Winner(s, c) && term < s.cands[c].term
    requires Distinct(asked) && Within(asked, cfg.n) && |asked| == |heard| >= cfg.t + 1
    requires forall j :: 0 <= j < |heard| ==> LeadsTo(cfg, s, heard[j]) && |heard[j].peers| == cfg.n
    requires forall j :: 0 <= j < |heard| ==> !Lags(heard[j].peers[asked[j]])
    ensures exists i :: A.Refuses(asked, heard, term, i)
  {
    var i := VotesSurvive(cfg, s, c, asked, heard);
    assert A.Refuses(asked, heard, term, i);
  }

  // ---- A run in which all accept ----

  const THREE: Config := Config(3, 1)

  /** Node p, asked by candidate c, has voted but not yet adopted the term. */
  lemma VoteOnly(s: State, c: nat, p: nat) returns (e: State)
    requires Reachable(THREE, s) && AtStage(s, c, Polling) && p < |s.peers| && p != s.cands[c].node
    requires p !in s.cands[c].polls && s.peers[p].term < s.cands[c].term && Votes(s.peers[p], s.cands[c].term)
    ensures Reachable(THREE, e) && e.watching == s.watching
    ensures e.peers == s.peers[p := s.peers[p].(votedForTerm := s.cands[c].term, votedForID := s.cands[c].node)]
    ensures e.cands == s.cands[c := s.cands[c].(polls := s.cands[c].polls[p := Voted])]
  {
    Extend(THREE, s, CheckTerm(c, p));
    var a := Apply(THREE, s, CheckTerm(c, p));
    assert a == SetPoll(s, c, p, Checked);
    Extend(THREE, a, CastVote(c, p));
    e := Apply(THREE, a, CastVote(c, p));
    assert s.cands[c].polls[p := Checked][p := Voted] == s.cands[c].polls[p := Voted];
  }

  lemma Standing(s: State, node: nat) returns (e: State)
    requires Reachable(THREE, s) && Enabled(THREE, s, Begin(node))
    ensures Reachable(THREE, e) && e.watching == s.watching[node := false]
    ensures e.peers == s.peers[node := AfterStand(s.peers[node], node)]
    ensures var term := s.peers[node].term + 1;
      e.cands == s.cands + [Candidacy(node, term, Polling, Votes(s.peers[node], term), map[])]
  {
    A.ActIsSteps(THREE, s, A.Stand(node));
    A.StandIs(THREE, s, node);
    e := A.Do(THREE, s, A.Stand(node));
  }

  /** Node 1 stands for term 1; nodes 0 and 2 vote for it, and are interrupted before they adopt the term. */
  lemma Promised() returns (s: State)
    ensures Reachable(THREE, s) && |s.watching| == 3 && s.watching[2]
    ensures s.peers == [Peer(0, 1, 1, 0), Peer(1, 1, 1, 0), Peer(0, 1, 1, 0)]
    ensures s.cands == [Candidacy(1, 1, Polling, true, map[0 := Voted, 2 := Voted])]
  {
    var i := State([Peer(0, 0, 0, 0), Peer(0, 0, 0, 0), Peer(0, 0, 0, 0)], [false, true, true], [], map[]);
    assert Run(THREE, Start(i));
    var a := Standing(i, 1);
    assert a.cands == [Candidacy(1, 1, Polling, true, map[])];
    var b := VoteOnly(a, 0, 0);
    s := VoteOnly(b, 0, 2);
  }

  /** Node 2 stands for term 1 without its own vote, and loses. */
  lemma LoseOne(s: State) returns (e: State)
    requires Reachable(THREE, s) && |s.watching| == 3 && s.watching[2]
    requires s.peers == [Peer(0, 1, 1, 0), Peer(1, 1, 1, 0), Peer(0, 1, 1, 0)]
    requires s.cands == [Candidacy(1, 1, Polling, true, map[0 := Voted, 2 := Voted])]
    ensures Reachable(THREE, e) && |e.watching| == 3 && e.watching[2]
    ensures e.peers == [Peer(0, 1, 1, 0), Peer(1, 1, 1, 0), Peer(1, 1, 1, 0)]
    ensures |e.cands| == 2 && e.cands[0] == s.cands[0] && e.cands[1].stage == Stage.Lost
  {
    var a := Standing(s, 2);
    assert a.cands[1] == Candidacy(2, 1, Polling, false, map[]);
    assert Counts(a.cands[1]) == {2};
    Extend(THREE, a, Finish(1));
    e := Apply(THREE, a, Finish(1));
  }

  /** It stands again, for term 2, asks node 0 and wins. */
  lemma WinTwo(s: State) returns (e: State)
    requires Reachable(THREE, s) && |s.watching| == 3 && s.watching[2] && |s.cands| == 2
    requires s.peers == [Peer(0, 1, 1, 0), Peer(1, 1, 1, 0), Peer(1, 1, 1, 0)]
    ensures Reachable(THREE, e) && e.peers == [Peer(2, 2, 2, 0), Peer(1, 1, 1, 0), Peer(2, 2, 2, 2)]
    ensures |e.cands| == 3 && e.cands[0] == s.cands[0] && Winner(e, 2) && e.cands[2].term == 2
  {
    var a := Standing(s, 2);
    var d := AskedZero(a);
    assert Counts(d.cands[2]) == {2, 0};
    e := Winning(d, 2);
  }

  lemma AskedZero(a: State) returns (d: State)
    requires Reachable(THREE, a) && |a.cands| == 3 && a.cands[2] == Candidacy(2, 2, Polling, true, map[])
    requires |a.peers| == 3 && a.peers[0] == Peer(0, 1, 1, 0)
    ensures Reachable(THREE, d) && d.peers == a.peers[0 := Peer(2, 2, 2, 0)]
    ensures d.cands == a.cands[2 := Candidacy(2, 2, Polling, true, map[0 := Counted])]
  {
    d := AskingWhole(a, 2, 0);
    assert a.cands[2].polls[0 := Counted] == map[0 := Counted];
  }

  lemma AskingWhole(s: State, c: nat, p: nat) returns (e: State)
    requires Reachable(THREE, s) && Enabled(THREE, s, CheckTerm(c, p)) && Grants(s.peers[p], s.cands[c].term)
    ensures Reachable(THREE, e)
    ensures e.peers == s.peers[p := AfterRequestVote(s.peers[p], s.cands[c].term, s.cands[c].node)]
    ensures e.cands == s.cands[c := s.cands[c].(polls := s.cands[c].polls[p := Counted])]
  {
    var b := Granting(s, c, p);
    assert b.cands[c].polls == s.cands[c].polls[p := Granted];
    e := Counting(b, c, p);
    assert s.cands[c].polls[p := Granted][p := Counted] == s.cands[c].polls[p := Counted];
  }

  /** A whole RequestVote that grants. */
  lemma Granting(s: State, c: nat, p: nat) returns (e: State)
    requires Reachable(THREE, s) && Enabled(THREE, s, CheckTerm(c, p)) && Grants(s.peers[p], s.cands[c].term)
    ensures Reachable(THREE, e)
    ensures e.peers == s.peers[p := AfterRequestVote(s.peers[p], s.cands[c].term, s.cands[c].node)]
    ensures e.cands == s.cands[c := s.cands[c].(polls := s.cands[c].polls[p := Granted])]
  {
    A.RequestIs(THREE, s, c, p);
    A.ActIsSteps(THREE, s, A.Request(c, p));
    e := A.Do(THREE, s, A.Request(c, p));
  }

  lemma Counting(s: State, c: nat, p: nat) returns (e: State)
    requires Reachable(THREE, s) && Enabled(THREE, s, CountVote(c, p))
    ensures Reachable(THREE, e) && e.peers == s.peers
    ensures e.cands == s.cands[c := s.cands[c].(polls := s.cands[c].polls[p := Counted])]
  {
    Extend(THREE, s, CountVote(c, p));
    e := Apply(THREE, s, CountVote(c, p));
  }

  lemma Winning(s: State, c: nat) returns (e: State)
    requires Reachable(THREE, s) && AtStage(s, c, Polling) && |Counts(s.cands[c])| >= 2
    ensures Reachable(THREE, e) && e.cands == s.cands[c := s.cands[c].(stage := Won)]
    ensures var node := s.cands[c].node; e.peers == s.peers[node := s.peers[node].(leaderID := node)]
  {
    Extend(THREE, s, Finish(c));
    e := Apply(THREE, s, Finish(c));
  }

  lemma Adopting(s: State, c: nat, p: nat) returns (e: State)
    requires Reachable(THREE, s) && AtPoll(s, c, p, Voted)
    ensures Reachable(THREE, e) && e.peers == s.peers[p := s.peers[p].(term := s.cands[c].term)]
    ensures e.cands == s.cands[c := s.cands[c].(polls := s.cands[c].polls[p := Granted])]
  {
    Extend(THREE, s, AdoptTerm(c, p));
    e := Apply(THREE, s, AdoptTerm(c, p));
  }

  /** The interrupted handlers of nodes 0 and 2 now set their terms, from 2 back to 1, and node 1 wins term 1. */
  lemma WinOne(s: State) returns (e: State)
    requires Reachable(THREE, s) && s.peers == [Peer(2, 2, 2, 0), Peer(1, 1, 1, 0), Peer(2, 2, 2, 2)]
    requires |s.cands| == 3 && s.cands[0] == Candidacy(1, 1, Polling, true, map[0 := Voted, 2 := Voted])
    requires Winner(s, 2) && s.cands[2].term == 2
    ensures Reachable(THREE, e) && |e.cands| == 3 && |e.peers| == 3
    ensures Winner(e, 2) && e.cands[2].term == 2 && Winner(e, 0) && e.cands[0].term == 1 && e.cands[0].node == 1
    ensures forall p :: 0 <= p < 3 ==> e.peers[p].term == 1
  {
    var a := Adopting(s, 0, 0);
    var b := Adopting(a, 0, 2);
    var d := Counting(b, 0, 0);
    assert 0 in d.cands[0].polls && d.cands[0].polls[0] == Counted;
    assert Counts(d.cands[0]) >= {1, 0};
    SubsetCount({1, 0}, Counts(d.cands[0]));
    e := Winning(d, 0);
  }

  /** Three nodes, tolerance 1: term 2 has been won, node 1 wins term 1 afterwards, and every node accepts the
      heartbeats it sends for term 1. */
  lemma StaleLeaderAccepted() returns (e: State)
    ensures Reachable(THREE, e) && |e.cands| == 3 && |e.peers| == 3
    ensures Winner(e, 2) && e.cands[2].term == 2 && Winner(e, 0) && e.cands[0].term == 1
    ensures Sends(e, e.cands[0].node, 1) && forall p :: 0 <= p < 3 ==> AcceptsHeartbeat(e.peers[p], 1)
  {
    var a := Promised();
    var b := LoseOne(a);
    var d := WinTwo(b);
    e := WinOne(d);
  }
}
