/** Runs in which one term has two winners, and so the exact conditions under which none has. */
module ElectionWitnesses {
  import opened Weights
  import opened Elections
  import opened ElectionSafeties
  import opened AtomicElections

  const FRESH := Peer(0, 0, 0, 0)

  predicate CanAsk(s: State, c: nat, p: nat) {
    && AtStage(s, c, Polling) && s.cands[c].term == 1
    && p < |s.peers| && p != s.cands[c].node && p !in s.cands[c].polls && s.peers[p] == FRESH
  }

  /** Node p has voted for candidate c and the poll stands at the given point. */
  function Asked(s: State, c: nat, p: nat, poll: Poll): State
    requires CanAsk(s, c, p)
  {
    var e := SetPeer(SetPoll(s, c, p, poll), p, Peer(1, 1, s.cands[c].node, 0));
    e.(granted := s.granted[(p, 1) := s.cands[c].node])
  }

  lemma FreshGrants(cfg: Config, s: State, c: nat, p: nat)
    requires CanAsk(s, c, p)
    ensures Do(cfg, s, Request(c, p)) == Asked(s, c, p, Granted)
  {
    var a := Apply(cfg, s, CheckTerm(c, p));
    assert a == SetPoll(s, c, p, Checked);
    var b := Apply(cfg, a, CastVote(c, p));
    assert b.cands[c].polls[p] == Voted;
    assert s.cands[c].polls[p := Checked][p := Voted][p := Granted] == s.cands[c].polls[p := Granted];
    assert Do(cfg, s, Request(c, p)) == Apply(cfg, b, AdoptTerm(c, p));
  }

  /** A fresh node, asked, gives its vote. */
  lemma Ask(cfg: Config, s: State, e: State, c: nat, p: nat)
    requires Later(cfg, s, e) && CanAsk(e, c, p)
    ensures Later(cfg, s, Asked(e, c, p, Counted))
  {
    FreshGrants(cfg, e, c, p);
    LaterStill(cfg, s, e, Request(c, p));
    GrantHeard(cfg, e, c, p);
    LaterStill(cfg, s, Asked(e, c, p, Granted), Hear(c, p));
  }

  lemma GrantHeard(cfg: Config, s: State, c: nat, p: nat)
    requires CanAsk(s, c, p)
    ensures CanDo(cfg, Asked(s, c, p, Granted), Hear(c, p))
    ensures Do(cfg, Asked(s, c, p, Granted), Hear(c, p)) == Asked(s, c, p, Counted)
  {
    assert s.cands[c].polls[p := Granted][p := Counted] == s.cands[c].polls[p := Counted];
  }

  predicate CanGather(s: State, c: nat, lo: nat, hi: nat) {
    && hi <= |s.peers| && AtStage(s, c, Polling) && s.cands[c].term == 1
    && (forall p: nat :: lo <= p < hi ==> p != s.cands[c].node && p !in s.cands[c].polls && s.peers[p] == FRESH)
  }

  ghost predicate Gathered(s: State, e: State, c: nat, lo: nat, hi: nat)
    requires c < |s.cands|
  {
    && |e.peers| == |s.peers| && |e.cands| == |s.cands|
    && (forall p: nat :: p < |s.peers| && !(lo <= p < hi) ==> e.peers[p] == s.peers[p])
    && (forall d: nat :: d < |s.cands| && d != c ==> e.cands[d] == s.cands[d])
    && e.cands[c] == s.cands[c].(polls := e.cands[c].polls)
    && (forall p :: p in e.cands[c].polls <==> p in s.cands[c].polls || lo <= p < hi)
    && (forall p :: p in e.cands[c].polls ==> e.cands[c].polls[p] == if lo <= p < hi then Counted
        else s.cands[c].polls[p])
  }

  lemma CanGatherRest(d: State, c: nat, lo: nat, hi: nat)
    requires CanGather(d, c, lo, hi) && CanAsk(d, c, lo)
    ensures CanGather(Asked(d, c, lo, Counted), c, lo + 1, hi) || lo >= hi
  {
  }

  lemma GatheredOneMore(d: State, e: State, c: nat, lo: nat, hi: nat)
    requires CanAsk(d, c, lo) && lo < hi && Gathered(Asked(d, c, lo, Counted), e, c, lo + 1, hi)
    ensures Gathered(d, e, c, lo, hi)
  {
  }

  lemma {:induction false} Gather(cfg: Config, s: State, d: State, c: nat, lo: nat, hi: nat) returns (e: State)
    requires Later(cfg, s, d) && CanGather(d, c, lo, hi)
    ensures Later(cfg, s, e) && Gathered(d, e, c, lo, hi)
    decreases hi - lo
  {
    if lo >= hi {
      e := d;
    } else {
      assert d.peers[lo] == FRESH;
      Ask(cfg, s, d, c, lo);
      CanGatherRest(d, c, lo, hi);
      e := Gather(cfg, s, Asked(d, c, lo, Counted), c, lo + 1, hi);
      GatheredOneMore(d, e, c, lo, hi);
    }
  }

  lemma LaterItself(cfg: Config, s: State)
    ensures Later(cfg, s, s)
  {
    assert RunFrom(cfg, s, From(s));
  }

  lemma Initially(cfg: Config) returns (s: State)
    ensures Init(cfg, s)
  {
    s := State(seq(cfg.n, p => FRESH), seq(cfg.n, p => p != 0), [], map[]);
  }

  /** Node 1 stands for term 1 and takes its own vote. */
  lemma Challenge(cfg: Config) returns (s: State)
    requires cfg.n >= 2
    ensures Reachable(cfg, s)
    ensures |s.peers| == |s.watching| == cfg.n && s.peers[1] == Peer(1, 1, 1, 0)
    ensures forall p: nat :: p < cfg.n && p != 1 ==> s.peers[p] == FRESH
    ensures s.cands == [Candidacy(1, 1, Polling, true, map[])]
  {
    var i := Initially(cfg);
    assert Run(cfg, Start(i));
    Extend(cfg, i, Begin(1));
    var a := Apply(cfg, i, Begin(1));
    assert a.cands == [Candidacy(1, 1, Chosen, false, map[])] && a.peers == i.peers;
    Extend(cfg, a, StoreTerm(0));
    var b := Apply(cfg, a, StoreTerm(0));
    assert b.cands == [Candidacy(1, 1, Announced, false, map[])] && b.peers == i.peers[1 := Peer(1, 0, 0, 0)];
    Extend(cfg, b, SelfVote(0));
    s := Apply(cfg, b, SelfVote(0));
  }

  /** Node 1 refuses node 0's heartbeat, and node 0, deposed but still at term 0, chooses term 1 too. */
  lemma Open(cfg: Config) returns (s: State)
    requires cfg.n >= 2
    ensures Reachable(cfg, s)
    ensures |s.peers| == cfg.n && (forall p: nat :: p < cfg.n && p != 1 ==> s.peers[p] == FRESH)
    ensures s.cands == [Candidacy(1, 1, Polling, true, map[]), Candidacy(0, 1, Chosen, false, map[])]
  {
    var a := Challenge(cfg);
    var b := Depose(cfg, a);
    s := Beginning(cfg, b, 0);
    TwoCandidacies(b.cands, b.peers[0].term + 1, s.cands);
  }

  lemma TwoCandidacies(before: seq<Candidacy>, term: int, cands: seq<Candidacy>)
    requires before == [Candidacy(1, 1, Polling, true, map[])] && term == 1
    requires cands == before + [Candidacy(0, term, Chosen, false, map[])]
    ensures cands == [Candidacy(1, 1, Polling, true, map[]), Candidacy(0, 1, Chosen, false, map[])]
  {
  }

  lemma Beginning(cfg: Config, a: State, node: nat) returns (s: State)
    requires Reachable(cfg, a) && node < |a.peers| && node < |a.watching| && a.watching[node]
    ensures Reachable(cfg, s) && s.peers == a.peers
    ensures s.cands == a.cands + [Candidacy(node, a.peers[node].term + 1, Chosen, false, map[])]
  {
    s := Apply(cfg, a, Begin(node));
    BeginIs(cfg, a, node);
    Extend(cfg, a, Begin(node));
  }

  lemma BeginIs(cfg: Config, a: State, node: nat)
    requires Enabled(cfg, a, Begin(node))
    ensures var e := Apply(cfg, a, Begin(node));
      && e.peers == a.peers
      && e.cands == a.cands + [Candidacy(node, a.peers[node].term + 1, Chosen, false, map[])]
  {
  }

  lemma Depose(cfg: Config, a: State) returns (b: State)
    requires Reachable(cfg, a) && |a.peers| == |a.watching| == cfg.n >= 2 && a.peers[1].term == 1
    ensures Reachable(cfg, b) && b == a.(watching := a.watching[0 := true])
  {
    Extend(cfg, a, Heartbeat(1, 0, 0));
    b := Apply(cfg, a, Heartbeat(1, 0, 0));
  }

  /** Node 0, its vote already given to node 1, stands all the same. */
  lemma StandWithoutVote(cfg: Config, s: State) returns (e: State)
    requires Reachable(cfg, s) && |s.peers| == cfg.n >= 2 && |s.cands| == 2
    requires s.cands[1] == Candidacy(0, 1, Chosen, false, map[]) && s.peers[0].votedForTerm >= 1
    ensures Reachable(cfg, e) && |e.peers| == cfg.n && e.peers == s.peers[0 := e.peers[0]]
    ensures e.cands == [s.cands[0], Candidacy(0, 1, Polling, false, map[])]
  {
    Extend(cfg, s, StoreTerm(1));
    var a := Apply(cfg, s, StoreTerm(1));
    Extend(cfg, a, SelfVote(1));
    e := Apply(cfg, a, SelfVote(1));
  }

  lemma Verdict(cfg: Config, s: State, c: nat) returns (e: State)
    requires Reachable(cfg, s) && AtStage(s, c, Polling) && |Counts(s.cands[c])| >= cfg.n - cfg.t
    ensures Reachable(cfg, e) && Winner(e, c) && |e.peers| == |s.peers|
    ensures e.cands == s.cands[c := s.cands[c].(stage := Won)]
  {
    Extend(cfg, s, Finish(c));
    e := Apply(cfg, s, Finish(c));
  }

  lemma CountsRange(cand: Candidacy, lo: nat, hi: nat)
    requires forall p :: p in cand.polls <==> lo <= p < hi
    requires forall p :: p in cand.polls ==> cand.polls[p] == Counted
    requires lo <= hi && !(lo <= cand.node < hi)
    ensures |Counts(cand)| == 1 + hi - lo
  {
    var polled := Ids(hi) - Ids(lo);
    CountsAre(cand, polled);
    RangeSize(lo, hi);
    assert |{cand.node} + polled| == 1 + |polled|;
  }

  lemma CountsAre(cand: Candidacy, polled: set<int>)
    requires forall p :: p in cand.polls <==> p in polled
    requires forall p :: p in cand.polls ==> cand.polls[p] == Counted
    ensures Counts(cand) == {cand.node} + polled
  {
    forall p
      ensures p in Counts(cand) <==> p in {cand.node} + polled
    {
    }
  }

  ghost predicate TwoWinners(s: State, term: int) {
    exists c: nat, d: nat :: Winner(s, c) && Winner(s, d) && s.cands[c].term == s.cands[d].term == term
                             && s.cands[c].node != s.cands[d].node
  }

  /** Node 1 collects 0 and 2..m-1, and node 0, counting a vote it does not have, collects m..n-1. */
  lemma DoubleWin(cfg: Config) returns (s: State)
    requires cfg.n >= 2 && cfg.n <= 2 * cfg.t + 1
    ensures Reachable(cfg, s) && TwoWinners(s, 1)
  {
    var m: nat := if cfg.n - cfg.t >= 2 then cfg.n - cfg.t else 2;
    var b := FirstWin(cfg, m);
    s := SecondWin(cfg, b, m);
  }

  /** Node 1's quorum is gathered, node 0's vote among it, before node 0 has stored its term. */
  ghost predicate FirstGathered(cfg: Config, b: State, m: nat) {
    && |b.peers| == cfg.n && 2 <= m <= cfg.n
    && |b.cands| == 2 && AtStage(b, 0, Polling) && b.cands[0].node == 1 && b.cands[0].term == 1
    && |Counts(b.cands[0])| >= cfg.n - cfg.t
    && b.cands[1] == Candidacy(0, 1, Chosen, false, map[]) && b.peers[0].votedForTerm >= 1
    && (forall p: nat :: m <= p < cfg.n ==> b.peers[p] == FRESH)
  }

  lemma FirstWin(cfg: Config, m: nat) returns (b: State)
    requires 2 <= m <= cfg.n && m >= cfg.n - cfg.t
    ensures Reachable(cfg, b) && FirstGathered(cfg, b, m)
  {
    var a := Open(cfg);
    LaterItself(cfg, a);
    var d := Gather(cfg, a, a, 0, 0, 1);
    b := Gather(cfg, a, d, 0, 2, m);
    LaterIsReachable(cfg, a, b);
    CountsAllBut(b.cands[0], m);
    VoteOfZero(cfg, b);
  }

  lemma CountsAllBut(cand: Candidacy, m: nat)
    requires 0 <= cand.node < m
    requires forall p :: p in cand.polls <==> 0 <= p < m && p != cand.node
    requires forall p :: p in cand.polls ==> cand.polls[p] == Counted
    ensures |Counts(cand)| == m
  {
    CountsAre(cand, Ids(m) - {cand.node});
    assert {cand.node} + (Ids(m) - {cand.node}) == Ids(m);
  }

  lemma SecondWin(cfg: Config, b: State, m: nat) returns (s: State)
    requires Reachable(cfg, b) && FirstGathered(cfg, b, m) && 1 + cfg.n - m >= cfg.n - cfg.t
    ensures Reachable(cfg, s) && TwoWinners(s, 1)
  {
    var d := StandWithoutVote(cfg, b);
    LaterItself(cfg, d);
    var e := Gather(cfg, d, d, 1, m, cfg.n);
    LaterIsReachable(cfg, d, e);
    CountsRange(e.cands[1], m, cfg.n);
    var f := Verdict(cfg, e, 0);
    s := Verdict(cfg, f, 1);
    assert Winner(s, 0) && Winner(s, 1);
  }

  lemma VoteOfZero(cfg: Config, s: State)
    requires Reachable(cfg, s) && |s.cands| == 2 && s.cands[0].node == 1 && s.cands[0].term == 1
    requires 0 in s.cands[0].polls && s.cands[0].polls[0] == Counted
    ensures |s.peers| == cfg.n && 0 < cfg.n && s.peers[0].votedForTerm >= 1
  {
    var run :| Run(cfg, run) && run.last == s;
    RunVoteInv(cfg, run);
    assert CandidacyOk(cfg, s, s.cands[0]);
    assert Casts(s, 0, 1, 1);
  }

  lemma StandsInCluster(cfg: Config, s: State, c: nat)
    requires Reachable(cfg, s) && c < |s.cands|
    ensures 0 <= s.cands[c].node < cfg.n
  {
    var run :| Run(cfg, run) && run.last == s;
    RunVoteInv(cfg, run);
    assert CandidacyOk(cfg, s, s.cands[c]);
  }

  /** Exactly when the code elects at most one node a term, however its steps interleave: when
      even without one vote a quorum is a majority, or when there is nobody to compete with. */
  lemma OneWinnerPerTermExact(cfg: Config)
    ensures (forall s, term :: Reachable(cfg, s) ==> !TwoWinners(s, term)) <==> cfg.n > 2 * cfg.t + 1 || cfg.n <= 1
  {
    if cfg.n > 2 * cfg.t + 1 || cfg.n <= 1 {
      forall s, term | Reachable(cfg, s)
        ensures !TwoWinners(s, term)
      {
        if TwoWinners(s, term) {
          var c: nat, d: nat :| Winner(s, c) && Winner(s, d) && s.cands[c].term == s.cands[d].term == term
                                && s.cands[c].node != s.cands[d].node;
          if cfg.n <= 1 {
            StandsInCluster(cfg, s, c);
            StandsInCluster(cfg, s, d);
          } else {
            SpareNodeMakesSafe(cfg, s, c, d);
          }
        }
      }
    } else {
      var s := DoubleWin(cfg);
    }
  }

  // ---- With handlers and starts taken as one step ----

  /** Node 1 stands for term 1 and refuses node 0's heartbeat, and node 0 stands for term 1 too. */
  lemma BothStand(cfg: Config) returns (i: State, s: State)
    requires cfg.n >= 2
    ensures Init(cfg, i) && Later(cfg, i, s)
    ensures |s.peers| == cfg.n && (forall p: nat :: 2 <= p < cfg.n ==> s.peers[p] == FRESH)
    ensures s.cands == [Candidacy(1, 1, Polling, true, map[]), Candidacy(0, 1, Polling, true, map[])]
  {
    var b;
    i, b := AtomicChallenge(cfg);
    s := Answering(cfg, i, b);
  }

  lemma AtomicChallenge(cfg: Config) returns (i: State, b: State)
    requires cfg.n >= 2
    ensures Init(cfg, i) && Later(cfg, i, b)
    ensures |b.peers| == |b.watching| == cfg.n && b.watching[0]
    ensures forall p: nat :: p < cfg.n && p != 1 ==> b.peers[p] == FRESH
    ensures b.cands == [Candidacy(1, 1, Polling, true, map[])]
  {
    i := Initially(cfg);
    LaterItself(cfg, i);
    StoodFresh(cfg, i, 1);
    LaterStill(cfg, i, i, Stand(1));
    var a := Do(cfg, i, Stand(1));
    Deposing(cfg, a);
    LaterStill(cfg, i, a, Beat(1, 0, 0));
    b := a.(watching := a.watching[0 := true]);
  }

  lemma Answering(cfg: Config, i: State, b: State) returns (s: State)
    requires Later(cfg, i, b) && |b.peers| == |b.watching| >= 2 && b.watching[0] && b.peers[0] == FRESH
    ensures Later(cfg, i, s) && s.peers == b.peers[0 := Peer(1, 1, 0, 0)]
    ensures s.cands == b.cands + [Candidacy(0, 1, Polling, true, map[])]
  {
    LaterStill(cfg, i, b, Stand(0));
    s := Do(cfg, b, Stand(0));
    StoodFresh(cfg, b, 0);
  }

  lemma Deposing(cfg: Config, a: State)
    requires |a.peers| >= 2 && a.peers[1].term == 1 && |a.watching| >= 1
    ensures CanDo(cfg, a, Beat(1, 0, 0)) && Do(cfg, a, Beat(1, 0, 0)) == a.(watching := a.watching[0 := true])
  {
  }

  lemma StoodFresh(cfg: Config, s: State, node: nat)
    requires CanDo(cfg, s, Stand(node)) && s.peers[node] == FRESH
    ensures |Do(cfg, s, Stand(node)).watching| == |s.watching|
    ensures Do(cfg, s, Stand(node)).peers == s.peers[node := Peer(1, 1, node, 0)]
    ensures Do(cfg, s, Stand(node)).cands == s.cands + [Candidacy(node, 1, Polling, true, map[])]
  {
    StandIs(cfg, s, node);
  }

  lemma Conclusion(cfg: Config, i: State, s: State, c: nat) returns (e: State)
    requires Later(cfg, i, s) && AtStage(s, c, Polling) && |Counts(s.cands[c])| >= cfg.n - cfg.t
    ensures Later(cfg, i, e) && Winner(e, c) && |e.peers| == |s.peers|
    ensures e.cands == s.cands[c := s.cands[c].(stage := Won)]
  {
    LaterStill(cfg, i, s, Conclude(c));
    e := Do(cfg, s, Conclude(c));
  }

  lemma AtomicDoubleWin(cfg: Config) returns (s: State)
    requires cfg.n >= 2 && cfg.n <= 2 * cfg.t
    ensures AtomicReachable(cfg, s) && TwoWinners(s, 1)
  {
    var m: nat := if cfg.n - cfg.t >= 1 then cfg.n - cfg.t + 1 else 2;
    var i, a := BothStand(cfg);
    var b := Gather(cfg, i, a, 0, 2, m);
    CountsRange(b.cands[0], 2, m);
    var d := Gather(cfg, i, b, 1, m, cfg.n);
    CountsRange(d.cands[1], m, cfg.n);
    var e := Conclusion(cfg, i, d, 0);
    s := Conclusion(cfg, i, e, 1);
    assert Winner(s, 0) && Winner(s, 1);
  }

  /** With whole handlers and whole starts, two quorums need only be too large to be disjoint. */
  lemma AtomicOneWinnerPerTermExact(cfg: Config)
    ensures (forall s, term :: AtomicReachable(cfg, s) ==> !TwoWinners(s, term)) <==> cfg.n > 2 * cfg.t || cfg.n <= 1
  {
    if cfg.n > 2 * cfg.t || cfg.n <= 1 {
      forall s, term | AtomicReachable(cfg, s)
        ensures !TwoWinners(s, term)
      {
        if TwoWinners(s, term) {
          var c: nat, d: nat :| Winner(s, c) && Winner(s, d) && s.cands[c].term == s.cands[d].term == term
                                && s.cands[c].node != s.cands[d].node;
          if cfg.n <= 1 {
            AtomicIsReachable(cfg, s);
            StandsInCluster(cfg, s, c);
            StandsInCluster(cfg, s, d);
          } else {
            AtomicElectionSafety(cfg, s, c, d);
          }
        }
      }
    } else {
      var s := AtomicDoubleWin(cfg);
    }
  }
}
