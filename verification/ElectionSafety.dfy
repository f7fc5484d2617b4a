/** Who can win a term when handlers and candidates are interrupted between any two of their steps. */
module ElectionSafeties {
  import opened Weights
  import opened Elections

  // ---- Runs ----

  lemma Extend(cfg: Config, s: State, step: Step)
    requires Reachable(cfg, s) && Enabled(cfg, s, step)
    ensures Reachable(cfg, Apply(cfg, s, step))
  {
    var run :| Run(cfg, run) && run.last == s;
    assert Run(cfg, Then(run, step, Apply(cfg, s, step)));
  }

  /** TryVote never gave two votes for one term: every vote given is for a term already used up. */
  ghost predicate VotesUsedUp(s: State) {
    forall v :: v in s.granted ==> 0 <= v.0 < |s.peers| && v.1 <= s.peers[v.0].votedForTerm
  }

  predicate Casts(s: State, voter: int, term: int, candidate: int) {
    (voter, term) in s.granted && s.granted[(voter, term)] == candidate
  }

  predicate HoldsVote(poll: Poll) {
    poll.Voted? || poll.Granted? || poll.Counted?
  }

  /** Every vote a candidacy was granted was really given to its node, in its term. */
  ghost predicate CandidacyOk(cfg: Config, s: State, cand: Candidacy) {
    && 0 <= cand.node < cfg.n
    && (cand.stage == Chosen || cand.stage == Announced ==> !cand.selfVoted)
    && (cand.selfVoted ==> Casts(s, cand.node, cand.term, cand.node))
    && (forall p :: p in cand.polls ==> 0 <= p < cfg.n && p != cand.node)
    && (forall p :: p in cand.polls && HoldsVote(cand.polls[p]) ==> Casts(s, p, cand.term, cand.node))
    && (cand.stage == Won ==> |Counts(cand)| >= cfg.n - cfg.t)
  }

  ghost predicate VoteInv(cfg: Config, s: State) {
    && |s.peers| == cfg.n
    && VotesUsedUp(s)
    && (forall c :: 0 <= c < |s.cands| ==> CandidacyOk(cfg, s, s.cands[c]))
  }

  lemma TryVoteKeepsUsedUp(s: State, p: nat, term: int, candidate: int)
    requires VotesUsedUp(s) && p < |s.peers|
    ensures VotesUsedUp(TryVote(s, p, term, candidate))
    ensures forall voter, tm, cd :: Casts(s, voter, tm, cd) ==> Casts(TryVote(s, p, term, candidate), voter, tm, cd)
    ensures Votes(s.peers[p], term) ==> Casts(TryVote(s, p, term, candidate), p, term, candidate)
  {
    if Votes(s.peers[p], term) {
      assert (p, term) !in s.granted;
    }
  }

  lemma UsedUpKept(cfg: Config, s: State, step: Step)
    requires VoteInv(cfg, s) && Enabled(cfg, s, step)
    ensures |Apply(cfg, s, step).peers| == cfg.n && VotesUsedUp(Apply(cfg, s, step))
    ensures forall voter, tm, cd :: Casts(s, voter, tm, cd) ==> Casts(Apply(cfg, s, step), voter, tm, cd)
  {
    match step {
      case SelfVote(c) =>
        var cand := s.cands[c];
        var voted := cand.(stage := Polling, selfVoted := Votes(s.peers[cand.node], cand.term));
        TryVoteKeepsUsedUp(s.(cands := s.cands[c := voted]), cand.node, cand.term, cand.node);
      case CastVote(c, p) =>
        var cand := s.cands[c];
        var poll := if Votes(s.peers[p], cand.term) then Voted else Denied;
        TryVoteKeepsUsedUp(SetPoll(s, c, p, poll), p, cand.term, cand.node);
      case _ =>
    }
  }

  /** The candidacy a step moves; Begin adds one at the end, and a heartbeat moves none. */
  function MovedCandidacy(s: State, step: Step): int {
    match step
    case Begin(_) => |s.cands|
    case StoreTerm(c) => c
    case SelfVote(c) => c
    case CheckTerm(c, _) => c
    case CastVote(c, _) => c
    case AdoptTerm(c, _) => c
    case CountVote(c, _) => c
    case Finish(c) => c
    case Heartbeat(_, _, _) => -1
  }

  lemma OthersUnmoved(cfg: Config, s: State, step: Step, c: nat)
    requires Enabled(cfg, s, step) && c < |Apply(cfg, s, step).cands| && c != MovedCandidacy(s, step)
    ensures c < |s.cands| && Apply(cfg, s, step).cands[c] == s.cands[c]
  {
  }

  /** A vote, once cast, stays cast, so a candidacy nobody moved keeps its justification. */
  lemma UnmovedOk(cfg: Config, s: State, e: State, cand: Candidacy)
    requires CandidacyOk(cfg, s, cand)
    requires forall voter, tm, cd :: Casts(s, voter, tm, cd) ==> Casts(e, voter, tm, cd)
    ensures CandidacyOk(cfg, e, cand)
  {
  }

  lemma CountsUnmoved(cand: Candidacy, p: nat, poll: Poll)
    requires poll != Counted && (p in cand.polls ==> cand.polls[p] != Counted)
    ensures Counts(cand.(polls := cand.polls[p := poll])) == Counts(cand)
  {
  }

  lemma PolledOk(cfg: Config, e: State, cand: Candidacy, p: nat, poll: Poll)
    requires CandidacyOk(cfg, e, cand) && p < cfg.n && p != cand.node
    requires HoldsVote(poll) ==> Casts(e, p, cand.term, cand.node)
    requires cand.stage == Won ==> poll != Counted && (p in cand.polls ==> cand.polls[p] != Counted)
    ensures CandidacyOk(cfg, e, cand.(polls := cand.polls[p := poll]))
  {
    if cand.stage == Won {
      CountsUnmoved(cand, p, poll);
    }
  }

  /** The steps of one RequestVote call. */
  lemma PollKept(cfg: Config, s: State, step: Step, c: nat, p: nat)
    requires VoteInv(cfg, s) && Enabled(cfg, s, step)
    requires step == CheckTerm(c, p) || step == CastVote(c, p) || step == AdoptTerm(c, p) || step == CountVote(c, p)
    ensures CandidacyOk(cfg, Apply(cfg, s, step), Apply(cfg, s, step).cands[c])
  {
    var e, cand := Apply(cfg, s, step), s.cands[c];
    UsedUpKept(cfg, s, step);
    UnmovedOk(cfg, s, e, cand);
    if step.CastVote? {
      var poll := if Votes(s.peers[p], cand.term) then Voted else Denied;
      TryVoteKeepsUsedUp(SetPoll(s, c, p, poll), p, cand.term, cand.node);
    }
    PolledOk(cfg, e, cand, p, e.cands[c].polls[p]);
  }

  lemma SelfVoteKept(cfg: Config, s: State, c: nat)
    requires VoteInv(cfg, s) && Enabled(cfg, s, SelfVote(c))
    ensures CandidacyOk(cfg, Apply(cfg, s, SelfVote(c)), Apply(cfg, s, SelfVote(c)).cands[c])
  {
    var cand := s.cands[c];
    var voted := cand.(stage := Polling, selfVoted := Votes(s.peers[cand.node], cand.term));
    UsedUpKept(cfg, s, SelfVote(c));
    UnmovedOk(cfg, s, Apply(cfg, s, SelfVote(c)), cand);
    TryVoteKeepsUsedUp(s.(cands := s.cands[c := voted]), cand.node, cand.term, cand.node);
  }

  lemma FinishKept(cfg: Config, s: State, c: nat)
    requires VoteInv(cfg, s) && Enabled(cfg, s, Finish(c))
    ensures CandidacyOk(cfg, Apply(cfg, s, Finish(c)), Apply(cfg, s, Finish(c)).cands[c])
  {
    UsedUpKept(cfg, s, Finish(c));
    UnmovedOk(cfg, s, Apply(cfg, s, Finish(c)), s.cands[c]);
    assert Counts(Apply(cfg, s, Finish(c)).cands[c]) == Counts(s.cands[c]);
  }

  /** The steps a candidate takes by itself. */
  lemma StageKept(cfg: Config, s: State, step: Step)
    requires VoteInv(cfg, s) && Enabled(cfg, s, step)
    requires step.Begin? || step.StoreTerm? || step.SelfVote? || step.Finish?
    ensures CandidacyOk(cfg, Apply(cfg, s, step), Apply(cfg, s, step).cands[MovedCandidacy(s, step)])
  {
    match step {
      case Begin(_) =>
      case StoreTerm(c) =>
        UsedUpKept(cfg, s, step);
        UnmovedOk(cfg, s, Apply(cfg, s, step), s.cands[c]);
      case SelfVote(c) => SelfVoteKept(cfg, s, c);
      case Finish(c) => FinishKept(cfg, s, c);
    }
  }

  lemma CandidacyKept(cfg: Config, s: State, step: Step, c: nat)
    requires VoteInv(cfg, s) && Enabled(cfg, s, step) && c < |Apply(cfg, s, step).cands|
    ensures CandidacyOk(cfg, Apply(cfg, s, step), Apply(cfg, s, step).cands[c])
  {
    if c != MovedCandidacy(s, step) {
      OthersUnmoved(cfg, s, step, c);
      UsedUpKept(cfg, s, step);
      UnmovedOk(cfg, s, Apply(cfg, s, step), s.cands[c]);
    } else {
      match step {
        case CheckTerm(_, p) => PollKept(cfg, s, step, c, p);
        case CastVote(_, p) => PollKept(cfg, s, step, c, p);
        case AdoptTerm(_, p) => PollKept(cfg, s, step, c, p);
        case CountVote(_, p) => PollKept(cfg, s, step, c, p);
        case _ => StageKept(cfg, s, step);
      }
    }
  }

  lemma VoteInvKept(cfg: Config, s: State, step: Step)
    requires VoteInv(cfg, s) && Enabled(cfg, s, step)
    ensures VoteInv(cfg, Apply(cfg, s, step))
  {
    UsedUpKept(cfg, s, step);
    forall c | 0 <= c < |Apply(cfg, s, step).cands|
      ensures CandidacyOk(cfg, Apply(cfg, s, step), Apply(cfg, s, step).cands[c])
    {
      CandidacyKept(cfg, s, step, c);
    }
  }

  lemma {:induction false} RunVoteInv(cfg: Config, run: Trace)
    requires Run(cfg, run)
    ensures VoteInv(cfg, run.last)
  {
    match run {
      case Start(_) =>
      case Then(before, step, _) =>
        RunVoteInv(cfg, before);
        VoteInvKept(cfg, before.last, step);
    }
  }

  // ---- Safety ----

  /** A counted vote was cast, unless it is the candidate's own and was refused. */
  lemma CountedIsCast(cfg: Config, s: State, c: nat, p: int)
    requires VoteInv(cfg, s) && c < |s.cands|
    requires p in Counts(s.cands[c]) && (p != s.cands[c].node || s.cands[c].selfVoted)
    ensures Casts(s, p, s.cands[c].term, s.cands[c].node)
  {
    assert CandidacyOk(cfg, s, s.cands[c]);
  }

  lemma CountsAreNodes(cfg: Config, s: State, c: nat)
    requires VoteInv(cfg, s) && c < |s.cands|
    ensures Counts(s.cands[c]) <= Ids(cfg.n) && s.cands[c].node in Counts(s.cands[c])
    ensures Winner(s, c) ==> |Counts(s.cands[c])| >= cfg.n - cfg.t
  {
    assert CandidacyOk(cfg, s, s.cands[c]);
  }

  /** Disjoint sets of nodes that leave some node out have fewer than n members between them. */
  lemma DisjointMissing(a: set<int>, b: set<int>, n: nat, missing: int)
    requires a <= Ids(n) && b <= Ids(n) && a !! b
    requires missing in Ids(n) && missing !in a && missing !in b
    ensures |a| + |b| < n
  {
    assert |a + b| == |a| + |b|;
    SubsetCount(a + b, Ids(n) - {missing});
  }

  lemma SafeInState(cfg: Config, s: State, c: nat, d: nat)
    requires VoteInv(cfg, s) && 2 * cfg.t < cfg.n
    requires Winner(s, c) && Winner(s, d) && s.cands[c].term == s.cands[d].term
    requires s.cands[c].selfVoted && s.cands[d].selfVoted
    ensures s.cands[c].node == s.cands[d].node
  {
    var p, q := Counts(s.cands[c]), Counts(s.cands[d]);
    CountsAreNodes(cfg, s, c);
    CountsAreNodes(cfg, s, d);
    if s.cands[c].node != s.cands[d].node {
      forall v | v in p
        ensures v !in q
      {
        if v in q {
          CountedIsCast(cfg, s, c, v);
          CountedIsCast(cfg, s, d, v);
        }
      }
      assert |p + q| == |p| + |q|;
      SubsetCount(p + q, Ids(cfg.n));
    }
  }

  /** Election safety under all interleavings and losses: two nodes that won the same term cannot both
      have had their self-vote granted. */
  lemma ElectionSafety(cfg: Config, s: State, c: nat, d: nat)
    requires Reachable(cfg, s) && 2 * cfg.t < cfg.n
    requires Winner(s, c) && Winner(s, d) && s.cands[c].term == s.cands[d].term
    requires s.cands[c].node != s.cands[d].node
    ensures !s.cands[c].selfVoted || !s.cands[d].selfVoted
  {
    var run :| Run(cfg, run) && run.last == s;
    RunVoteInv(cfg, run);
    if s.cands[c].selfVoted && s.cands[d].selfVoted {
      SafeInState(cfg, s, c, d);
    }
  }

  // ---- Without the side condition on self-votes ----

  predicate Asking(s: State, c: nat)
    requires c < |s.cands|
  {
    !s.cands[c].stage.Chosen? && !s.cands[c].stage.Announced?
  }

  predicate HasVoteOf(s: State, c: nat, p: int)
    requires c < |s.cands|
  {
    p in s.cands[c].polls && HoldsVote(s.cands[c].polls[p])
  }

  /** By the time a candidate asks anyone else, its own vote for the term is gone, to itself or another. */
  ghost predicate SelfVoteSpent(s: State) {
    forall c :: 0 <= c < |s.cands| ==>
      && 0 <= s.cands[c].node < |s.peers|
      && (if Asking(s, c) then s.cands[c].term <= s.peers[s.cands[c].node].votedForTerm else s.cands[c].polls == map[])
  }

  /** So two candidates of one term never have each other's votes. */
  ghost predicate NeverMutual(s: State) {
    forall c, d :: 0 <= c < |s.cands| && 0 <= d < |s.cands| && s.cands[c].term == s.cands[d].term
                   && s.cands[c].node != s.cands[d].node
      ==> !(HasVoteOf(s, c, s.cands[d].node) && HasVoteOf(s, d, s.cands[c].node))
  }

  lemma VotedTermsRise(cfg: Config, s: State, step: Step, p: nat)
    requires Enabled(cfg, s, step) && p < |s.peers|
    ensures |Apply(cfg, s, step).peers| == |s.peers|
    ensures Apply(cfg, s, step).peers[p].votedForTerm >= s.peers[p].votedForTerm
  {
  }

  lemma SelfVoteSpentKept(cfg: Config, s: State, step: Step)
    requires SelfVoteSpent(s) && Enabled(cfg, s, step)
    ensures SelfVoteSpent(Apply(cfg, s, step))
  {
    var e := Apply(cfg, s, step);
    forall c: nat | c < |e.cands|
      ensures 0 <= e.cands[c].node < |e.peers|
      ensures if Asking(e, c) then e.cands[c].term <= e.peers[e.cands[c].node].votedForTerm
              else e.cands[c].polls == map[]
    {
      if c != MovedCandidacy(s, step) {
        OthersUnmoved(cfg, s, step, c);
        VotedTermsRise(cfg, s, step, s.cands[c].node);
      } else if c < |s.cands| {
        VotedTermsRise(cfg, s, step, s.cands[c].node);
      }
    }
  }

  lemma OwnStepsKeepPolls(cfg: Config, s: State, step: Step, c: nat)
    requires Enabled(cfg, s, step) && c < |s.cands|
    requires step.Begin? || step.StoreTerm? || step.SelfVote? || step.Finish? || step.Heartbeat?
    ensures c < |Apply(cfg, s, step).cands| && Apply(cfg, s, step).cands[c].polls == s.cands[c].polls
  {
  }

  /** Only CastVote can bring a candidate a vote, and only one that the voter had left. */
  lemma NewVote(cfg: Config, s: State, step: Step, c: nat, p: nat)
    requires SelfVoteSpent(s) && Enabled(cfg, s, step) && c < |s.cands| && p < |s.peers|
    requires HasVoteOf(Apply(cfg, s, step), c, p) && !HasVoteOf(s, c, p)
    ensures step == CastVote(c, p) && s.peers[p].votedForTerm < s.cands[c].term && Asking(s, c)
  {
    if step.CheckTerm? || step.CastVote? || step.AdoptTerm? || step.CountVote? {
      if c != MovedCandidacy(s, step) {
        OthersUnmoved(cfg, s, step, c);
      }
    } else {
      OwnStepsKeepPolls(cfg, s, step, c);
    }
  }

  lemma SameStanding(cfg: Config, s: State, step: Step, c: nat)
    requires Enabled(cfg, s, step) && c < |s.cands|
    ensures c < |Apply(cfg, s, step).cands|
    ensures Apply(cfg, s, step).cands[c].node == s.cands[c].node && Apply(cfg, s, step).cands[c].term == s.cands[c].term
  {
  }

  lemma NoVoteYet(s: State, d: nat, p: int)
    requires SelfVoteSpent(s) && d < |s.cands| && s.peers[s.cands[d].node].votedForTerm < s.cands[d].term
    ensures !HasVoteOf(s, d, p)
  {
  }

  lemma BegunWithoutVotes(cfg: Config, s: State, step: Step, c: nat, p: int)
    requires Enabled(cfg, s, step) && c < |Apply(cfg, s, step).cands| && c >= |s.cands|
    ensures !HasVoteOf(Apply(cfg, s, step), c, p)
  {
  }

  lemma NeverMutualKept(cfg: Config, s: State, step: Step)
    requires SelfVoteSpent(s) && NeverMutual(s) && Enabled(cfg, s, step)
    ensures NeverMutual(Apply(cfg, s, step))
  {
    var e := Apply(cfg, s, step);
    forall c: nat, d: nat | c < |e.cands| && d < |e.cands| && e.cands[c].term == e.cands[d].term
                            && e.cands[c].node != e.cands[d].node
      ensures !(HasVoteOf(e, c, e.cands[d].node) && HasVoteOf(e, d, e.cands[c].node))
    {
      PairKept(cfg, s, step, c, d);
    }
  }

  lemma PairKept(cfg: Config, s: State, step: Step, c: nat, d: nat)
    requires SelfVoteSpent(s) && NeverMutual(s) && Enabled(cfg, s, step)
    requires c < |Apply(cfg, s, step).cands| && d < |Apply(cfg, s, step).cands|
    requires Apply(cfg, s, step).cands[c].term == Apply(cfg, s, step).cands[d].term
    requires Apply(cfg, s, step).cands[c].node != Apply(cfg, s, step).cands[d].node
    ensures !(HasVoteOf(Apply(cfg, s, step), c, Apply(cfg, s, step).cands[d].node)
              && HasVoteOf(Apply(cfg, s, step), d, Apply(cfg, s, step).cands[c].node))
  {
    var e := Apply(cfg, s, step);
    var p, q := e.cands[c].node, e.cands[d].node;
    if c >= |s.cands| {
      BegunWithoutVotes(cfg, s, step, c, q);
    } else if d >= |s.cands| {
      BegunWithoutVotes(cfg, s, step, d, p);
    } else if HasVoteOf(e, c, q) && HasVoteOf(e, d, p) {
      SameStanding(cfg, s, step, c);
      SameStanding(cfg, s, step, d);
      if !HasVoteOf(s, c, q) {
        NewVote(cfg, s, step, c, q);
        NoVoteYet(s, d, p);
        NewVote(cfg, s, step, d, p);
      } else {
        NewVote(cfg, s, step, d, p);
        NoVoteYet(s, c, q);
      }
    }
  }

  lemma {:induction false} RunNeverMutual(cfg: Config, run: Trace)
    requires Run(cfg, run)
    ensures SelfVoteSpent(run.last) && NeverMutual(run.last)
  {
    match run {
      case Start(_) =>
      case Then(before, step, _) =>
        RunNeverMutual(cfg, before);
        SelfVoteSpentKept(cfg, before.last, step);
        NeverMutualKept(cfg, before.last, step);
    }
  }

  /** With one node to spare, not even refused self-votes let two nodes win one term. */
  lemma SpareNodeMakesSafe(cfg: Config, s: State, c: nat, d: nat)
    requires Reachable(cfg, s) && 2 * cfg.t + 1 < cfg.n
    requires Winner(s, c) && Winner(s, d) && s.cands[c].term == s.cands[d].term
    ensures s.cands[c].node == s.cands[d].node
  {
    var run :| Run(cfg, run) && run.last == s;
    RunVoteInv(cfg, run);
    RunNeverMutual(cfg, run);
    var x, y := s.cands[c].node, s.cands[d].node;
    CountsAreNodes(cfg, s, c);
    CountsAreNodes(cfg, s, d);
    if x != y {
      var p, q := Counts(s.cands[c]) - {x}, Counts(s.cands[d]) - {y};
      forall v | v in p
        ensures v !in q
      {
        if v in q {
          CountedIsCast(cfg, s, c, v);
          CountedIsCast(cfg, s, d, v);
        }
      }
      assert !(HasVoteOf(s, c, y) && HasVoteOf(s, d, x));
      DisjointMissing(p, q, cfg.n, if x in q then y else x);
    }
  }

  // ---- Leader ids ----

  /** A heartbeat of a term not below the node's sets its leader id and nothing else; any other leaves all nodes
      alone and starts the sender's monitor. */
  lemma HeartbeatIs(cfg: Config, s: State, p: nat, leader: int, term: int)
    requires Enabled(cfg, s, Heartbeat(p, leader, term))
    ensures var e, q := Apply(cfg, s, Heartbeat(p, leader, term)), s.peers[p];
      && e.cands == s.cands && e.granted == s.granted
      && (term >= q.term ==>
            && e.peers == s.peers[p := Peer(q.term, q.votedForTerm, q.votedForID, leader)]
            && e.watching == s.watching)
      && (term < q.term ==>
            && e.peers == s.peers && |e.watching| == |s.watching|
            && (0 <= leader < |s.watching| ==> e.watching[leader])
            && forall i :: 0 <= i < |s.watching| && i != leader ==> e.watching[i] == s.watching[i])
  {
  }

  /** What the leader id of a node is after a step: the sender's after a heartbeat it accepts, its own after an
      election it wins, and else what it was. */
  function LeaderIdAfter(cfg: Config, s: State, step: Step, p: nat): int
    requires Enabled(cfg, s, step) && p < |s.peers|
  {
    match step
    case Heartbeat(q, leader, term) => if q == p && term >= s.peers[p].term then leader else s.peers[p].leaderID
    case Finish(c) =>
      if s.cands[c].node == p && |Counts(s.cands[c])| >= cfg.n - cfg.t then p else s.peers[p].leaderID
    case _ => s.peers[p].leaderID
  }

  lemma LeaderIdIs(cfg: Config, s: State, step: Step, p: nat)
    requires Enabled(cfg, s, step) && p < |s.peers|
    ensures |Apply(cfg, s, step).peers| == |s.peers|
    ensures Apply(cfg, s, step).peers[p].leaderID == LeaderIdAfter(cfg, s, step, p)
  {
  }

  /** Node 0, which leads first, or the winner of some election. */
  ghost predicate Leads(s: State, id: int) {
    id == 0 || exists c: nat :: Winner(s, c) && s.cands[c].node == id
  }

  lemma WinnerStays(cfg: Config, s: State, step: Step, c: nat)
    requires Enabled(cfg, s, step) && Winner(s, c)
    ensures Winner(Apply(cfg, s, step), c) && Apply(cfg, s, step).cands[c].node == s.cands[c].node
  {
  }

  lemma LeadsStays(cfg: Config, s: State, step: Step, id: int)
    requires Enabled(cfg, s, step) && Leads(s, id)
    ensures Leads(Apply(cfg, s, step), id)
  {
    if id != 0 {
      var c: nat :| Winner(s, c) && s.cands[c].node == id;
      WinnerStays(cfg, s, step, c);
    }
  }

  lemma StepKeepsLeaders(cfg: Config, s: State, step: Step, p: nat)
    requires Enabled(cfg, s, step) && p < |s.peers| && Leads(s, s.peers[p].leaderID)
    ensures |Apply(cfg, s, step).peers| == |s.peers|
    ensures Leads(Apply(cfg, s, step), Apply(cfg, s, step).peers[p].leaderID)
  {
    var e := Apply(cfg, s, step);
    LeaderIdIs(cfg, s, step, p);
    LeadsStays(cfg, s, step, s.peers[p].leaderID);
    if step.Finish? && |Counts(s.cands[step.c])| >= cfg.n - cfg.t {
      assert Winner(e, step.c);
    } else if step.Heartbeat? {
      if !(step.leader == 0 && step.term == 0) {
        var c :| 0 <= c < |s.cands| && s.cands[c].stage == Won && s.cands[c].node == step.leader;
        assert Winner(e, c);
      }
    }
  }

  /** Every leader id a node ever holds is node 0's or that of a node that has won an election. */
  lemma {:induction false} LeadersHaveWon(cfg: Config, run: Trace)
    requires Run(cfg, run)
    ensures |run.last.peers| == cfg.n
    ensures forall p :: 0 <= p < cfg.n ==> Leads(run.last, run.last.peers[p].leaderID)
  {
    match run {
      case Start(_) =>
      case Then(before, step, s) =>
        LeadersHaveWon(cfg, before);
        forall p | 0 <= p < cfg.n
          ensures |s.peers| == cfg.n && Leads(s, s.peers[p].leaderID)
        {
          StepKeepsLeaders(cfg, before.last, step, p);
        }
        RunVoteInv(cfg, run);
    }
  }
}
