/** The deployed cluster end to end: from the ratio search to the voters of a later election. */
module Cabinet {
  import opened Powers
  import opened RatioSearch
  import opened ToleranceRange
  import opened DeployedRatio
  import opened DeployedTolerance
  import opened Weights
  import opened SevenNodes
  import opened PriorityManagers
  import opened PriorityStates
  import opened KVStore
  import opened Rounds
  import opened Epochs
  import opened EpochInvariants
  import opened EpochTheorems
  import E = Elections
  import A = AtomicElections
  import S = Services

  const BASE: int := 10

  // ---- I1 and I2 need a minority tolerance ----

  /** No scheme is sound for half of the nodes or more: two halves that weigh less than half cannot
      weigh everything. */
  lemma SoundImpliesMinority(scheme: seq<real>, t: nat, majority: real)
    requires Sound(scheme, t, majority)
    ensures 2 * t < |scheme|
  {
    if 2 * t >= |scheme| {
      InitialIsRanked(scheme);
      HalvesOutweighed(scheme, t, majority, InitialWeights(scheme), Identity(|scheme|));
    }
  }

  lemma Halves(n: nat, t: nat)
    requires t <= n
    ensures var p, q := Ids(t), Ids(n) - Ids(t);
      p <= Ids(n) && q <= Ids(n) && p !! q && p + q == Ids(n) && |p| == t && |q| == n - t
  {
    RangeSize(t, n);
  }

  lemma HalvesOutweighed(scheme: seq<real>, t: nat, majority: real, w: map<int, real>, order: seq<int>)
    requires Sound(scheme, t, majority) && RankedBy(w, order, scheme)
    ensures 2 * t < |scheme|
  {
    var n := |scheme|;
    var p, q := Ids(t), Ids(n) - Ids(t);
    Halves(n, t);
    FewAreNoQuorum(w, order, scheme, t, majority, p);
    WeighDisjoint(w, p, q, n);
    TotalWeight(w, order, scheme, t, majority);
    if |q| <= t {
      FewAreNoQuorum(w, order, scheme, t, majority, q);
    }
  }

  /** So the search itself enforces it, for tolerances beyond the number of nodes too. */
  lemma NoRatioForMajorityTolerance(n: nat, t: nat, r: real)
    requires n <= 2 * t && r > 0.0
    ensures !Passes(n, t + 1, r)
  {
    if Passes(n, t + 1, r) {
      PositiveIsAboveOne(n, t + 1, r);
      if t < n {
        BuiltSchemeIsSound(1.0, r, n, t);
        var s := BuiltScheme(1.0, r, n);
        SoundImpliesMinority(s, t, TopSum(s, n) / 2.0);
      } else {
        PowMono(1.0, r, n);
        PowOfOne(n);
        NegativePowerAtMostOne(r, t - n);
      }
    }
  }

  lemma NegativePowerAtMostOne(r: real, j: nat)
    requires r > 1.0
    ensures Power(r, 0 - j) <= 1.0
  {
    PowMono(1.0, r, j);
    PowOfOne(j);
    InverseAntitone(1.0, Pow(r, j));
  }

  /** One node told to tolerate one failure: the search runs past zero and stops at -0.01. */
  lemma OneNodeOneFailure()
    ensures FirstPassing(1, 2, STEP, 201) && Tried(STEP, 201) == -0.01
  {
    var r := Tried(STEP, 201);
    assert r == -0.01;
    assert Pow(r, 0) == 1.0 && Pow(r, 1) == r;
    assert Power(r, 0) == 1.0 && Power(r, -1) == -100.0;
    forall j: nat | j < 201
      ensures !Passes(1, 2, Tried(STEP, j))
    {
      if j < 200 {
        NoRatioForMajorityTolerance(1, 1, Tried(STEP, j));
      }
    }
  }

  /** A ratio the search may return that gives positive weights. */
  predicate Usable(n: nat, t: nat, r: real) {
    r > 0.0 && Passes(n, t + 1, r)
  }

  /** Exactly the tolerances below half the nodes admit a usable ratio, whatever the number of nodes. */
  lemma RatioExistsIffMinority(n: nat, t: nat)
    ensures (exists r :: Usable(n, t, r)) <==> 2 * t < n
  {
    if 2 * t < n {
      var step := SomeStepIsFine(n);
      SearchHaltsForMinority(n, t, step);
      var k: nat :| Tried(step, k) > 1.0 && Passes(n, t + 1, Tried(step, k));
      assert Usable(n, t, Tried(step, k));
    } else if r :| Usable(n, t, r) {
      NoRatioForMajorityTolerance(n, t, r);
    }
  }

  /** As deployed, up to twenty nodes any tolerance below half of them can be given on the command line. */
  lemma TwentyNodesAnyTolerance(n: nat, t: nat)
    requires n <= 20
    ensures FindsPositive(n, t + 1, STEP) <==> 2 * t < n
  {
    if 2 * t < n {
      MinorityFindsRatio(n, t);
    } else if k: nat :| Tried(STEP, k) > 0.0 && Passes(n, t + 1, Tried(STEP, k)) {
      NoRatioForMajorityTolerance(n, t, Tried(STEP, k));
    }
  }

  // ---- The manager every node builds at start ----

  /** The initial leader's epoch over a manager's scheme. */
  function FirstEpoch(n: nat, t: nat, scheme: seq<real>, majority: real, seed: Store): Config {
    Config(n, t, scheme, majority, 0, seed, true)
  }

  lemma StartIsValid(n: nat, t: nat, ratio: real)
    requires ratio > 1.0 && Passes(n, t + 1, ratio)
    ensures 2 * t < n
    ensures var scheme := BuiltScheme(BASE as real, ratio, n); Sound(scheme, t, TopSum(scheme, n) / 2.0)
  {
    if n <= 2 * t {
      NoRatioForMajorityTolerance(n, t, ratio);
    }
    BuiltSchemeIsSound(BASE as real, ratio, n, t);
  }

  /** The search stops at the first ratio on the grid that passes, and the scheme is the geometric one of that
      ratio and base 10. */
  method InitCabinetPriority(nodeID: nat, n: nat, t: nat, step: real)
    returns (ps: PriorityState, pm: PriorityManager, ghost ratio: real, ghost tries: nat)
    requires nodeID < n && Halts(n, t + 1, step)
    ensures fresh(ps) && fresh(pm)
    ensures FirstPassing(n, t + 1, step, tries) && ratio == Tried(step, tries)
    ensures pm.n == n && pm.q == t + 1
    ensures |pm.scheme| == n && forall i :: 0 <= i < n ==> pm.scheme[i] == Term(10.0, ratio, n - 1 - i)
    ensures pm.scheme == BuiltScheme(10.0, ratio, n) && pm.majority == TopSum(pm.scheme, n) / 2.0
    ensures pm.m == map[0 := InitialWeights(pm.scheme)]
    ensures ps.prioClock == 0 && ps.prioVal == pm.scheme[nodeID] && ps.majority == pm.majority
    ensures step > 0.0 && FindsPositive(n, t + 1, step) ==>
      ratio > 1.0 && 2 * t < n && forall seed :: ValidConfig(FirstEpoch(n, t, pm.scheme, pm.majority, seed))
  {
    pm := new PriorityManager();
    ratio, tries := pm.Init(n, t + 1, BASE, step, true);
    assert pm.scheme == BuiltScheme(BASE as real, ratio, n);
    if step > 0.0 && FindsPositive(n, t + 1, step) {
      StartIsValid(n, t, ratio);
    }
    var fprios := pm.GetFollowerPriorities(0);
    ps := new PriorityState(0, fprios[nodeID]);
    ps.majority := pm.majority;
  }

  /** The initial leader's epoch as deployed: default tolerance, and the scheme of this ratio. */
  function DeployedEpoch(n: nat, ratio: real, seed: Store): Config
    requires n >= 1
  {
    var scheme := BuiltScheme(BASE as real, ratio, n);
    FirstEpoch(n, DefaultTolerance(n), scheme, TopSum(scheme, n) / 2.0, seed)
  }

  /** For every supported number of nodes the search meets a ratio, and any it returns is sound. */
  lemma DeployedIsValid(n: nat, ratio: real, seed: Store)
    requires n >= 1 && Supported(n)
    requires ratio > 0.0 && Passes(n, DefaultQuorum(n), ratio)
    ensures FindsPositive(n, DefaultTolerance(n) + 1, STEP)
    ensures ValidConfig(DeployedEpoch(n, ratio, seed))
  {
    DeployedSearchExact(n);
    BuiltSchemeIsSound(BASE as real, ratio, n, DefaultTolerance(n));
  }

  /** A node of a supported cluster starts in the deployed epoch's first state: its manager holds the epoch's
      scheme and majority, its own weight is its entry. With seven nodes the scheme is that of ratio 1.08. */
  method StartDeployed(nodeID: nat, n: nat, ghost seed: Store)
    returns (ps: PriorityState, pm: PriorityManager, ghost ratio: real)
    requires nodeID < n && Supported(n)
    ensures ratio > 1.0 && Passes(n, DefaultQuorum(n), ratio)
    ensures ValidConfig(DeployedEpoch(n, ratio, seed))
    ensures pm.scheme == DeployedEpoch(n, ratio, seed).scheme && pm.majority == DeployedEpoch(n, ratio, seed).majority
    ensures ps.View() == Prio(0, pm.scheme[nodeID]) && ps.majority == pm.majority
    ensures n == 7 ==> ratio == 1.08 && pm.scheme == SCHEME && pm.majority == MAJORITY
  {
    DeployedSearchExact(n);
    FindsPositiveHalts(n, DefaultQuorum(n), STEP);
    ghost var tries;
    ps, pm, ratio, tries := InitCabinetPriority(nodeID, n, DefaultTolerance(n), STEP);
    DeployedIsValid(n, ratio, seed);
    if n == 7 {
      SevenNodesSearch(tries);
    }
  }

  lemma FindsPositiveHalts(n: nat, f: nat, step: real)
    requires FindsPositive(n, f, step)
    ensures Halts(n, f, step)
  {
    var k: nat :| Tried(step, k) > 0.0 && Passes(n, f, Tried(step, k));
    assert Passes(n, f, Tried(step, k));
  }

  /** Whatever search comes first to a passing ratio for seven nodes comes to 1.08. */
  lemma SevenNodesSearch(tries: nat)
    requires FirstPassing(7, DefaultQuorum(7), STEP, tries)
    ensures tries == 92 && Tried(STEP, tries) == 1.08
  {
    SevenNodesRatio();
    FirstPassingUnique(7, DefaultQuorum(7), STEP, tries, 92);
  }

  // ---- Acknowledged writes and later elections ----

  /** Every acknowledged write, where it took t followers to pass the majority, has been run by one of the
      nodes whose votes any later winner counted, however the election's steps interleaved. */
  lemma AcknowledgedReachesEveryWinner(cfg: Config, s: Epoch, k: nat, vote: E.State, c: nat)
    requires ValidConfig(cfg) && Reachable(cfg, s)
    requires k < |s.replies| && k < |s.rounds| && k <= |s.rankIds| && s.replies[k] == Ok && NeedsMany(cfg, s, k)
    requires E.Reachable(E.Config(cfg.n, cfg.t), vote) && E.Winner(vote, c)
    ensures |Holders(cfg, s, k)| >= cfg.t + 1
    ensures exists f :: f in E.Counts(vote.cands[c]) && Ran(cfg, s, k, f)
  {
    AcknowledgedIsHeld(cfg, s, k);
    A.WinnersCounts(E.Config(cfg.n, cfg.t), vote, c);
    AcknowledgedMeetsElectionQuorum(cfg, s, k, E.Counts(vote.cands[c]));
  }

  /** The same from the command line on: n nodes with the default tolerance and step, the ratio the
      search returned, any run of the epoch and any election. */
  lemma DeployedClusterKeepsWrites(n: nat, ratio: real, seed: Store, s: Epoch, k: nat, vote: E.State, c: nat)
    requires n >= 1 && Supported(n) && ratio > 0.0 && Passes(n, DefaultQuorum(n), ratio)
    requires Reachable(DeployedEpoch(n, ratio, seed), s)
    requires k < |s.replies| && s.replies[k] == Ok
    requires E.Reachable(E.Config(n, DefaultTolerance(n)), vote) && E.Winner(vote, c)
    ensures |Holders(DeployedEpoch(n, ratio, seed), s, k)| >= DefaultTolerance(n) + 1
    ensures exists f :: f in E.Counts(vote.cands[c]) && Ran(DeployedEpoch(n, ratio, seed), s, k, f)
  {
    var cfg := DeployedEpoch(n, ratio, seed);
    DeployedIsValid(n, ratio, seed);
    ReachableInv(cfg, s);
    AloneOwnsTopWeight(cfg, s, k);
    TopWeightIsTrusted(cfg, s, k);
    AcknowledgedReachesEveryWinner(cfg, s, k, vote, c);
  }

  // ---- A stale leader steps down ----

  /** What a leader of this term hears from node asked[i] in state heard[i]. */
  function BeatAnswerOf(asked: seq<int>, heard: seq<E.State>, term: int, i: nat): S.BeatAnswer
    requires i < |asked| && i < |heard| && 0 <= asked[i] < |heard[i].peers|
  {
    S.BeatReply(E.AcceptsHeartbeat(heard[i].peers[asked[i]], term))
  }

  /** Once a later term is won and t+1 distinct nodes have answered since, a rejection is among the
      answers, so RunHeartbeat deposes the leader, and only once. */
  lemma StaleLeaderIsDeposed(cfg: E.Config, s: E.State, c: nat, term: int, asked: seq<int>, heard: seq<E.State>,
                             answers: seq<S.BeatAnswer>)
    requires A.AtomicReachable(cfg, s) && E.Winner(s, c) && term < s.cands[c].term
    requires Distinct(asked) && Within(asked, cfg.n) && |asked| == |heard| >= cfg.t + 1
    requires forall i :: 0 <= i < |heard| ==> A.Later(cfg, s, heard[i]) && |heard[i].peers| == cfg.n
    requires forall i :: 0 <= i < |heard| ==> BeatAnswerOf(asked, heard, term, i) in answers
    ensures S.BeatReply(false) in answers
  {
    A.StaleLeaderFound(cfg, s, c, term, asked, heard);
    var i: nat :| A.Refuses(asked, heard, term, i);
    assert BeatAnswerOf(asked, heard, term, i) == S.BeatReply(false);
  }
}
