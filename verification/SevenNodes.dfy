/** Seven nodes as deployed: the weights with which the counts go wrong. */
module SevenNodes {
  import opened Powers
  import opened RatioSearch
  import opened DeployedRatio
  import opened Weights

  const SCHEME: seq<real> := BuiltScheme(10.0, 1.08, 7)
  const MAJORITY: real := TopSum(SCHEME, 7) / 2.0

  /** With seven nodes and the default tolerance 3 the deployed search returns 1.08. */
  lemma SevenNodesRatio()
    ensures Tried(STEP, 92) == 1.08 && Passes(7, DefaultQuorum(7), 1.08)
    ensures forall k: nat :: k < 92 ==> !Passes(7, DefaultQuorum(7), Tried(STEP, k))
    ensures Sound(SCHEME, 3, MAJORITY)
  {
    SevenPasses();
    SchemeIsSound();
    forall k: nat | k < 92
      ensures !Passes(7, DefaultQuorum(7), Tried(STEP, k))
    {
      HigherFails(k);
    }
  }

  lemma SevenPasses()
    ensures Passes(7, DefaultQuorum(7), 1.08)
  {
    SevenLoads();
    LoadIsPasses(7, 0.08);
  }

  lemma SchemeIsSound()
    requires Passes(7, 4, 1.08)
    ensures Sound(SCHEME, 3, MAJORITY)
  {
    BuiltSchemeIsSound(10.0, 1.08, 7, 3);
  }

  lemma HigherFails(k: nat)
    requires k < 92
    ensures !Passes(7, DefaultQuorum(7), Tried(STEP, k))
  {
    SevenLoads();
    TriedDecreases(STEP, k, 91);
    var d := Tried(STEP, k) - 1.0;
    HeavyAbove(d);
    LoadIsPasses(7, d);
  }

  lemma HeavyAbove(d: real)
    requires d >= 0.09 && Load(7, 0.09) >= Cap(7, 0.09)
    ensures Load(7, d) >= Cap(7, d)
  {
    if Load(7, d) < Cap(7, d) {
      LoadMonotone(7, 0.09, d);
    }
  }

  lemma SevenLoads()
    ensures Load(7, 0.08) < Cap(7, 0.08) && Load(7, 0.09) >= Cap(7, 0.09)
  {
    assert Geometric(1.08, 3) == 3.2464 && Geometric(1.09, 3) == 3.2781;
  }

  lemma PowersOfRatio()
    ensures Pow(1.08, 5) == 1.4693280768 && Pow(1.08, 6) == 1.586874322944 && Pow(1.08, 7) == 1.71382426877952
  {
    assert Pow(1.08, 1) == 1.08;
    assert Pow(1.08, 2) == 1.1664;
    assert Pow(1.08, 3) == 1.259712;
    assert Pow(1.08, 4) == 1.36048896;
    assert Pow(1.08, 5) == 1.4693280768;
  }

  lemma TopWeights()
    ensures 15.8 < SCHEME[0] < 15.9 && 14.6 < SCHEME[1] < 14.7 && 44.6 < MAJORITY < 44.7
  {
    PowersOfRatio();
    assert SCHEME[0] == Term(10.0, 1.08, 6) && SCHEME[1] == Term(10.0, 1.08, 5);
    BuiltTopSum(10.0, 1.08, 7, 7, 0, TopSum(SCHEME, 7));
    assert Pow(1.08, 0) == 1.0;
  }
}
