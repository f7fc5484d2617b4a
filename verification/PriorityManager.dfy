/** The leader's weight manager: building the scheme and re-ranking the followers every round. */
module PriorityManagers {
  import opened RatioSearch
  import opened Weights

  // ---- Specification ----

  function Reversed(s: seq<real>): seq<real> {
    seq(|s|, i requires 0 <= i < |s| => s[|s| - 1 - i])
  }

  /** The weights before any re-ranking: node id holds scheme[id]. */
  function InitialWeights(scheme: seq<real>): map<int, real> {
    map id | id in Ids(|scheme|) :: scheme[id]
  }

  /** The weights in the order Init appends them, lightest first. */
  function Ascending(base: real, r: real, n: nat): (s: seq<real>)
    ensures |s| == n
  {
    if n == 0 then [] else Ascending(base, r, n - 1) + [Term(base, r, n - 1)]
  }

  lemma {:induction false} AscendingAt(base: real, r: real, n: nat, i: nat)
    requires i < n
    ensures Ascending(base, r, n)[i] == Term(base, r, i)
  {
    if i < n - 1 {
      AscendingAt(base, r, n - 1, i);
    }
  }

  /** Reversing what Init appended gives the heaviest-first scheme. */
  lemma ReversedAscending(base: real, r: real, n: nat, before: seq<real>)
    ensures Reversed(before + Ascending(base, r, n)) == BuiltScheme(base, r, n) + Reversed(before)
  {
    var s, built := before + Ascending(base, r, n), BuiltScheme(base, r, n);
    forall i | 0 <= i < n
      ensures Reversed(s)[i] == built[i]
    {
      AscendingAt(base, r, n, n - 1 - i);
    }
    forall i | n <= i < |s|
      ensures Reversed(s)[i] == Reversed(before)[i - n]
    {
    }
    assert Reversed(s) == built + Reversed(before);
  }

  /** ids[i] gets scheme[from+i]; a later entry for the same id overrides an earlier one. */
  function Place(scheme: seq<real>, ids: seq<int>, from: nat): map<int, real>
    requires from + |ids| <= |scheme|
  {
    if ids == [] then map[]
    else Place(scheme, ids[..|ids| - 1], from)[ids[|ids| - 1] := scheme[from + |ids| - 1]]
  }

  /** The leader's entry, written only when the leader is a known node that is not queued. */
  function LeaderEntry(scheme: seq<real>, n: nat, queue: seq<int>, leader: int): map<int, real>
    requires scheme != []
  {
    if leader in Ids(n) - Members(queue) then map[leader := scheme[0]] else map[]
  }

  /** The followers that did not reply. */
  function Unplaced(n: nat, queue: seq<int>, leader: int): set<int> {
    Ids(n) - Members(queue) - {leader}
  }

  predicate Enumerates(rest: seq<int>, s: set<int>) {
    Distinct(rest) && Members(rest) == s
  }

  /** The new weights when the map walk visited the nodes that did not reply in the order rest. */
  predicate Redistributed(scheme: seq<real>, n: nat, queue: seq<int>, leader: int, rest: seq<int>, w: map<int, real>) {
    && Enumerates(rest, Unplaced(n, queue, leader))
    && 1 + |queue| + |rest| <= |scheme|
    && w == LeaderEntry(scheme, n, queue, leader) + Place(scheme, queue, 1) + Place(scheme, rest, 1 + |queue|)
  }

  // ---- Go helpers ----

  method ReverseSlice(slice: array<real>)
    modifies slice
    ensures forall i :: 0 <= i < slice.Length ==> slice[i] == old(slice[slice.Length - 1 - i])
    ensures slice[..] == Reversed(old(slice[..]))
  {
    var length := slice.Length;
    var i := 0;
    while i < length / 2
      invariant 0 <= i <= length / 2
      invariant forall k :: 0 <= k < i ==> slice[k] == old(slice[length - 1 - k])
      invariant forall k :: length - i <= k < length ==> slice[k] == old(slice[length - 1 - k])
      invariant forall k :: i <= k < length - i ==> slice[k] == old(slice[k])
    {
      var j := length - 1 - i;
      slice[i], slice[j] := slice[j], slice[i];
      i := i + 1;
    }
  }

  /** The scheme's backing array, reversed in place. */
  method ReversedInPlace(s: seq<real>) returns (r: seq<real>)
    ensures r == Reversed(s)
  {
    var slice := new real[|s|](k requires 0 <= k < |s| => s[k]);
    assert slice[..] == s;
    ReverseSlice(slice);
    r := slice[..];
  }

  method Sum(arr: seq<real>) returns (total: real)
    ensures total == TopSum(arr, |arr|)
  {
    total := 0.0;
    for i := 0 to |arr|
      invariant total == TopSum(arr, i)
    {
      total := total + arr[i];
    }
  }

  /** Halfway through the walk over the arranged map, with the nodes of left not yet visited. */
  ghost predicate Walking(scheme: seq<real>, all: set<int>, queue: seq<int>, leader: int, left: set<int>,
                          rest: seq<int>, w: map<int, real>)
    requires scheme != [] && 1 + |queue| <= |scheme|
  {
    && left <= all
    && Enumerates(rest, all - left - {leader})
    && 1 + |queue| + |rest| <= |scheme|
    && w == (if leader in all - left then map[leader := scheme[0]] else map[])
            + Place(scheme, queue, 1) + Place(scheme, rest, 1 + |queue|)
  }

  lemma VisitLeader(scheme: seq<real>, all: set<int>, queue: seq<int>, leader: int, left: set<int>,
                    rest: seq<int>, w: map<int, real>)
    requires scheme != [] && 1 + |queue| <= |scheme| && all !! Members(queue)
    requires Walking(scheme, all, queue, leader, left, rest, w) && leader in left
    ensures Walking(scheme, all, queue, leader, left - {leader}, rest, w[leader := scheme[0]])
  {
    PlaceKeys(scheme, queue, 1);
    PlaceKeys(scheme, rest, 1 + |queue|);
    assert all - left - {leader} == all - (left - {leader}) - {leader};
    assert leader !in Place(scheme, queue, 1) && leader !in Place(scheme, rest, 1 + |queue|);
  }

  lemma VisitOther(scheme: seq<real>, all: set<int>, queue: seq<int>, leader: int, left: set<int>,
                   rest: seq<int>, w: map<int, real>, id: int)
    requires scheme != [] && 1 + |queue| <= |scheme|
    requires Walking(scheme, all, queue, leader, left, rest, w) && id in left && id != leader
    requires 1 + |queue| + |rest| < |scheme|
    ensures Walking(scheme, all, queue, leader, left - {id}, rest + [id], w[id := scheme[1 + |queue| + |rest|]])
  {
    MembersAppend(rest, id);
    assert id !in Members(rest);
    assert Members(rest + [id]) == all - (left - {id}) - {leader};
    assert (rest + [id])[..|rest|] == rest;
    assert leader in all - left <==> leader in all - (left - {id});
  }

  /** When the scheme is used up and a node is still to be placed, there were too many. */
  lemma TooManyLeft(all: set<int>, left: set<int>, leader: int, rest: seq<int>, id: int)
    requires left <= all && Enumerates(rest, all - left - {leader}) && id in left && id != leader
    ensures |rest| < |all - {leader}|
  {
    MembersCount(rest);
    assert id !in Members(rest);
    SubsetCount(Members(rest) + {id}, all - {leader});
  }

  lemma WalkStarts(scheme: seq<real>, all: set<int>, queue: seq<int>, leader: int, w: map<int, real>)
    requires scheme != [] && 1 + |queue| <= |scheme| && w == Place(scheme, queue, 1)
    ensures Walking(scheme, all, queue, leader, all, [], w)
  {
    assert w == map[] + w + map[];
    assert all - all - {leader} == {} == Members([]);
  }

  lemma WalkEnds(scheme: seq<real>, n: nat, queue: seq<int>, leader: int, rest: seq<int>, w: map<int, real>)
    requires scheme != [] && 1 + |queue| <= |scheme|
    requires Walking(scheme, Ids(n) - Members(queue), queue, leader, {}, rest, w)
    ensures Redistributed(scheme, n, queue, leader, rest, w)
    ensures 1 + |queue| + |Unplaced(n, queue, leader)| <= |scheme|
  {
    var all := Ids(n) - Members(queue);
    assert all - {} == all;
    MembersCount(rest);
  }

  /** The walk over the arranged map; any node not yet visited may come next. */
  method PlaceUnreplied(scheme: seq<real>, n: nat, queue: seq<int>, leader: int, replied: map<int, real>)
    returns (ok: bool, w: map<int, real>, ghost rest: seq<int>)
    requires |queue| < |scheme| && replied == Place(scheme, queue, 1)
    ensures ok <==> 1 + |queue| + |Unplaced(n, queue, leader)| <= |scheme|
    ensures ok ==> Redistributed(scheme, n, queue, leader, rest, w)
  {
    var left := Ids(n) - Members(queue);
    ghost var all := left;
    w, rest := replied, [];
    var i := |queue| + 1;
    WalkStarts(scheme, all, queue, leader, w);
    while left != {}
      invariant i == |queue| + 1 + |rest|
      invariant Walking(scheme, all, queue, leader, left, rest, w)
      decreases left
    {
      var id :| id in left;
      if id == leader {
        VisitLeader(scheme, all, queue, leader, left, rest, w);
        w := w[id := scheme[0]];
      } else {
        if i == |scheme| {
          TooManyLeft(all, left, leader, rest, id);
          return false, w, rest;
        }
        VisitOther(scheme, all, queue, leader, left, rest, w, id);
        w := w[id := scheme[i]];
        rest := rest + [id];
        i := i + 1;
      }
      left := left - {id};
    }
    WalkEnds(scheme, n, queue, leader, rest, w);
    ok := true;
  }

  class PriorityManager {
    var m: map<int, map<int, real>>
    var scheme: seq<real>
    var majority: real
    var n: nat
    var q: nat

    constructor ()
      ensures m == map[] && scheme == [] && majority == 0.0 && n == 0 && q == 0
    {
      m, scheme, majority, n, q := map[], [], 0.0, 0, 0;
    }

    /** Builds the scheme. On a fresh manager old(scheme) is empty; the source does not clear it. */
    method Init(numOfServers: nat, quorumSize: nat, baseOfPriorities: int, ratioTryStep: real, isCab: bool)
      returns (ghost ratio: real, ghost tries: nat)
      requires isCab ==> Halts(numOfServers, quorumSize, ratioTryStep)
      modifies this
      ensures n == numOfServers && q == quorumSize
      ensures isCab ==> FirstPassing(numOfServers, quorumSize, ratioTryStep, tries)
      ensures ratio == if isCab then Tried(ratioTryStep, tries) else 1.0
      ensures isCab && ratioTryStep > 0.0 && 1 <= q && FindsPositive(n, q, ratioTryStep) ==> ratio > 1.0
      ensures scheme == BuiltScheme(baseOfPriorities as real, ratio, n) + Reversed(old(scheme))
      ensures majority == TopSum(scheme, |scheme|) / 2.0
      ensures m == map[0 := InitialWeights(BuiltScheme(baseOfPriorities as real, ratio, n))]
    {
      n, q, m := numOfServers, quorumSize, map[];
      var r := 1.0;
      tries := 0;
      if isCab {
        r, tries := CalcInitPrioRatio(numOfServers, quorumSize, ratioTryStep);
      }
      ratio := r;
      var newPriorities := AppendWeights(numOfServers, baseOfPriorities as real, r);
      ReversedAscending(baseOfPriorities as real, r, numOfServers, old(scheme));
      scheme := ReversedInPlace(scheme);
      var total := Sum(scheme);
      majority := total / 2.0;
      m := m[0 := newPriorities];
    }

    /** The loop of Init: the weights are appended lightest first. */
    method AppendWeights(numOfServers: nat, base: real, r: real) returns (newPriorities: map<int, real>)
      modifies this`scheme
      ensures scheme == old(scheme) + Ascending(base, r, numOfServers)
      ensures newPriorities == InitialWeights(BuiltScheme(base, r, numOfServers))
    {
      ghost var built := BuiltScheme(base, r, numOfServers);
      newPriorities := map[];
      var i := 0;
      while i < numOfServers
        invariant 0 <= i <= numOfServers
        invariant scheme == old(scheme) + Ascending(base, r, i)
        invariant newPriorities == map id | id in Ids(numOfServers) && numOfServers - i <= id :: built[id]
      {
        var p := Term(base, r, i);
        newPriorities := newPriorities[numOfServers - 1 - i := p];
        scheme := scheme + [p];
        i := i + 1;
      }
      assert newPriorities == InitialWeights(built);
    }

    /** Re-ranks for pClock. ok is false where the source returns an error. */
    method UpdateFollowerPriorities(pClock: int, prioQueue: seq<int>, leaderID: int)
      returns (ok: bool, ghost rest: seq<int>)
      requires |prioQueue| < |scheme|
      modifies this`m
      ensures ok <==> 1 + |prioQueue| + |Unplaced(n, prioQueue, leaderID)| <= |scheme|
      ensures ok ==> pClock in m && m == old(m)[pClock := m[pClock]]
                     && Redistributed(scheme, n, prioQueue, leaderID, rest, m[pClock])
      ensures !ok ==> m == old(m)
    {
      var newPriorities: map<int, real> := map[];
      var nr := |prioQueue|;
      var i := 0;
      while i < nr
        invariant 0 <= i <= nr
        invariant newPriorities == Place(scheme, prioQueue[..i], 1)
      {
        newPriorities := newPriorities[prioQueue[i] := scheme[i + 1]];
        assert prioQueue[..i + 1][..i] == prioQueue[..i];
        i := i + 1;
      }
      assert prioQueue[..nr] == prioQueue;
      ok, newPriorities, rest := PlaceUnreplied(scheme, n, prioQueue, leaderID, newPriorities);
      if ok {
        m := m[pClock := newPriorities];
      }
    }

    /** The weights of a clock; a clock never ranked gives Go's nil map, which reads as empty. */
    method GetFollowerPriorities(pClock: int) returns (fpriorities: map<int, real>)
      ensures fpriorities == if pClock in m then m[pClock] else map[]
    {
      fpriorities := if pClock in m then m[pClock] else map[];
    }
  }

  lemma {:induction false} PlaceKeys(scheme: seq<real>, ids: seq<int>, from: nat)
    requires from + |ids| <= |scheme|
    ensures Place(scheme, ids, from).Keys == Members(ids)
  {
    if ids != [] {
      var p := ids[..|ids| - 1];
      assert ids == p + [ids[|ids| - 1]];
      PlaceKeys(scheme, p, from);
      MembersAppend(p, ids[|ids| - 1]);
    }
  }

  // ---- Every weight map is a ranking ----

  lemma {:induction false} PlaceAt(scheme: seq<real>, ids: seq<int>, from: nat, i: nat)
    requires from + |ids| <= |scheme| && Distinct(ids) && i < |ids|
    ensures ids[i] in Place(scheme, ids, from) && Place(scheme, ids, from)[ids[i]] == scheme[from + i]
  {
    PlaceKeys(scheme, ids, from);
    if i < |ids| - 1 {
      PlaceAt(scheme, ids[..|ids| - 1], from, i);
    }
  }

  function Identity(n: nat): seq<int> {
    seq(n, i => i)
  }

  /** Before any round the nodes are ranked by id. */
  lemma InitialIsRanked(scheme: seq<real>)
    ensures RankedBy(InitialWeights(scheme), Identity(|scheme|), scheme)
  {
    var order := Identity(|scheme|);
    forall id | 0 <= id < |scheme|
      ensures id in order
    {
      assert order[id] == id;
    }
  }

  /** Leader first, then the replies in arrival order, then the rest. */
  function NewOrder(leader: int, queue: seq<int>, rest: seq<int>): seq<int> {
    [leader] + queue + rest
  }

  /** What the re-ranking is called with in a round: distinct followers' replies. */
  predicate Replies(n: nat, leader: int, queue: seq<int>) {
    0 <= leader < n && Distinct(queue) && Within(queue, n) && leader !in queue
  }

  lemma DistinctConcat(a: seq<int>, b: seq<int>)
    requires Distinct(a) && Distinct(b) && Members(a) !! Members(b)
    ensures Distinct(a + b) && Members(a + b) == Members(a) + Members(b)
  {
    forall i, j | 0 <= i < j < |a + b|
      ensures (a + b)[i] != (a + b)[j]
    {
      if i < |a| <= j {
        assert a[i] in Members(a) && b[j - |a|] in Members(b);
      }
    }
  }

  lemma ListsAllIsPermutation(order: seq<int>, n: nat)
    requires Distinct(order) && Members(order) == Ids(n)
    ensures Permutation(order, n)
  {
    MembersCount(order);
    forall i | 0 <= i < |order|
      ensures 0 <= order[i] < n
    {
      assert order[i] in Members(order);
    }
    forall id | 0 <= id < n
      ensures id in order
    {
      assert id in Members(order);
    }
  }

  /** The leader, the repliers and the rest split the nodes into three. */
  lemma ThreeParts(n: nat, leader: int, queue: seq<int>, rest: seq<int>)
    requires Replies(n, leader, queue) && Enumerates(rest, Unplaced(n, queue, leader))
    ensures Members(queue) <= Ids(n) && leader !in Members(queue) && leader !in Members(rest)
    ensures Members(queue) !! Members(rest)
    ensures {leader} + Members(queue) + Members(rest) == Ids(n)
  {
  }

  lemma NewOrderIsPermutation(n: nat, leader: int, queue: seq<int>, rest: seq<int>)
    requires Replies(n, leader, queue) && Enumerates(rest, Unplaced(n, queue, leader))
    ensures Permutation(NewOrder(leader, queue, rest), n)
  {
    ThreeParts(n, leader, queue, rest);
    assert Members([leader]) == {leader};
    DistinctConcat([leader], queue);
    DistinctConcat([leader] + queue, rest);
    ListsAllIsPermutation(NewOrder(leader, queue, rest), n);
  }

  lemma ThreeMaps(e: map<int, real>, q: map<int, real>, r: map<int, real>, id: int)
    requires e.Keys !! q.Keys && e.Keys !! r.Keys && q.Keys !! r.Keys
    ensures id in e ==> (e + q + r)[id] == e[id]
    ensures id in q ==> (e + q + r)[id] == q[id]
    ensures id in r ==> (e + q + r)[id] == r[id]
  {
  }

  lemma RedistributedKeys(scheme: seq<real>, n: nat, queue: seq<int>, leader: int, rest: seq<int>, w: map<int, real>)
    requires n == |scheme| && Replies(n, leader, queue)
    requires Redistributed(scheme, n, queue, leader, rest, w)
    ensures LeaderEntry(scheme, n, queue, leader) == map[leader := scheme[0]]
    ensures Place(scheme, queue, 1).Keys == Members(queue)
    ensures Place(scheme, rest, 1 + |queue|).Keys == Members(rest)
    ensures leader !in Members(queue) && leader !in Members(rest) && Members(queue) !! Members(rest)
    ensures w.Keys == Ids(n)
  {
    ThreeParts(n, leader, queue, rest);
    PlaceKeys(scheme, queue, 1);
    PlaceKeys(scheme, rest, 1 + |queue|);
  }

  /** A part of the new weights that the other two do not touch keeps its entries. */
  lemma PartWeight(scheme: seq<real>, e: map<int, real>, q: map<int, real>, r: map<int, real>, ids: seq<int>,
                   from: nat, i: nat)
    requires from + |ids| <= |scheme| && Distinct(ids) && i < |ids|
    requires e.Keys !! q.Keys && e.Keys !! r.Keys && q.Keys !! r.Keys
    requires q == Place(scheme, ids, from) || r == Place(scheme, ids, from)
    ensures ids[i] in e + q + r && (e + q + r)[ids[i]] == scheme[from + i]
  {
    PlaceAt(scheme, ids, from, i);
    ThreeMaps(e, q, r, ids[i]);
  }

  lemma NewOrderAt(leader: int, queue: seq<int>, rest: seq<int>, i: nat)
    requires i < 1 + |queue| + |rest|
    ensures NewOrder(leader, queue, rest)[i]
         == if i == 0 then leader else if i <= |queue| then queue[i - 1] else rest[i - 1 - |queue|]
  {
  }

  lemma WeightInParts(scheme: seq<real>, e: map<int, real>, q: map<int, real>, r: map<int, real>,
                      queue: seq<int>, leader: int, rest: seq<int>, i: nat, id: int)
    requires i < 1 + |queue| + |rest| <= |scheme| && Distinct(queue) && Distinct(rest)
    requires e == map[leader := scheme[0]]
    requires q == Place(scheme, queue, 1) && r == Place(scheme, rest, 1 + |queue|)
    requires e.Keys !! q.Keys && e.Keys !! r.Keys && q.Keys !! r.Keys
    requires id == if i == 0 then leader else if i <= |queue| then queue[i - 1] else rest[i - 1 - |queue|]
    ensures id in e + q + r && (e + q + r)[id] == scheme[i]
  {
    if i == 0 {
      ThreeMaps(e, q, r, leader);
    } else if i <= |queue| {
      PartWeight(scheme, e, q, r, queue, 1, i - 1);
    } else {
      PartWeight(scheme, e, q, r, rest, 1 + |queue|, i - 1 - |queue|);
    }
  }

  /** Whatever order the map walk takes, rank i of the new order holds scheme[i]. */
  lemma NewWeightAt(scheme: seq<real>, n: nat, queue: seq<int>, leader: int, rest: seq<int>, w: map<int, real>, i: nat)
    requires n == |scheme| && Replies(n, leader, queue)
    requires Redistributed(scheme, n, queue, leader, rest, w)
    requires i < 1 + |queue| + |rest|
    ensures var id := NewOrder(leader, queue, rest)[i]; id in w && w[id] == scheme[i]
  {
    RedistributedKeys(scheme, n, queue, leader, rest, w);
    NewOrderAt(leader, queue, rest, i);
    WeightInParts(scheme, LeaderEntry(scheme, n, queue, leader), Place(scheme, queue, 1),
                  Place(scheme, rest, 1 + |queue|),
                  queue, leader, rest, i, NewOrder(leader, queue, rest)[i]);
  }

  /** Each node gets exactly one scheme entry: the update is a bijection onto the scheme. */
  lemma RedistributedIsRanked(scheme: seq<real>, n: nat, queue: seq<int>, leader: int, rest: seq<int>,
                              w: map<int, real>)
    requires n == |scheme| && Replies(n, leader, queue)
    requires Redistributed(scheme, n, queue, leader, rest, w)
    ensures RankedBy(w, NewOrder(leader, queue, rest), scheme)
  {
    var order := NewOrder(leader, queue, rest);
    NewOrderIsPermutation(n, leader, queue, rest);
    RedistributedKeys(scheme, n, queue, leader, rest, w);
    forall i | 0 <= i < n
      ensures order[i] in w && w[order[i]] == scheme[i]
    {
      NewWeightAt(scheme, n, queue, leader, rest, w, i);
    }
  }

  lemma CountUnplaced(all: set<int>, replied: set<int>, leader: int)
    requires replied <= all
    ensures |all - replied - {leader}| == |all| - |replied| - if leader in all - replied then 1 else 0
  {
    var rest := all - replied - {leader};
    if leader in all - replied {
      assert all == replied + {leader} + rest;
      assert |replied + {leader}| == |replied| + 1;
    } else {
      assert all == replied + rest;
    }
  }

  /** The re-ranking fails exactly when the leader's id is among the replies, or is no node's. */
  lemma FailsIffLeaderReplied(n: nat, queue: seq<int>, leader: int)
    requires Distinct(queue) && Within(queue, n)
    ensures 1 + |queue| + |Unplaced(n, queue, leader)| > n <==> leader in queue || !(0 <= leader < n)
  {
    MembersCount(queue);
    CountUnplaced(Ids(n), Members(queue), leader);
  }

  /** Rewards: the leader holds scheme[0], the k-th replier scheme[k], and repliers outweigh the rest. */
  lemma RepliersOutweigh(scheme: seq<real>, n: nat, queue: seq<int>, leader: int, rest: seq<int>, w: map<int, real>)
    requires n == |scheme| && Decreasing(scheme) && Replies(n, leader, queue)
    requires Redistributed(scheme, n, queue, leader, rest, w)
    ensures Lookup(w, leader) == scheme[0]
    ensures forall k :: 0 <= k < |queue| ==> Lookup(w, queue[k]) == scheme[k + 1]
    ensures forall k, id :: 0 <= k < |queue| && id in Unplaced(n, queue, leader)
              ==> Lookup(w, id) < Lookup(w, queue[k])
  {
    NewWeightAt(scheme, n, queue, leader, rest, w, 0);
    forall k | 0 <= k < |queue|
      ensures Lookup(w, queue[k]) == scheme[k + 1]
    {
      NewWeightAt(scheme, n, queue, leader, rest, w, k + 1);
    }
    forall k, id | 0 <= k < |queue| && id in Unplaced(n, queue, leader)
      ensures Lookup(w, id) < Lookup(w, queue[k])
    {
      assert id in Members(rest);
      var j :| 0 <= j < |rest| && rest[j] == id;
      NewWeightAt(scheme, n, queue, leader, rest, w, 1 + |queue| + j);
      assert scheme[1 + |queue| + j] < scheme[k + 1];
    }
  }
}
