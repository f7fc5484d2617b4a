/** One connection's chain of executeRPC tasks, ordered by one-slot token channels. */
module JobQueue {

  /** Where the task of one round has got to. Absent: no task, the peer was not connected. */
  datatype Phase =
    | Absent
    | Spawned
    | Registered
    | Waiting
    | Stuck
    | Ready
    | Calling
    | Returned(ok: bool)
    | Signalled(ok: bool)
    | Finished(ok: bool)

  /** jobQ counts the tokens in each slot; the last four fields follow the calls to the peer. */
  datatype Dock = Dock(
    connected: bool,
    broken: bool,
    tasks: seq<Phase>,
    jobQ: map<nat, nat>,
    calls: seq<nat>,
    inFlight: set<nat>,
    execs: seq<nat>,
    outcome: map<nat, bool>)

  datatype DockStep =
    | Connect
    | Break
    | Spawn
    | Register(k: nat)
    | ReadPrev(k: nat)
    | Take(k: nat)
    | Start(k: nat)
    | Handle(k: nat, ok: bool)
    | ReturnReply(k: nat)
    | ReturnFail(k: nat)
    | Signal(k: nat)
    | Deliver(k: nat)

  predicate At(d: Dock, k: nat, p: Phase) {
    k < |d.tasks| && d.tasks[k] == p
  }

  /** The token of round k was sent. */
  predicate Sent(d: Dock, k: nat) {
    k < |d.tasks| && (d.tasks[k].Signalled? || d.tasks[k].Finished?)
  }

  predicate Started(d: Dock, k: nat) {
    k < |d.tasks| && (d.tasks[k].Calling? || d.tasks[k].Returned? || Sent(d, k))
  }

  /** The task of round k is past the wait for its predecessor. */
  predicate Passed(d: Dock, k: nat) {
    k < |d.tasks| && (d.tasks[k].Ready? || Started(d, k))
  }

  predicate CanMove(d: Dock, step: DockStep) {
    match step
    case Connect => !d.connected
    case Break => true
    case Spawn => true
    case Register(k) => At(d, k, Spawned)
    case ReadPrev(k) => At(d, k, Registered)
    case Take(k) => At(d, k, Waiting) && k > 0 && k - 1 in d.jobQ && d.jobQ[k - 1] > 0
    case Start(k) => At(d, k, Ready)
    case Handle(k, _) => k in d.inFlight
    case ReturnReply(k) => At(d, k, Calling) && k in d.outcome
    case ReturnFail(k) => At(d, k, Calling) && d.broken
    case Signal(k) => k < |d.tasks| && d.tasks[k].Returned? && k in d.jobQ && d.jobQ[k] < 1
    case Deliver(k) => k < |d.tasks| && d.tasks[k].Signalled?
  }

  function Moved(d: Dock, step: DockStep): Dock
    requires CanMove(d, step)
  {
    match step
    case Connect => d.(connected := true)
    case Break => d.(broken := true)
    case Spawn => d.(tasks := d.tasks + [if d.connected then Spawned else Absent])
    case Register(k) => d.(tasks := d.tasks[k := Registered], jobQ := d.jobQ[k := 0])
    case ReadPrev(k) =>
      d.(tasks := d.tasks[k := if k == 0 then Ready else if k - 1 in d.jobQ then Waiting else Stuck])
    case Take(k) => d.(tasks := d.tasks[k := Ready], jobQ := d.jobQ[k - 1 := d.jobQ[k - 1] - 1])
    case Start(k) =>
      d.(tasks := d.tasks[k := Calling], calls := d.calls + [k],
         inFlight := if d.broken then d.inFlight else d.inFlight + {k})
    case Handle(k, ok) =>
      d.(inFlight := d.inFlight - {k}, execs := d.execs + [k], outcome := d.outcome[k := ok])
    case ReturnReply(k) => d.(tasks := d.tasks[k := Returned(d.outcome[k])])
    case ReturnFail(k) => d.(tasks := d.tasks[k := Returned(false)])
    case Signal(k) => d.(tasks := d.tasks[k := Signalled(d.tasks[k].ok)], jobQ := d.jobQ[k := d.jobQ[k] + 1])
    case Deliver(k) => d.(tasks := d.tasks[k := Finished(d.tasks[k].ok)])
  }

  /** A connection on which nothing has happened yet. */
  predicate Fresh(d: Dock) {
    !d.broken && d.tasks == [] && d.jobQ == map[] && d.calls == [] && d.inFlight == {} && d.execs == []
        && d.outcome == map[]
  }

  // ---- The invariant ----

  /** Slots exist exactly for registered tasks and hold tokens sent but not yet taken. */
  ghost predicate Slots(d: Dock) {
    && (forall k: nat :: k in d.jobQ ==> k < |d.tasks|)
    && (forall k: nat :: k < |d.tasks| ==> (k in d.jobQ <==> d.tasks[k] != Absent && d.tasks[k] != Spawned))
    && (forall k: nat :: k in d.jobQ ==> d.jobQ[k] == if Sent(d, k) && !Passed(d, k + 1) then 1 else 0)
  }

  ghost predicate Chain(d: Dock) {
    forall k: nat :: 0 < k < |d.tasks| && Passed(d, k) ==> Sent(d, k - 1)
  }

  /** Calls 0, 1, 2, ... were started, in this order and without a gap. */
  ghost predicate CallsInOrder(d: Dock) {
    && (forall i: nat :: i < |d.calls| ==> d.calls[i] == i)
    && |d.calls| <= |d.tasks|
    && (forall k: nat :: k < |d.tasks| ==> (Started(d, k) <==> k < |d.calls|))
  }

  /** The peer ran calls 0, 1, 2, ...; at most the next one is still on the wire. */
  ghost predicate RunsInOrder(d: Dock) {
    && |d.execs| <= |d.calls|
    && (forall i: nat :: i < |d.execs| ==> d.execs[i] == i)
    && (forall k: nat :: k in d.outcome <==> k < |d.execs|)
    && (forall k: nat :: k in d.inFlight ==> k == |d.execs| < |d.calls|)
  }

  /** While the connection works, every call started has run or is the one being made. */
  ghost predicate Unbroken(d: Dock) {
    && (!d.broken ==> forall k: nat :: k in d.inFlight ==> At(d, k, Calling))
    && (!d.broken ==> forall k: nat :: k < |d.calls| ==> k in d.outcome || k in d.inFlight)
  }

  /** A task reports success only when the peer's handler succeeded. */
  ghost predicate Honest(d: Dock) {
    forall k: nat :: k < |d.tasks| && (d.tasks[k].Returned? || Sent(d, k)) && d.tasks[k].ok
      ==> k in d.outcome && d.outcome[k]
  }

  ghost predicate Connectivity(d: Dock) {
    !d.connected ==> forall k: nat :: k < |d.tasks| ==> d.tasks[k] == Absent
  }

  ghost predicate DockInv(d: Dock) {
    Slots(d) && Chain(d) && CallsInOrder(d) && RunsInOrder(d) && Unbroken(d) && Honest(d) && Connectivity(d)
  }

  lemma FreshInv(d: Dock)
    requires Fresh(d)
    ensures DockInv(d)
  {
  }

  /** How one step moves the three milestones of the task of round j. */
  lemma Milestones(d: Dock, step: DockStep, j: nat)
    requires CanMove(d, step)
    ensures Sent(Moved(d, step), j) <==> Sent(d, j) || step == Signal(j)
    ensures Started(Moved(d, step), j) <==> Started(d, j) || step == Start(j)
    ensures Passed(Moved(d, step), j) <==> Passed(d, j) || step == Take(j) || (step == ReadPrev(j) && j == 0)
  {
  }

  lemma SlotKept(d: Dock, step: DockStep, k: nat)
    requires Slots(d) && Chain(d) && CanMove(d, step) && k in Moved(d, step).jobQ
    ensures var e := Moved(d, step);
            k < |e.tasks| && e.jobQ[k] == if Sent(e, k) && !Passed(e, k + 1) then 1 else 0
  {
    Milestones(d, step, k);
    Milestones(d, step, k + 1);
    assert Passed(d, k + 1) ==> Sent(d, k);
  }

  lemma SlotsKept(d: Dock, step: DockStep)
    requires Slots(d) && Chain(d) && CanMove(d, step)
    ensures Slots(Moved(d, step))
  {
    var e := Moved(d, step);
    forall k: nat | k in e.jobQ
      ensures k < |e.tasks| && e.jobQ[k] == if Sent(e, k) && !Passed(e, k + 1) then 1 else 0
    {
      SlotKept(d, step, k);
    }
  }

  lemma ChainKept(d: Dock, step: DockStep)
    requires Slots(d) && Chain(d) && CanMove(d, step)
    ensures Chain(Moved(d, step))
  {
    var e := Moved(d, step);
    forall k: nat | 0 < k < |e.tasks| && Passed(e, k)
      ensures Sent(e, k - 1)
    {
      Milestones(d, step, k);
      Milestones(d, step, k - 1);
    }
  }

  /** A task ready to call is exactly the next one. */
  lemma ReadyIsNext(d: Dock, k: nat)
    requires Chain(d) && CallsInOrder(d) && At(d, k, Ready)
    ensures k == |d.calls|
  {
    assert Passed(d, k) && !Started(d, k);
    if k > 0 {
      assert Started(d, k - 1);
    }
  }

  lemma CallsKept(d: Dock, step: DockStep)
    requires Chain(d) && CallsInOrder(d) && CanMove(d, step)
    ensures CallsInOrder(Moved(d, step))
  {
    if step.Start? {
      ReadyIsNext(d, step.k);
    }
    var e := Moved(d, step);
    forall k: nat | k < |e.tasks|
      ensures Started(e, k) <==> k < |e.calls|
    {
      Milestones(d, step, k);
    }
  }

  /** When a call starts on a connection that has not failed, nothing else is on the wire. */
  lemma NothingInFlight(d: Dock, k: nat)
    requires DockInv(d) && At(d, k, Ready) && !d.broken
    ensures d.inFlight == {} && |d.execs| == k
  {
    ReadyIsNext(d, k);
    forall j | j in d.inFlight
      ensures false
    {
      assert At(d, j, Calling);
      assert Passed(d, j + 1);
    }
    assert |d.execs| < k ==> |d.execs| in d.outcome;
  }

  lemma RunsKept(d: Dock, step: DockStep)
    requires DockInv(d) && CanMove(d, step)
    ensures RunsInOrder(Moved(d, step))
  {
    if step.Start? && !d.broken {
      NothingInFlight(d, step.k);
    }
  }

  lemma UnbrokenKept(d: Dock, step: DockStep)
    requires DockInv(d) && CanMove(d, step)
    ensures Unbroken(Moved(d, step))
  {
    if step.Start? {
      ReadyIsNext(d, step.k);
      if !d.broken {
        NothingInFlight(d, step.k);
      }
    }
  }

  lemma HonestAt(d: Dock, step: DockStep, k: nat)
    requires DockInv(d) && CanMove(d, step) && k < |Moved(d, step).tasks|
    requires (Moved(d, step).tasks[k].Returned? || Sent(Moved(d, step), k)) && Moved(d, step).tasks[k].ok
    ensures k in Moved(d, step).outcome && Moved(d, step).outcome[k]
  {
  }

  lemma HonestKept(d: Dock, step: DockStep)
    requires DockInv(d) && CanMove(d, step)
    ensures Honest(Moved(d, step))
  {
    var e := Moved(d, step);
    forall k: nat | k < |e.tasks| && (e.tasks[k].Returned? || Sent(e, k)) && e.tasks[k].ok
      ensures k in e.outcome && e.outcome[k]
    {
      HonestAt(d, step, k);
    }
  }

  lemma DockInvKept(d: Dock, step: DockStep)
    requires DockInv(d) && CanMove(d, step)
    ensures DockInv(Moved(d, step))
  {
    SlotsKept(d, step);
    ChainKept(d, step);
    CallsKept(d, step);
    RunsKept(d, step);
    UnbrokenKept(d, step);
    HonestKept(d, step);
  }

  // ---- What the chain promises ----

  /** A call starts only after every earlier call on the connection has returned and signalled. */
  lemma StartsAfterAllEarlier(d: Dock, k: nat, j: nat)
    requires DockInv(d) && CanMove(d, Start(k)) && j < k
    ensures Sent(d, j) && Started(d, j) && k == |d.calls|
  {
    ReadyIsNext(d, k);
    assert Passed(d, j + 1);
  }

  /** The token send made while holding the lock finds its one-slot channel empty. */
  lemma SignalNeverBlocks(d: Dock, k: nat)
    requires DockInv(d) && k < |d.tasks| && d.tasks[k].Returned?
    ensures CanMove(d, Signal(k)) && d.jobQ[k] == 0
  {
  }

  /** Each token is sent once and taken once. */
  lemma TokensOnce(d: Dock, step: DockStep, k: nat)
    requires DockInv(d) && CanMove(d, step)
    ensures Sent(d, k) ==> Sent(Moved(d, step), k) && step != Signal(k)
    ensures Passed(d, k) ==> Passed(Moved(d, step), k) && step != Take(k)
    ensures step == Signal(k) ==> Sent(Moved(d, step), k)
    ensures step == Take(k) ==> k > 0 && Sent(d, k - 1) && Passed(Moved(d, step), k)
  {
  }

  /** A task that found no predecessor slot waits forever, and so does everything after it. */
  lemma StuckForever(d: Dock, step: DockStep, k: nat)
    requires DockInv(d) && CanMove(d, step) && At(d, k, Stuck)
    ensures At(Moved(d, step), k, Stuck) && |Moved(d, step).calls| <= k
  {
    DockInvKept(d, step);
    assert !Started(Moved(d, step), k);
  }

  /** A peer connected after the first round is never called. */
  lemma LateJoinerNeverCalled(d: Dock, step: DockStep)
    requires DockInv(d) && CanMove(d, step) && At(d, 0, Absent)
    ensures At(Moved(d, step), 0, Absent) && Moved(d, step).calls == []
  {
    DockInvKept(d, step);
    assert !Started(Moved(d, step), 0);
  }

  /** The result of a call, once known, never changes. */
  lemma OutcomeKept(d: Dock, step: DockStep, k: nat)
    requires DockInv(d) && CanMove(d, step) && k in d.outcome
    ensures k in Moved(d, step).outcome && Moved(d, step).outcome[k] == d.outcome[k]
  {
  }
}
