/** A node's own weight and the clock it belongs to. */
module PriorityStates {

  datatype Prio = Prio(clock: int, val: real)

  /** Whether an update for this clock is accepted, and the state it leaves. */
  predicate Accepts(p: Prio, newClock: int) {
    newClock >= p.clock
  }

  function Updated(p: Prio, newClock: int, newVal: real): Prio {
    if Accepts(p, newClock) then Prio(newClock, newVal) else p
  }

  class PriorityState {
    var prioClock: int
    var prioVal: real
    var majority: real

    constructor (initPrioClock: int, initPrioVal: real)
      ensures prioClock == initPrioClock && prioVal == initPrioVal && majority == 0.0
    {
      prioClock, prioVal, majority := initPrioClock, initPrioVal, 0.0;
    }

    function View(): Prio
      reads this
    {
      Prio(prioClock, prioVal)
    }

    /** Lower clocks are rejected and change nothing. */
    method UpdatePriority(newPClock: int, newPriority: real) returns (ok: bool)
      modifies this`prioClock, this`prioVal
      ensures ok <==> newPClock >= old(prioClock)
      ensures ok ==> prioClock == newPClock && prioVal == newPriority
      ensures !ok ==> prioClock == old(prioClock) && prioVal == old(prioVal)
      ensures View() == Updated(old(View()), newPClock, newPriority)
    {
      if newPClock < prioClock {
        return false;
      }
      prioClock, prioVal := newPClock, newPriority;
      ok := true;
    }
  }
}
