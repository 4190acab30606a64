// The ride lifecycle (src/generator/state_machine.py): event kinds, their
// ordinals, the legal edges, and the object that every ride is driven through.
module Lifecycle {

  import opened Wrappers

  datatype Kind = Requested | Matched | DriverArrived | Started | Completed | Cancelled

  predicate TerminalKind(k: Kind) {
    k == Completed || k == Cancelled
  }

  /** The lifecycle ordinal; with the ride id it is the sink's idempotency key. */
  function EventSeq(k: Kind): nat {
    match k
    case Requested => 1
    case Matched => 2
    case DriverArrived => 3
    case Started => 4
    case Completed => 5
    case Cancelled => 6
  }

  predicate LegalEdge(from: Kind, to: Kind) {
    match from
    case Requested => to == Matched || to == Cancelled
    case Matched => to == DriverArrived || to == Cancelled
    case DriverArrived => to == Started || to == Cancelled
    case Started => to == Completed || to == Cancelled
    case Completed => false
    case Cancelled => false
  }

  /** What `advance` accepts: the first event is a request, the rest follow edges. */
  predicate LegalNext(state: Option<Kind>, to: Kind) {
    match state
    case None => to == Requested
    case Some(from) => LegalEdge(from, to)
  }

  /** A bound on how many events a ride in this state can still emit. */
  function Remaining(state: Option<Kind>): nat {
    match state
    case None => 5
    case Some(k) => if TerminalKind(k) then 0 else 5 - EventSeq(k)
  }

  class RideStateMachine {
    ghost const rideId: nat  // the ride it belongs to
    var state: Option<Kind>

    constructor (ghost rideId: nat)
      ensures this.rideId == rideId && state == None
    {
      this.rideId, state := rideId, None;
    }

    /** Moves along a legal edge; an illegal one raises and leaves the state alone. */
    method Advance(event: Kind) returns (ok: bool)
      modifies this
      ensures ok <==> LegalNext(old(state), event)
      ensures state == if ok then Some(event) else old(state)
      ensures ok ==> Remaining(state) < Remaining(old(state))
    {
      match state {
        case None =>
          if event != Requested {
            return false;
          }
        case Some(from) =>
          if !LegalEdge(from, event) {
            return false;
          }
      }
      state := Some(event);
      return true;
    }
  }
}
