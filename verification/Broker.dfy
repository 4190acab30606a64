// The slice of Kafka the sessionizer touches: committed input offsets and the
// read-committed output topics, which change together or not at all.
module Broker {

  import opened Wrappers
  import opened SessionFold

  type Bytes = seq<bv8>

  /** A record of rides.events as the deserializer sees it. */
  datatype Payload = Poison(raw: Bytes) | Good(event: RideEvent)

  datatype Envelope = Envelope(partition: nat, offset: nat, raw: Bytes)

  /** What a read-committed consumer sees, with the group's committed positions. */
  datatype BrokerState = BrokerState(
    committed: map<nat, nat>,
    sessions: seq<Session>,
    clean: seq<RideEvent>,
    dead: seq<Envelope>)

  datatype Txn = Txn(
    offsets: map<nat, nat>,
    sessions: seq<Session>,
    clean: seq<RideEvent>,
    dead: seq<Envelope>)

  const EMPTY_BROKER := BrokerState(map[], [], [], [])
  const EMPTY_TXN := Txn(map[], [], [], [])

  /** The client reports -1001 for a partition without a committed offset. */
  function CommittedOffset(b: BrokerState, p: nat): int {
    if p in b.committed then b.committed[p] else -1001
  }

  function Resume(b: BrokerState, p: nat): nat {
    var offset := CommittedOffset(b, p);
    if offset >= 0 then offset else 0
  }

  function Apply(b: BrokerState, t: Txn): BrokerState {
    BrokerState(b.committed + t.offsets, b.sessions + t.sessions, b.clean + t.clean, b.dead + t.dead)
  }

  /** How `commit_transaction` ends: acknowledged, applied although the call
      raised, or not applied (which stands for any failure before it, too). */
  datatype CommitFate = Acked | AppliedButRaised | NotApplied

  class Broker {
    var state: BrokerState
    var pending: Option<Txn>

    constructor ()
      ensures state == EMPTY_BROKER && pending == None
    {
      state, pending := EMPTY_BROKER, None;
    }

    method BeginTransaction()
      modifies this`pending
      ensures pending == Some(EMPTY_TXN)
    {
      pending := Some(EMPTY_TXN);
    }

    method ProduceSession(s: Session)
      requires pending != None
      modifies this`pending
      ensures pending == Some(old(pending).value.(sessions := old(pending).value.sessions + [s]))
    {
      pending := Some(pending.value.(sessions := pending.value.sessions + [s]));
    }

    method ProduceClean(e: RideEvent)
      requires pending != None
      modifies this`pending
      ensures pending == Some(old(pending).value.(clean := old(pending).value.clean + [e]))
    {
      pending := Some(pending.value.(clean := pending.value.clean + [e]));
    }

    method ProduceDead(e: Envelope)
      requires pending != None
      modifies this`pending
      ensures pending == Some(old(pending).value.(dead := old(pending).value.dead + [e]))
    {
      pending := Some(pending.value.(dead := pending.value.dead + [e]));
    }

    method SendOffsets(offsets: map<nat, nat>)
      requires pending != None
      modifies this`pending
      ensures pending == Some(old(pending).value.(offsets := old(pending).value.offsets + offsets))
    {
      pending := Some(pending.value.(offsets := pending.value.offsets + offsets));
    }

    method CommitTransaction(fate: CommitFate) returns (ok: bool)
      requires pending != None
      modifies this
      ensures ok <==> fate == Acked
      ensures state == if fate == NotApplied then old(state) else Apply(old(state), old(pending).value)
      ensures pending == if fate == NotApplied then old(pending) else None
    {
      if fate != NotApplied {
        state, pending := Apply(state, pending.value), None;
      }
      ok := fate == Acked;
    }

    /** Aborting drops the open transaction. The client may raise, with a transaction
        open or none; the broker then drops it when the next process starts. */
    method AbortTransaction(raises: bool) returns (ok: bool)
      modifies this`pending
      ensures pending == None
      ensures ok <==> !raises
    {
      ok := !raises;
      pending := None;
    }
  }
}
