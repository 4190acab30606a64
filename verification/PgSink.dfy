// The Postgres sink (src/processors/pg_sink.py): upserts and stored offsets that
// change in one transaction, and a restart that seeks past the stored offset.
module PgSink {

  import opened Wrappers
  import opened Lifecycle
  import opened SessionFold

  datatype Topic = RidesEvents | RidesSessions | PaymentsTransactions | DriversLocations

  type TopicPartition = (Topic, nat)

  datatype Payment = Payment(txnId: string, rideId: string, amountCents: int, status: string, method_: string, ts: int)

  datatype Location = Location(
    driverId: string, ts: int, lat: real, lon: real, speedKmh: real, heading: real, status: string, cityId: int)

  /** A record that decoded and built its row, or poison. */
  datatype Value =
    | EventValue(event: RideEvent)
    | SessionValue(session: Session)
    | PaymentValue(payment: Payment)
    | LocationValue(location: Location)
    | Undecodable

  predicate Typed(topic: Topic, v: Value) {
    match v
    case EventValue(_) => topic == RidesEvents
    case SessionValue(_) => topic == RidesSessions
    case PaymentValue(_) => topic == PaymentsTransactions
    case LocationValue(_) => topic == DriversLocations
    case Undecodable => true
  }

  datatype Message = Failed | Record(tp: TopicPartition, offset: nat, value: Value)

  /** A row of raw.rides_events keeps the coordinates of the message that wrote it. */
  datatype EventRow = EventRow(event: RideEvent, partition: nat, offset: nat)

  datatype Database = Database(
    events: map<(string, nat), EventRow>,
    sessions: map<string, Session>,
    payments: map<string, Payment>,
    locations: map<(string, int), Location>,
    offsets: map<TopicPartition, nat>)

  const EMPTY_DATABASE := Database(map[], map[], map[], map[], map[])

  // ------------------------------------------------------------------ upserts

  function EventKey(row: EventRow): (string, nat) {
    (row.event.rideId, EventSeq(row.event.kind))
  }

  function LocationKey(l: Location): (string, int) {
    (l.driverId, l.ts)
  }

  /** INSERT with ON CONFLICT: an existing row is merged with the new one. */
  function Upsert<K, R>(t: map<K, R>, k: K, row: R, merge: (R, R) -> R): map<K, R> {
    t[k := if k in t then merge(t[k], row) else row]
  }

  /** DO NOTHING. */
  function KeepFirst<R>(old_: R, new_: R): R {
    old_
  }

  /** DO UPDATE: the listed columns are taken from the new row. */
  function WithListed(old_: Session, new_: Session): Session {
    old_.(terminalState := new_.terminalState,
    eventSeq := new_.eventSeq,
    endedTs := new_.endedTs,
    timeToMatchSec := new_.timeToMatchSec,
    timeToPickupSec := new_.timeToPickupSec,
    rideDurationSec := new_.rideDurationSec,
    distanceKm := new_.distanceKm,
    avgSpeedKmh := new_.avgSpeedKmh,
    isLateArrival := new_.isLateArrival,
    fareCents := new_.fareCents,
    promoCode := new_.promoCode)
  }

  /** The DO UPDATE applies only when the new close is richer. */
  function KeepRicher(old_: Session, new_: Session): Session {
    if new_.eventSeq > old_.eventSeq then WithListed(old_, new_) else old_
  }

  /** The unique index on event_id refuses a second key for an id it holds. */
  predicate EventAllowed(t: map<(string, nat), EventRow>, row: EventRow) {
    EventKey(row) in t || forall k :: k in t ==> t[k].event.eventId != row.event.eventId
  }

  /** The NOT NULL columns that a derived session could leave empty. */
  predicate SessionAllowed(s: Session) {
    s.riderId != None && s.cityId != None
  }

  function Advance(offsets: map<TopicPartition, nat>, tp: TopicPartition, offset: nat): map<TopicPartition, nat> {
    offsets[tp := if tp in offsets then Max(offset, offsets[tp]) else offset]
  }

  predicate RowAllowed(db: Database, m: Message)
    requires m.Record?
  {
    match m.value
    case EventValue(e) => EventAllowed(db.events, EventRow(e, m.tp.1, m.offset))
    case SessionValue(s) => SessionAllowed(s)
    case _ => true
  }

  /** One record's row and its partition's offset, when no constraint refuses. */
  function ApplyRow(db: Database, m: Message): Database
    requires m.Record?
  {
    var moved := db.(offsets := Advance(db.offsets, m.tp, m.offset));
    match m.value
    case EventValue(e) =>
      var row := EventRow(e, m.tp.1, m.offset);
      moved.(events := Upsert(db.events, EventKey(row), row, KeepFirst))
    case SessionValue(s) => moved.(sessions := Upsert(db.sessions, s.rideId, s, KeepRicher))
    case PaymentValue(p) => moved.(payments := Upsert(db.payments, p.txnId, p, KeepFirst))
    case LocationValue(l) => moved.(locations := Upsert(db.locations, LocationKey(l), l, KeepFirst))
    case Undecodable => moved
  }

  /** A whole batch in one transaction: None when a constraint refuses some row. */
  function ApplyAll(db: Database, msgs: seq<Message>): Option<Database> {
    if msgs == [] then Some(db)
    else
      match ApplyAll(db, msgs[..|msgs| - 1])
      case None => None
      case Some(before) =>
        var m := msgs[|msgs| - 1];
        if !m.Record? || !RowAllowed(before, m) then None else Some(ApplyRow(before, m))
  }

  /** The first offset the sink still has to read. */
  function NextToRead(db: Database, tp: TopicPartition): nat {
    if tp in db.offsets then db.offsets[tp] + 1 else 0
  }

  datatype Seek = Beginning | At(offset: nat)

  function SeekPosition(s: Seek): nat {
    match s
    case Beginning => 0
    case At(offset) => offset
  }

  // --------------------------------------------------------------- the object

  datatype Outcome = Committed | ConsumerError | DatabaseError

  /** Whether the database accepts the commit, fails before it, or applies it
      although the connection raises. */
  datatype CommitFate = Accepts | FailsBefore | AppliesThenRaises

  class Postgres {
    var db: Database

    constructor ()
      ensures db == EMPTY_DATABASE
    {
      db := EMPTY_DATABASE;
    }
  }

  class PgSink {
    const conn: Postgres
    var rowsWritten: nat
    var poisonSeen: nat

    constructor (conn: Postgres)
      ensures this.conn == conn && rowsWritten == 0 && poisonSeen == 0
    {
      this.conn, rowsWritten, poisonSeen := conn, 0, 0;
    }

    /** The stored offset of each partition, -1 where none is stored. */
    method StoredOffsets(partitions: seq<TopicPartition>) returns (stored: map<TopicPartition, int>)
      ensures stored.Keys == set tp | tp in partitions
      ensures forall tp :: tp in partitions ==> stored[tp] == NextToRead(conn.db, tp) - 1
    {
      stored := map tp | tp in partitions :: if tp in conn.db.offsets then conn.db.offsets[tp] else -1;
    }

    /** Seeks every partition past what Postgres has; broker offsets are ignored. */
    method OnAssign(partitions: seq<TopicPartition>) returns (seeks: map<TopicPartition, Seek>)
      ensures seeks.Keys == set tp | tp in partitions
      ensures forall tp :: tp in partitions ==> SeekPosition(seeks[tp]) == NextToRead(conn.db, tp)
    {
      var stored := StoredOffsets(partitions);
      seeks := map tp | tp in partitions :: if stored[tp] >= 0 then At(stored[tp] + 1) else Beginning;
    }

    /** Rows topic by topic, then offsets, then commit; anything raised rolls back. */
    method ProcessBatch(msgs: seq<Message>, fate: CommitFate) returns (outcome: Outcome)
      requires forall m :: m in msgs && m.Record? ==> Typed(m.tp.0, m.value)
      modifies this, conn
      ensures outcome == ConsumerError <==> Failed in msgs
      ensures outcome == Committed <==> Failed !in msgs && ApplyAll(old(conn.db), msgs) != None && fate == Accepts
      ensures conn.db ==
              if Failed in msgs || ApplyAll(old(conn.db), msgs) == None || fate == FailsBefore then old(conn.db)
              else ApplyAll(old(conn.db), msgs).value
      ensures rowsWritten == old(rowsWritten) + if outcome == Committed then |Decodable(msgs)| else 0
    {
      var work := conn.db;
      var count, allowed := 0, true;
      for i := 0 to |msgs|
        invariant Failed !in msgs[..i]
        invariant conn.db == old(conn.db) && rowsWritten == old(rowsWritten)
        invariant count == |Decodable(msgs[..i])|
      {
        assert msgs[..i + 1][..i] == msgs[..i];
        if msgs[i] == Failed {
          return ConsumerError;
        }
        if msgs[i].value == Undecodable {
          poisonSeen := poisonSeen + 1;
        } else {
          count := count + 1;
        }
      }
      assert msgs[..|msgs|] == msgs;
      var events := InsertEvents(work.events, msgs);
      var sessions := UpsertSessions(work.sessions, msgs);
      var payments := InsertPayments(work.payments, msgs);
      var locations := InsertLocations(work.locations, msgs);
      var offsets := UpsertOffsets(work.offsets, msgs);
      TopicByTopic(conn.db, msgs);
      if events == None || sessions == None || fate == FailsBefore {
        return DatabaseError;
      }
      conn.db := Database(events.value, sessions.value, payments, locations, offsets);
      if fate == AppliesThenRaises {
        return DatabaseError;
      }
      rowsWritten := rowsWritten + count;
      outcome := Committed;
    }

    method InsertEvents(t: map<(string, nat), EventRow>, msgs: seq<Message>)
      returns (r: Option<map<(string, nat), EventRow>>)
      ensures r == EventTable(t, msgs)
    {
      r := Some(t);
      for i := 0 to |msgs|
        invariant r == EventTable(t, msgs[..i])
      {
        assert msgs[..i + 1][..i] == msgs[..i];
        if r != None && msgs[i].Record? && msgs[i].value.EventValue? {
          var row := EventRow(msgs[i].value.event, msgs[i].tp.1, msgs[i].offset);
          r := if EventAllowed(r.value, row) then Some(Upsert(r.value, EventKey(row), row, KeepFirst)) else None;
        }
      }
      assert msgs[..|msgs|] == msgs;
    }

    method UpsertSessions(t: map<string, Session>, msgs: seq<Message>) returns (r: Option<map<string, Session>>)
      ensures r == SessionTable(t, msgs)
    {
      r := Some(t);
      for i := 0 to |msgs|
        invariant r == SessionTable(t, msgs[..i])
      {
        assert msgs[..i + 1][..i] == msgs[..i];
        if r != None && msgs[i].Record? && msgs[i].value.SessionValue? {
          var s := msgs[i].value.session;
          r := if SessionAllowed(s) then Some(Upsert(r.value, s.rideId, s, KeepRicher)) else None;
        }
      }
      assert msgs[..|msgs|] == msgs;
    }

    method InsertPayments(t: map<string, Payment>, msgs: seq<Message>) returns (r: map<string, Payment>)
      ensures r == PaymentTable(t, msgs)
    {
      r := t;
      for i := 0 to |msgs|
        invariant r == PaymentTable(t, msgs[..i])
      {
        assert msgs[..i + 1][..i] == msgs[..i];
        if msgs[i].Record? && msgs[i].value.PaymentValue? {
          r := Upsert(r, msgs[i].value.payment.txnId, msgs[i].value.payment, KeepFirst);
        }
      }
      assert msgs[..|msgs|] == msgs;
    }

    method InsertLocations(t: map<(string, int), Location>, msgs: seq<Message>)
      returns (r: map<(string, int), Location>)
      ensures r == LocationTable(t, msgs)
    {
      r := t;
      for i := 0 to |msgs|
        invariant r == LocationTable(t, msgs[..i])
      {
        assert msgs[..i + 1][..i] == msgs[..i];
        if msgs[i].Record? && msgs[i].value.LocationValue? {
          r := Upsert(r, LocationKey(msgs[i].value.location), msgs[i].value.location, KeepFirst);
        }
      }
      assert msgs[..|msgs|] == msgs;
    }

    /** The highest offset of each partition in the batch, then GREATEST with the stored one. */
    method UpsertOffsets(stored: map<TopicPartition, nat>, msgs: seq<Message>) returns (r: map<TopicPartition, nat>)
      ensures r == OffsetTable(stored, msgs)
    {
      var highest: map<TopicPartition, nat> := map[];
      for i := 0 to |msgs|
        invariant highest == OffsetTable(map[], msgs[..i])
      {
        assert msgs[..i + 1][..i] == msgs[..i];
        if msgs[i].Record? {
          highest := Advance(highest, msgs[i].tp, msgs[i].offset);
        }
      }
      assert msgs[..|msgs|] == msgs;
      HighestThenGreatest(stored, msgs);
      r := map tp | tp in stored.Keys + highest.Keys ::
        if tp !in highest then stored[tp] else if tp !in stored then highest[tp] else Max(highest[tp], stored[tp]);
    }
  }

  // ------------------------------------------------- one table at a time

  function Decodable(msgs: seq<Message>): seq<Message> {
    if msgs == [] then []
    else
      var m := msgs[|msgs| - 1];
      Decodable(msgs[..|msgs| - 1]) + (if m.Record? && m.value != Undecodable then [m] else [])
  }

  function EventTable(t: map<(string, nat), EventRow>, msgs: seq<Message>): Option<map<(string, nat), EventRow>> {
    if msgs == [] then Some(t)
    else
      var before, m := EventTable(t, msgs[..|msgs| - 1]), msgs[|msgs| - 1];
      if before == None || !m.Record? || !m.value.EventValue? then before
      else
        var row := EventRow(m.value.event, m.tp.1, m.offset);
        if EventAllowed(before.value, row) then Some(Upsert(before.value, EventKey(row), row, KeepFirst)) else None
  }

  function SessionTable(t: map<string, Session>, msgs: seq<Message>): Option<map<string, Session>> {
    if msgs == [] then Some(t)
    else
      var before, m := SessionTable(t, msgs[..|msgs| - 1]), msgs[|msgs| - 1];
      if before == None || !m.Record? || !m.value.SessionValue? then before
      else if SessionAllowed(m.value.session)
      then Some(Upsert(before.value, m.value.session.rideId, m.value.session, KeepRicher)) else None
  }

  function PaymentTable(t: map<string, Payment>, msgs: seq<Message>): map<string, Payment> {
    if msgs == [] then t
    else
      var before, m := PaymentTable(t, msgs[..|msgs| - 1]), msgs[|msgs| - 1];
      if m.Record? && m.value.PaymentValue? then
        Upsert(before, m.value.payment.txnId, m.value.payment, KeepFirst)
      else before
  }

  function LocationTable(t: map<(string, int), Location>, msgs: seq<Message>): map<(string, int), Location> {
    if msgs == [] then t
    else
      var before, m := LocationTable(t, msgs[..|msgs| - 1]), msgs[|msgs| - 1];
      if m.Record? && m.value.LocationValue? then Upsert(before, LocationKey(m.value.location), m.value.location,
                                                         KeepFirst)
      else before
  }

  function OffsetTable(t: map<TopicPartition, nat>, msgs: seq<Message>): map<TopicPartition, nat> {
    if msgs == [] then t
    else
      var before, m := OffsetTable(t, msgs[..|msgs| - 1]), msgs[|msgs| - 1];
      if m.Record? then Advance(before, m.tp, m.offset) else before
  }

  /** Writing a batch topic by topic is writing it message by message. */
  lemma {:induction false} TopicByTopic(db: Database, msgs: seq<Message>)
    requires Failed !in msgs
    ensures var e, s := EventTable(db.events, msgs), SessionTable(db.sessions, msgs);
            ApplyAll(db, msgs) ==
            if e == None || s == None then None
            else Some(Database(e.value, s.value, PaymentTable(db.payments, msgs), LocationTable(db.locations, msgs),
                               OffsetTable(db.offsets, msgs)))
  {
    if msgs != [] {
      var front, m := msgs[..|msgs| - 1], msgs[|msgs| - 1];
      assert msgs == front + [m];
      TopicByTopic(db, front);
    }
  }

  lemma {:induction false} HighestThenGreatest(stored: map<TopicPartition, nat>, msgs: seq<Message>)
    ensures var highest := OffsetTable(map[], msgs);
            OffsetTable(stored, msgs) ==
            map tp | tp in stored.Keys + highest.Keys ::
              if tp !in highest then stored[tp] else if tp !in stored then highest[tp] else Max(highest[tp], stored[tp])
  {
    if msgs != [] {
      HighestThenGreatest(stored, msgs[..|msgs| - 1]);
    }
  }
}
