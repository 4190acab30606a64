// The Iceberg sink (src/sinks/iceberg_sink.py): append, then commit, so that a
// crash in between repeats rows but never loses one.
module Lakehouse {

  import opened Wrappers
  import opened SessionFold
  import opened Broker

  type Log = map<nat, seq<Payload>>

  /** A deserialized event with the coordinates of its record, which the sink does
      not write but the guarantees are about. */
  datatype Entry = Entry(partition: nat, offset: nat, event: RideEvent)

  datatype Message = Failed | Record(partition: nat, offset: nat, payload: Payload)

  /** Evolve once, on the first sight of a version 2 payload. */
  predicate ShouldEvolve(buffer: seq<Entry>, hasPromo: bool) {
    !hasPromo && exists i :: 0 <= i < |buffer| && buffer[i].event.payloadVersion >= 2
  }

  function Shaped(e: Entry, withPromo: bool): Entry {
    if withPromo then e else e.(event := e.event.(promoCode := None))
  }

  function ToArrow(buffer: seq<Entry>, withPromo: bool): seq<Entry> {
    seq(|buffer|, i requires 0 <= i < |buffer| => Shaped(buffer[i], withPromo))
  }

  /** Appended by the messages, in order; poison is diverted. */
  function Ingested(buffer: seq<Entry>, msgs: seq<Message>): seq<Entry> {
    if msgs == [] then buffer
    else
      var before, m := Ingested(buffer, msgs[..|msgs| - 1]), msgs[|msgs| - 1];
      if m.Record? && m.payload.Good? then before + [Entry(m.partition, m.offset, m.payload.event)] else before
  }

  class Table {
    var rows: seq<Entry>
    var promoColumn: bool

    constructor ()
      ensures rows == [] && !promoColumn
    {
      rows, promoColumn := [], false;
    }
  }

  class Consumer {
    var position: map<nat, nat>
    var committed: map<nat, nat>

    constructor ()
      ensures position == map[] && committed == map[]
    {
      position, committed := map[], map[];
    }

    /** Commits the position of every assigned partition. */
    method Commit(applied: bool, raises: bool) returns (ok: bool)
      modifies this`committed
      ensures ok <==> applied && !raises
      ensures committed == if applied then old(committed) + position else old(committed)
    {
      if applied {
        committed := committed + position;
      }
      ok := applied && !raises;
    }
  }

  /** How a flush ends: it returns, or the process dies before the append, between
      append and commit, or on a commit that was applied all the same. */
  datatype End = Returns | DiesBefore | DiesBetween | DiesAfter

  /** What outlives the process: the table, its schema, the committed offsets. */
  datatype Durable = Durable(rows: seq<Entry>, promoColumn: bool, committed: map<nat, nat>)

  /** A flush of a buffer that is not empty, up to the point where it ends. */
  function Flushed(d: Durable, position: map<nat, nat>, buffer: seq<Entry>, end: End): Durable {
    var column := d.promoColumn || ShouldEvolve(buffer, d.promoColumn);
    Durable(
      if end == DiesBefore then d.rows else d.rows + ToArrow(buffer, column),
      column,
      if end == Returns || end == DiesAfter then d.committed + position else d.committed)
  }

  class IcebergSink {
    const table: Table
    const consumer: Consumer
    var buffer: seq<Entry>
    var hasPromo: bool
    var rowsAppended: nat
    var poisonSeen: nat
    var evolutions: nat

    ghost predicate Valid()
      reads this, table
    {
      hasPromo == table.promoColumn && (evolutions == 1 ==> hasPromo) && evolutions <= 1
    }

    constructor (table: Table, consumer: Consumer)
      ensures Valid() && this.table == table && this.consumer == consumer && buffer == []
    {
      this.table, this.consumer, hasPromo := table, consumer, table.promoColumn;
      buffer, rowsAppended, poisonSeen, evolutions := [], 0, 0, 0;
    }

    function View(): Durable
      reads table, consumer
    {
      Durable(table.rows, table.promoColumn, consumer.committed)
    }

    method Ingest(msgs: seq<Message>) returns (ok: bool)
      requires Valid()
      modifies this`buffer, this`poisonSeen
      ensures Valid() && (ok <==> Failed !in msgs)
      ensures ok ==> buffer == Ingested(old(buffer), msgs)
      ensures ok ==> poisonSeen + |buffer| == old(poisonSeen) + |old(buffer)| + |msgs|
    {
      for i := 0 to |msgs|
        invariant Valid() && Failed !in msgs[..i]
        invariant buffer == Ingested(old(buffer), msgs[..i])
        invariant poisonSeen + |buffer| == old(poisonSeen) + |old(buffer)| + i
      {
        assert msgs[..i + 1][..i] == msgs[..i];
        if msgs[i] == Failed {
          return false;
        }
        if msgs[i].payload.Poison? {
          poisonSeen := poisonSeen + 1;
          continue;
        }
        buffer := buffer + [Entry(msgs[i].partition, msgs[i].offset, msgs[i].payload.event)];
      }
      assert msgs[..|msgs|] == msgs;
      ok := true;
    }

    /** Rows first, offsets after; `end` says where the process dies, if it does. */
    method Flush(end: End) returns (ok: bool)
      requires Valid()
      modifies this, table, consumer`committed
      ensures Valid()
      ensures old(buffer) == [] ==> ok && View() == old(View())
      ensures old(buffer) != [] ==>
                (ok <==> end == Returns) && View() == Flushed(old(View()), consumer.position, old(buffer), end)
      ensures ok ==> buffer == []
      ensures table.promoColumn <==>
              old(table.promoColumn) || exists e :: e in old(buffer) && e.event.payloadVersion >= 2
      ensures forall e :: e in old(buffer) && e.event.payloadVersion >= 2 && end != DiesBefore ==> e in table.rows
    {
      if buffer == [] {
        return true;
      }
      ghost var pending := buffer;
      if ShouldEvolve(buffer, hasPromo) {
        table.promoColumn := true;
        hasPromo := true;
        evolutions := evolutions + 1;
      }
      if end == DiesBefore {
        return false;
      }
      var batch := ToArrow(buffer, hasPromo);
      VersionTwoIsKept(buffer, hasPromo);
      table.rows := table.rows + batch;
      if end == DiesBetween {
        return false;
      }
      ok := consumer.Commit(true, end == DiesAfter);
      if !ok {
        return;
      }
      rowsAppended := rowsAppended + |batch|;
      buffer := [];
    }
  }

  /** A version 2 event is never written without its promo code. */
  lemma VersionTwoIsKept(buffer: seq<Entry>, withPromo: bool)
    requires !ShouldEvolve(buffer, withPromo)
    ensures forall e :: e in buffer && e.event.payloadVersion >= 2 ==> e in ToArrow(buffer, withPromo)
  {
    forall e | e in buffer && e.event.payloadVersion >= 2 ensures e in ToArrow(buffer, withPromo) {
      var i :| 0 <= i < |buffer| && buffer[i] == e;
      assert ToArrow(buffer, withPromo)[i] == e;
    }
  }
}
