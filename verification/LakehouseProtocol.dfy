// The lakehouse over whole runs: every committed event is in the table, nothing
// else is, and repeats are bounded by the interruptions that cause them.
module LakehouseProtocol {

  import opened Wrappers
  import opened SessionFold
  import opened Broker
  import opened Lakehouse

  /** `redos` counts the interruptions that can repeat rows: appends that were not
      committed, and assignments made while events were buffered. */
  datatype Lake = Lake(
    log: Log,
    table: seq<Entry>,
    promoColumn: bool,
    committed: map<nat, nat>,
    pos: map<nat, nat>,
    buffer: seq<Entry>,
    redos: nat)

  const EMPTY_LAKE := Lake(map[], [], false, map[], map[], [], 0)

  datatype Step =
    | Produce(p: nat, payload: Payload)
    | Assign(ps: set<nat>)
    | Crash
    | Ingest(p: nat)
    | Flush(end: End)

  function Part(log: Log, p: nat): seq<Payload> {
    if p in log then log[p] else []
  }

  function Start(committed: map<nat, nat>, p: nat): nat {
    if p in committed then committed[p] else 0
  }

  predicate Enabled(w: Lake, s: Step) {
    match s
    case Ingest(p) => p in w.pos && w.pos[p] < |Part(w.log, p)|
    case _ => true
  }

  /** Ingesting takes one message at a time: a longer call is several steps. */
  ghost function Take(w: Lake, s: Step): Lake
    requires Enabled(w, s)
  {
    match s
    case Produce(p, x) => w.(log := w.log[p := Part(w.log, p) + [x]])
    case Assign(ps) => w.(pos := map p | p in ps :: Start(w.committed, p),
                          redos := w.redos + if w.buffer == [] then 0 else 1)
    case Crash => w.(pos := map[], buffer := [])
    case Ingest(p) =>
      w.(pos := w.pos[p := w.pos[p] + 1],
      buffer := Ingested(w.buffer, [Record(p, w.pos[p], Part(w.log, p)[w.pos[p]])]))
    case Flush(end) =>
      if w.buffer == [] then w
      else
        var d := Flushed(Durable(w.table, w.promoColumn, w.committed), w.pos, w.buffer, end);
        w.(table := d.rows, promoColumn := d.promoColumn, committed := d.committed, buffer := [],
        pos := if end == Returns then w.pos else map[],
        redos := w.redos + if end == DiesBetween then 1 else 0)
  }

  ghost predicate Run(ws: seq<Lake>, steps: seq<Step>) {
    && |ws| == |steps| + 1
    && (forall i :: 0 <= i < |steps| ==> Enabled(ws[i], steps[i]) && ws[i + 1] == Take(ws[i], steps[i]))
  }

  ghost predicate Reachable(w: Lake) {
    exists ws, steps :: Run(ws, steps) && ws[0] == EMPTY_LAKE && ws[|ws| - 1] == w
  }

  // ------------------------------------------------------------------- copies

  function Copies(es: seq<Entry>, p: nat, i: nat): nat {
    if es == [] then 0
    else
      var e := es[|es| - 1];
      Copies(es[..|es| - 1], p, i) + if e.partition == p && e.offset == i then 1 else 0
  }

  lemma {:induction false} CopiesConcat(a: seq<Entry>, b: seq<Entry>, p: nat, i: nat)
    ensures Copies(a + b, p, i) == Copies(a, p, i) + Copies(b, p, i)
  {
    if b == [] {
      assert a + b == a;
    } else {
      CopiesConcat(a, b[..|b| - 1], p, i);
      assert (a + b)[..|a + b| - 1] == a + b[..|b| - 1];
    }
  }

  lemma {:induction false} CopiesShaped(es: seq<Entry>, withPromo: bool, p: nat, i: nat)
    ensures Copies(ToArrow(es, withPromo), p, i) == Copies(es, p, i)
  {
    if es != [] {
      CopiesShaped(es[..|es| - 1], withPromo, p, i);
      assert ToArrow(es, withPromo)[..|es| - 1] == ToArrow(es[..|es| - 1], withPromo);
    }
  }

  // ---------------------------------------------------------------- invariant

  ghost predicate GoodAt(w: Lake, p: nat, i: nat) {
    i < |Part(w.log, p)| && Part(w.log, p)[i].Good?
  }

  /** Read but not yet committed. */
  ghost predicate InFlight(w: Lake, p: nat, i: nat) {
    p in w.pos && Start(w.committed, p) <= i < w.pos[p]
  }

  ghost predicate CountOk(w: Lake, p: nat, i: nat) {
    var inTable, waiting := Copies(w.table, p, i), Copies(w.buffer, p, i);
    if i < Start(w.committed, p) then
      (GoodAt(w, p, i) ==> inTable >= 1) && inTable + waiting <= w.redos + 1
    else if InFlight(w, p, i) then
      (GoodAt(w, p, i) ==> waiting >= 1) && inTable + waiting <= w.redos + 1
      && (!GoodAt(w, p, i) ==> inTable + waiting <= w.redos)
    else inTable + waiting <= w.redos
  }

  /** Every entry is the record it says it is; only an event of version 1 may lack its
      promo code. */
  ghost predicate EntryOk(log: Log, e: Entry) {
    && e.offset < |Part(log, e.partition)| && Part(log, e.partition)[e.offset].Good?
    && var x := Part(log, e.partition)[e.offset].event;
       e.event == x || (x.payloadVersion < 2 && e.event == x.(promoCode := None))
  }

  predicate Newer(log: Log, p: nat, i: nat) {
    i < |Part(log, p)| && Part(log, p)[i].Good? && Part(log, p)[i].event.payloadVersion >= 2
  }

  /** The promo column is there only when some event of version 2 was logged, and is
      there when the table holds one. */
  ghost predicate ColumnOk(w: Lake) {
    && (w.promoColumn ==> exists p: nat, i: nat :: Newer(w.log, p, i))
    && (forall e :: e in w.table && e.event.payloadVersion >= 2 ==> w.promoColumn)
  }

  ghost predicate PositionOk(w: Lake, p: nat) {
    && Start(w.committed, p) <= |Part(w.log, p)|
    && (p in w.pos ==> Start(w.committed, p) <= w.pos[p] <= |Part(w.log, p)|)
  }

  ghost predicate Inv(w: Lake) {
    && (forall p :: PositionOk(w, p))
    && (forall p, i :: CountOk(w, p, i))
    && (forall e :: e in w.table + w.buffer ==> EntryOk(w.log, e))
    && ColumnOk(w)
  }

  // ------------------------------------------------------------------- proofs

  lemma ProduceKeeps(w: Lake, p: nat, x: Payload)
    requires Inv(w)
    ensures Inv(Take(w, Produce(p, x)))
  {
    hide Copies;
    var w' := Take(w, Produce(p, x));
    forall q ensures PositionOk(w', q) { assert PositionOk(w, q); }
    forall q, i ensures CountOk(w', q, i) { assert CountOk(w, q, i) && PositionOk(w, q); }
    forall e | e in w'.table + w'.buffer ensures EntryOk(w'.log, e) { assert EntryOk(w.log, e); }
    if w.promoColumn {
      var q: nat, i: nat :| Newer(w.log, q, i);
      assert Newer(w'.log, q, i);
    }
  }

  lemma AssignKeeps(w: Lake, ps: set<nat>)
    requires Inv(w)
    ensures Inv(Take(w, Assign(ps)))
  {
    var w' := Take(w, Assign(ps));
    forall q ensures PositionOk(w', q) { assert PositionOk(w, q); }
    forall q, i ensures CountOk(w', q, i) { assert CountOk(w, q, i) && PositionOk(w, q); }
  }

  lemma CrashKeeps(w: Lake)
    requires Inv(w)
    ensures Inv(Take(w, Crash))
  {
    var w' := Take(w, Crash);
    forall q ensures PositionOk(w', q) { assert PositionOk(w, q); }
    forall q, i ensures CountOk(w', q, i) { assert CountOk(w, q, i) && PositionOk(w, q); }
  }

  lemma IngestOne(buffer: seq<Entry>, p: nat, n: nat, x: Payload)
    ensures Ingested(buffer, [Record(p, n, x)]) == buffer + if x.Good? then [Entry(p, n, x.event)] else []
  {
    assert [Record(p, n, x)][..0] == [];
    assert buffer + [] == buffer;
  }

  lemma IngestKeeps(w: Lake, p: nat)
    requires Inv(w) && Enabled(w, Ingest(p))
    ensures Inv(Take(w, Ingest(p)))
  {
    hide CountOk, Ingested;
    var w', n := Take(w, Ingest(p)), w.pos[p];
    IngestOne(w.buffer, p, n, Part(w.log, p)[n]);
    forall q ensures PositionOk(w', q) { assert PositionOk(w, q); }
    forall q, i ensures CountOk(w', q, i) { IngestCounts(w, p, q, i); }
  }

  lemma IngestCounts(w: Lake, p: nat, q: nat, i: nat)
    requires Enabled(w, Ingest(p)) && CountOk(w, q, i) && PositionOk(w, q)
    ensures CountOk(Take(w, Ingest(p)), q, i)
  {
    hide Ingested;
    var n, x := w.pos[p], Part(w.log, p)[w.pos[p]];
    var more := if x.Good? then [Entry(p, n, x.event)] else [];
    IngestOne(w.buffer, p, n, x);
    CopiesConcat(w.buffer, more, q, i);
    assert x.Good? ==> more[..0] == [];
    assert Copies(more, q, i) == if x.Good? && q == p && i == n then 1 else 0;
    hide Copies;
  }

  lemma FlushKeeps(w: Lake, end: End)
    requires Inv(w)
    ensures Inv(Take(w, Flush(end)))
  {
    if w.buffer != [] {
      hide ToArrow, CountOk, PositionOk, EntryOk;
      var w' := Take(w, Flush(end));
      forall q ensures PositionOk(w', q) { FlushMoves(w, end, q); }
      forall q, i ensures CountOk(w', q, i) { FlushCounts(w, end, q, i); }
      var column := w.promoColumn || ShouldEvolve(w.buffer, w.promoColumn);
      RowsAreEntries(w, column);
      FlushColumn(w, end);
    }
  }

  lemma FlushColumn(w: Lake, end: End)
    requires w.buffer != [] && ColumnOk(w) && forall e :: e in w.table + w.buffer ==> EntryOk(w.log, e)
    ensures ColumnOk(Take(w, Flush(end)))
  {
    var column := w.promoColumn || ShouldEvolve(w.buffer, w.promoColumn);
    var w', rows := Take(w, Flush(end)), ToArrow(w.buffer, column);
    if ShouldEvolve(w.buffer, w.promoColumn) {
      var i :| 0 <= i < |w.buffer| && w.buffer[i].event.payloadVersion >= 2;
      assert w.buffer[i] in w.table + w.buffer;
      assert Newer(w.log, w.buffer[i].partition, w.buffer[i].offset);
    }
    forall e | e in w'.table && e.event.payloadVersion >= 2 ensures w'.promoColumn {
      if e in w.table {
      } else {
        var j :| 0 <= j < |rows| && rows[j] == e;
        assert w.buffer[j].event.payloadVersion >= 2;
      }
    }
  }

  lemma FlushMoves(w: Lake, end: End, p: nat)
    requires w.buffer != [] && PositionOk(w, p)
    ensures PositionOk(Take(w, Flush(end)), p)
  {
  }

  lemma FlushCounts(w: Lake, end: End, p: nat, i: nat)
    requires w.buffer != [] && CountOk(w, p, i) && PositionOk(w, p)
    ensures CountOk(Take(w, Flush(end)), p, i)
  {
    FlushShows(w, end, p, i);
    hide Take, Copies, Start;
  }

  /** What a flush that had something to do leaves for record `i` of `p`. */
  lemma FlushShows(w: Lake, end: End, p: nat, i: nat)
    requires w.buffer != []
    ensures var w', commits := Take(w, Flush(end)), end == Returns || end == DiesAfter;
            && w'.log == w.log && w'.pos == (if end == Returns then w.pos else map[])
            && Copies(w'.table, p, i) ==
               Copies(w.table, p, i) + (if end == DiesBefore then 0 else Copies(w.buffer, p, i))
            && Copies(w'.buffer, p, i) == 0
            && Start(w'.committed, p) == (if commits && p in w.pos then w.pos[p] else Start(w.committed, p))
            && w'.redos == w.redos + if end == DiesBetween then 1 else 0
  {
    hide Copies, ToArrow, ShouldEvolve;
    var column := w.promoColumn || ShouldEvolve(w.buffer, w.promoColumn);
    CopiesConcat(w.table, ToArrow(w.buffer, column), p, i);
    CopiesShaped(w.buffer, column, p, i);
    NoCopies(p, i);
  }

  lemma NoCopies(p: nat, i: nat)
    ensures Copies([], p, i) == 0
  {
  }

  lemma RowsAreEntries(w: Lake, column: bool)
    requires !ShouldEvolve(w.buffer, column)
    requires forall e :: e in w.table + w.buffer ==> EntryOk(w.log, e)
    ensures forall e :: e in w.table + ToArrow(w.buffer, column) ==> EntryOk(w.log, e)
  {
    var rows := ToArrow(w.buffer, column);
    forall e | e in w.table + rows ensures EntryOk(w.log, e) {
      if e in rows {
        var j :| 0 <= j < |rows| && rows[j] == e;
        assert w.buffer[j] in w.table + w.buffer;
        assert EntryOk(w.log, w.buffer[j]);
      } else {
        assert e in w.table + w.buffer;
      }
    }
  }

  lemma StepKeeps(w: Lake, s: Step)
    requires Inv(w) && Enabled(w, s)
    ensures Inv(Take(w, s))
  {
    hide Inv, Take;
    match s
    case Produce(p, x) => ProduceKeeps(w, p, x);
    case Assign(ps) => AssignKeeps(w, ps);
    case Crash => CrashKeeps(w);
    case Ingest(p) => IngestKeeps(w, p);
    case Flush(end) => FlushKeeps(w, end);
  }

  lemma {:induction false} RunKeeps(ws: seq<Lake>, steps: seq<Step>, i: nat)
    requires Run(ws, steps) && i < |ws| && ws[0] == EMPTY_LAKE
    ensures Inv(ws[i])
  {
    hide Take;
    if i > 0 {
      RunKeeps(ws, steps, i - 1);
      StepKeeps(ws[i - 1], steps[i - 1]);
      assert ws[i - 1 + 1] == Take(ws[i - 1], steps[i - 1]);
    }
  }

  /** At least once, and nothing else: a decodable record below the committed
      offset is in the table, every row is a record of the log, and no record has
      more copies than one plus the interruptions. */
  lemma AtLeastOnce(w: Lake, p: nat, i: nat)
    requires Reachable(w)
    ensures i < Start(w.committed, p) && GoodAt(w, p, i) ==> Copies(w.table, p, i) >= 1
    ensures Copies(w.table, p, i) <= 1 + w.redos
    ensures forall e :: e in w.table ==> EntryOk(w.log, e)
    ensures ColumnOk(w)
  {
    var ws, steps :| Run(ws, steps) && ws[0] == EMPTY_LAKE && ws[|ws| - 1] == w;
    RunKeeps(ws, steps, |ws| - 1);
    assert CountOk(w, p, i);
    forall e | e in w.table ensures EntryOk(w.log, e) { assert e in w.table + w.buffer; }
  }

  ghost predicate IdInTable(w: Lake, id: string) {
    exists e :: e in w.table && e.event.eventId == id
  }

  ghost predicate IdLogged(w: Lake, id: string) {
    exists p: nat, i: nat :: IdAt(w, id, p, i)
  }

  ghost predicate IdAt(w: Lake, id: string, p: nat, i: nat) {
    GoodAt(w, p, i) && Part(w.log, p)[i].event.eventId == id
  }

  lemma {:induction false} CopyIsThere(es: seq<Entry>, p: nat, i: nat)
    requires Copies(es, p, i) >= 1
    ensures exists e :: e in es && e.partition == p && e.offset == i
  {
    var n := |es| - 1;
    if es[n].partition == p && es[n].offset == i {
      assert es[n] in es;
    } else {
      CopyIsThere(es[..n], p, i);
    }
  }

  /** Deduplicating on event_id is exact: once every decodable record is committed,
      the ids in the table are the ids in the log. Trailing poison need not be. */
  lemma DeduplicationIsExact(w: Lake, id: string)
    requires Reachable(w) && forall p: nat, i: nat :: GoodAt(w, p, i) ==> i < Start(w.committed, p)
    ensures IdInTable(w, id) <==> IdLogged(w, id)
  {
    AtLeastOnce(w, 0, 0);
    if e :| e in w.table && e.event.eventId == id {
      assert EntryOk(w.log, e);
      assert IdAt(w, id, e.partition, e.offset);
    }
    if p: nat, i: nat :| IdAt(w, id, p, i) {
      AtLeastOnce(w, p, i);
      CopyIsThere(w.table, p, i);
      var e :| e in w.table && e.partition == p && e.offset == i;
      assert EntryOk(w.log, e);
    }
  }
}
