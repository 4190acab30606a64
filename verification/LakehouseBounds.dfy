// How often a lakehouse row can repeat: what the bound counts, that it is reached,
// and that repeats do not need a crash.
module LakehouseBounds {

  import opened Wrappers
  import opened SessionFold
  import opened Broker
  import opened Lakehouse
  import opened LakehouseProtocol

  // ------------------------------------------------- what the bound counts

  /** An append that the process did not live to commit. */
  predicate Torn(w: Lake, s: Step) {
    s == Flush(DiesBetween) && w.buffer != []
  }

  /** An assignment made while events are buffered: they will be read again. */
  predicate Rereads(w: Lake, s: Step) {
    s.Assign? && w.buffer != []
  }

  function Torns(ws: seq<Lake>, steps: seq<Step>, n: nat): nat
    requires n <= |steps| && |ws| == |steps| + 1
  {
    if n == 0 then 0 else Torns(ws, steps, n - 1) + if Torn(ws[n - 1], steps[n - 1]) then 1 else 0
  }

  function Rereadings(ws: seq<Lake>, steps: seq<Step>, n: nat): nat
    requires n <= |steps| && |ws| == |steps| + 1
  {
    if n == 0 then 0 else Rereadings(ws, steps, n - 1) + if Rereads(ws[n - 1], steps[n - 1]) then 1 else 0
  }

  lemma StepCounts(w: Lake, s: Step)
    requires Enabled(w, s)
    ensures Take(w, s).redos == w.redos + (if Torn(w, s) then 1 else 0) + (if Rereads(w, s) then 1 else 0)
  {
  }

  lemma {:induction false} RedosAreCounted(ws: seq<Lake>, steps: seq<Step>, n: nat)
    requires Run(ws, steps) && ws[0] == EMPTY_LAKE && n <= |steps|
    ensures ws[n].redos == Torns(ws, steps, n) + Rereadings(ws, steps, n)
  {
    if n > 0 {
      hide Take;
      RedosAreCounted(ws, steps, n - 1);
      StepCounts(ws[n - 1], steps[n - 1]);
      assert ws[n - 1 + 1] == Take(ws[n - 1], steps[n - 1]);
    }
  }

  /** The bound in terms of the run: one, and one more for every torn flush and for
      every assignment on a buffer that was not empty. */
  lemma CopiesInRun(ws: seq<Lake>, steps: seq<Step>, n: nat, p: nat, i: nat)
    requires Run(ws, steps) && ws[0] == EMPTY_LAKE && n <= |steps|
    ensures Copies(ws[n].table, p, i) <= 1 + Torns(ws, steps, n) + Rereadings(ws, steps, n)
  {
    RunKeeps(ws, steps, n);
    assert CountOk(ws[n], p, i);
    RedosAreCounted(ws, steps, n);
  }

  lemma {:induction false} NoRereadings(ws: seq<Lake>, steps: seq<Step>, n: nat)
    requires n <= |steps| && |ws| == |steps| + 1
    requires forall k :: 0 <= k < n ==> !Rereads(ws[k], steps[k])
    ensures Rereadings(ws, steps, n) == 0
  {
    if n > 0 {
      NoRereadings(ws, steps, n - 1);
    }
  }

  /** When partitions are only assigned to an empty buffer, as at startup, the copies
      are at most one plus the processes that died between append and commit. */
  lemma CrashesBoundCopies(ws: seq<Lake>, steps: seq<Step>, n: nat, p: nat, i: nat)
    requires Run(ws, steps) && ws[0] == EMPTY_LAKE && n <= |steps|
    requires forall k :: 0 <= k < n ==> !Rereads(ws[k], steps[k])
    ensures Copies(ws[n].table, p, i) <= 1 + Torns(ws, steps, n)
  {
    CopiesInRun(ws, steps, n, p, i);
    NoRereadings(ws, steps, n);
  }

  // ------------------------------------------------------ the bound is reached

  /** Steps in which no process dies. */
  predicate Calm(s: Step) {
    s != Crash && (s.Flush? ==> s.end == Returns)
  }

  /** Reached without a death (`calm`), or without reading anything buffered again. */
  ghost predicate ReachedBy(calm: bool, w: Lake) {
    exists ws, steps :: RunBy(calm, ws, steps) && ws[0] == EMPTY_LAKE && ws[|ws| - 1] == w
  }

  ghost predicate RunBy(calm: bool, ws: seq<Lake>, steps: seq<Step>) {
    && Run(ws, steps)
    && forall k :: 0 <= k < |steps| ==> if calm then Calm(steps[k]) else !Rereads(ws[k], steps[k])
  }

  lemma StartReached(calm: bool)
    ensures ReachedBy(calm, EMPTY_LAKE)
  {
    assert RunBy(calm, [EMPTY_LAKE], []);
  }

  lemma OneMoreStep(calm: bool, w: Lake, s: Step)
    requires ReachedBy(calm, w) && Enabled(w, s)
    requires if calm then Calm(s) else !Rereads(w, s)
    ensures ReachedBy(calm, Take(w, s))
  {
    hide Take, Enabled, Rereads;
    var ws, steps :| RunBy(calm, ws, steps) && ws[0] == EMPTY_LAKE && ws[|ws| - 1] == w;
    var ws', steps' := ws + [Take(w, s)], steps + [s];
    forall i | 0 <= i < |steps'| ensures Enabled(ws'[i], steps'[i]) && ws'[i + 1] == Take(ws'[i], steps'[i]) {
      if i < |steps| { assert ws[i + 1] == Take(ws[i], steps[i]); }
    }
    assert RunBy(calm, ws', steps');
    assert ws'[|ws'| - 1] == Take(w, s);
  }

  function Row(e: RideEvent): Entry {
    Entry(0, 0, e.(promoCode := None))
  }

  function Rows(e: RideEvent, k: nat): seq<Entry> {
    if k == 0 then [] else Rows(e, k - 1) + [Row(e)]
  }

  lemma {:induction false} RowsAreCopies(e: RideEvent, k: nat)
    ensures |Rows(e, k)| == k && Copies(Rows(e, k), 0, 0) == k
    ensures forall x :: x in Rows(e, k) ==> x == Row(e)
  {
    if k > 0 {
      RowsAreCopies(e, k - 1);
      assert Rows(e, k)[..k - 1] == Rows(e, k - 1);
    }
  }

  /** A version 1 event, so that nothing evolves. */
  predicate Plainest(e: RideEvent) {
    e.payloadVersion < 2 && e.promoCode == None
  }

  /** One event is logged; `rows` are in the table, `waiting` copies in the buffer. */
  ghost function LakeOf(e: RideEvent, rows: nat, pos: map<nat, nat>, waiting: nat, redos: nat): Lake {
    Lake(map[0 := [Good(e)]], Rows(e, rows), false, map[], pos, Rows(e, waiting), redos)
  }

  lemma FirstEventLogged(calm: bool, e: RideEvent)
    requires Plainest(e)
    ensures ReachedBy(calm, LakeOf(e, 0, map[], 0, 0))
  {
    StartReached(calm);
    OneMoreStep(calm, EMPTY_LAKE, Produce(0, Good(e)));
    assert Part(EMPTY_LAKE.log, 0) + [Good(e)] == [Good(e)];
    assert map[][0 := [Good(e)]] == map[0 := [Good(e)]];
  }

  /** The partition is assigned and its event read (again). */
  lemma ReadAgain(calm: bool, e: RideEvent, rows: nat, pos: map<nat, nat>, waiting: nat, redos: nat)
    requires Plainest(e) && ReachedBy(calm, LakeOf(e, rows, pos, waiting, redos))
    requires !calm ==> waiting == 0
    ensures ReachedBy(calm, LakeOf(e, rows, map[0 := 1], waiting + 1, redos + if waiting == 0 then 0 else 1))
  {
    var w := LakeOf(e, rows, pos, waiting, redos);
    RowsAreCopies(e, waiting);
    OneMoreStep(calm, w, Assign({0}));
    var mid := Take(w, Assign({0}));
    assert mid.pos == map[0 := 0];
    OneMoreStep(calm, mid, Ingest(0));
    IngestOne(mid.buffer, 0, 0, Good(e));
    assert Row(e) == Entry(0, 0, e);
    assert Take(mid, Ingest(0)).pos == map[0 := 1];
  }

  lemma NothingEvolves(e: RideEvent, k: nat)
    requires Plainest(e)
    ensures !ShouldEvolve(Rows(e, k), false) && ToArrow(Rows(e, k), false) == Rows(e, k)
  {
    RowsAreCopies(e, k);
    forall i | 0 <= i < k ensures Rows(e, k)[i] == Row(e) { assert Rows(e, k)[i] in Rows(e, k); }
  }

  /** Repeats need no crash, and the bound is reached: for every n there is a lake,
      reached without any process dying, with n interruptions and n + 1 copies. */
  lemma ReassignmentsRepeatRows(e: RideEvent, n: nat) returns (w: Lake)
    requires Plainest(e)
    ensures ReachedBy(true, w) && w.redos == n && Copies(w.table, 0, 0) == n + 1
  {
    hide ReachedBy, Copies, ToArrow, ShouldEvolve;
    BufferFills(e, n);
    var full := LakeOf(e, 0, map[0 := 1], n + 1, n);
    OneMoreStep(true, full, Flush(Returns));
    w := Take(full, Flush(Returns));
    AllRowsFlushed(e, n + 1);
  }

  lemma AllRowsFlushed(e: RideEvent, k: nat)
    requires Plainest(e)
    ensures Rows(e, 0) + ToArrow(Rows(e, k), false) == Rows(e, k)
    ensures !ShouldEvolve(Rows(e, k), false) && |Rows(e, k)| == Copies(Rows(e, k), 0, 0) == k
  {
    assert Rows(e, 0) == [];
    NothingEvolves(e, k);
    RowsAreCopies(e, k);
  }

  lemma {:induction false} BufferFills(e: RideEvent, n: nat)
    requires Plainest(e)
    ensures ReachedBy(true, LakeOf(e, 0, map[0 := 1], n + 1, n))
  {
    if n == 0 {
      FirstEventLogged(true, e);
      ReadAgain(true, e, 0, map[], 0, 0);
    } else {
      BufferFills(e, n - 1);
      ReadAgain(true, e, 0, map[0 := 1], n, n - 1);
    }
  }

  /** The crash bound is reached as well: n processes die between append and commit,
      no buffered event is read again, and there are n + 1 copies. */
  lemma CrashesRepeatRows(e: RideEvent, n: nat) returns (w: Lake)
    requires Plainest(e)
    ensures ReachedBy(false, w) && w.redos == n && Copies(w.table, 0, 0) == n + 1
  {
    hide ReachedBy, Take;
    TableFills(e, n);
    ReadAgain(false, e, n, map[], 0, n);
    w := FlushOne(e, n, Returns);
  }

  lemma {:induction false} TableFills(e: RideEvent, n: nat)
    requires Plainest(e)
    ensures ReachedBy(false, LakeOf(e, n, map[], 0, n))
  {
    hide ReachedBy, Take;
    if n == 0 {
      FirstEventLogged(false, e);
    } else {
      TableFills(e, n - 1);
      ReadAgain(false, e, n - 1, map[], 0, n - 1);
      var _ := FlushOne(e, n - 1, DiesBetween);
    }
  }

  lemma FlushOne(e: RideEvent, rows: nat, end: End) returns (w: Lake)
    requires Plainest(e) && ReachedBy(false, LakeOf(e, rows, map[0 := 1], 1, rows))
    requires end == Returns || end == DiesBetween
    ensures ReachedBy(false, w) && w.table == Rows(e, rows + 1) && Copies(w.table, 0, 0) == rows + 1
    ensures end == Returns ==> w.redos == rows
    ensures end == DiesBetween ==> w == LakeOf(e, rows + 1, map[], 0, rows + 1)
  {
    hide ReachedBy, Copies, ToArrow, ShouldEvolve;
    var full := LakeOf(e, rows, map[0 := 1], 1, rows);
    OneMoreStep(false, full, Flush(end));
    w := Take(full, Flush(end));
    OneRowFlushed(e, rows);
  }

  lemma OneRowFlushed(e: RideEvent, n: nat)
    requires Plainest(e)
    ensures Rows(e, 1) == [Row(e)] && Rows(e, n) + ToArrow(Rows(e, 1), false) == Rows(e, n + 1)
    ensures !ShouldEvolve(Rows(e, 1), false) && Copies(Rows(e, n + 1), 0, 0) == n + 1
  {
    assert Rows(e, 0) == [];
    NothingEvolves(e, 1);
    RowsAreCopies(e, n + 1);
  }
}
