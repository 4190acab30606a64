// The offset-tagged SQLite store (src/processors/state_store.py): the second
// commit domain of the sessionizer. `Store` is its content as a value; the class
// is the store object, each of whose writes is one committed SQLite transaction.
module StateStore {

  import opened Wrappers
  import opened SessionFold

  datatype JournalRow = JournalRow(partition: nat, offset: nat, rideId: string, value: RideEvent)

  datatype CloseRow = CloseRow(rideId: string, partition: nat, offset: nat, session: Session)

  type Journal = map<(nat, nat), JournalRow>
  type Closes = map<string, CloseRow>

  /** Both tables under their primary keys. */
  datatype Store = Store(journal: Journal, closes: Closes)

  const EMPTY_STORE := Store(map[], map[])

  // ---------------------------------------------------- what the writes mean

  /** INSERT OR IGNORE, row by row. */
  function InsertIgnore(j: Journal, rows: seq<JournalRow>): Journal {
    if rows == [] then j
    else
      var front, row := InsertIgnore(j, rows[..|rows| - 1]), rows[|rows| - 1];
      if (row.partition, row.offset) in front then front else front[(row.partition, row.offset) := row]
  }

  /** INSERT OR REPLACE, row by row. */
  function InsertReplace(c: Closes, rows: seq<CloseRow>): Closes {
    if rows == [] then c
    else InsertReplace(c, rows[..|rows| - 1])[rows[|rows| - 1].rideId := rows[|rows| - 1]]
  }

  function Append(s: Store, rows: seq<JournalRow>, closes: seq<CloseRow>): Store {
    Store(InsertIgnore(s.journal, rows), InsertReplace(s.closes, closes))
  }

  function Rollback(s: Store, p: nat, resume: nat): Store {
    Store(map k | k in s.journal && !(k.0 == p && k.1 >= resume) :: s.journal[k],
          map r | r in s.closes && !(s.closes[r].partition == p && s.closes[r].offset >= resume) :: s.closes[r])
  }

  /** A close tagged strictly below the position its partition resumes from. */
  predicate ConfirmedBelow(c: Closes, p: nat, below: nat, r: string) {
    r in c && c[r].partition == p && c[r].offset < below
  }

  function Purge(s: Store, p: nat, below: nat): Store {
    s.(journal := map k | k in s.journal && !ConfirmedBelow(s.closes, p, below, s.journal[k].rideId) :: s.journal[k])
  }

  // ----------------------------------------------------- what the reads mean

  /** The journalled events of ride `r` on `p` at offsets below `n`, in offset order. */
  function RideRows(j: Journal, p: nat, r: string, n: nat): seq<RideEvent> {
    if n == 0 then []
    else RideRows(j, p, r, n - 1) +
         (if (p, n - 1) in j && j[(p, n - 1)].rideId == r then [j[(p, n - 1)].value] else [])
  }

  ghost predicate OffsetsBelow(j: Journal, p: nat, n: nat) {
    forall k :: k in j && k.0 == p ==> k.1 < n
  }

  ghost predicate IsOpen(s: Store, p: nat, r: string) {
    r !in s.closes && exists k :: k in s.journal && k.0 == p && s.journal[k].rideId == r
  }

  /** `open` maps every open ride of `p` to its events in offset order, and nothing else. */
  ghost predicate OpenRidesOf(s: Store, p: nat, open: map<string, seq<RideEvent>>) {
    && (forall r :: r in open <==> IsOpen(s, p, r))
    && (forall r, n: nat :: r in open && OffsetsBelow(s.journal, p, n) ==> open[r] == RideRows(s.journal, p, r, n))
  }

  /** `top` is the highest event time journalled on `p`, None when nothing is. */
  ghost predicate IsMaxTs(j: Journal, p: nat, top: Option<int>) {
    && (forall k :: k in j && k.0 == p ==> top != None && j[k].value.ts <= top.value)
    && (top != None ==> exists k :: k in j && k.0 == p && j[k].value.ts == top.value)
  }

  ghost function OffsetBound(j: Journal, p: nat): (n: nat)
    ensures OffsetsBelow(j, p, n)
  {
    OffsetBoundExists(j, p);
    var n: nat :| OffsetsBelow(j, p, n);
    n
  }

  /** The fold input for recovery: each open ride's events in offset order. */
  ghost function OpenRideMap(s: Store, p: nat): (open: map<string, seq<RideEvent>>)
    ensures OpenRidesOf(s, p, open)
  {
    OpenRideMapIsOpen(s, p);
    map r | r in OpenIds(s, p) :: RideRows(s.journal, p, r, OffsetBound(s.journal, p))
  }

  ghost function OpenIds(s: Store, p: nat): set<string> {
    set k | k in s.journal && k.0 == p && s.journal[k].rideId !in s.closes :: s.journal[k].rideId
  }

  /** The highest event time journalled on `p`. */
  ghost function MaxTs(j: Journal, p: nat): (top: Option<int>)
    ensures IsMaxTs(j, p, top)
  {
    MaxTsExists(j, p);
    var top :| IsMaxTs(j, p, top);
    top
  }

  // ------------------------------------------------------------- the object

  class StateStore {
    var journal: Journal
    var closes: Closes

    constructor ()
      ensures View() == EMPTY_STORE
    {
      journal, closes := map[], map[];
    }

    function View(): Store
      reads this
    {
      Store(journal, closes)
    }

    method AppendBatch(rows: seq<JournalRow>, closeRows: seq<CloseRow>)
      modifies this
      ensures View() == Append(old(View()), rows, closeRows)
    {
      var j, c := journal, closes;
      for i := 0 to |rows|
        invariant j == InsertIgnore(old(journal), rows[..i])
      {
        var row := rows[i];
        assert rows[..i + 1][..i] == rows[..i];
        if (row.partition, row.offset) !in j {
          j := j[(row.partition, row.offset) := row];
        }
      }
      for i := 0 to |closeRows|
        invariant c == InsertReplace(old(closes), closeRows[..i])
      {
        assert closeRows[..i + 1][..i] == closeRows[..i];
        c := c[closeRows[i].rideId := closeRows[i]];
      }
      assert rows[..|rows|] == rows && closeRows[..|closeRows|] == closeRows;
      journal, closes := j, c;
    }

    method RollbackFrom(p: nat, resume: nat) returns (rolledJournal: int, rolledCloses: int)
      modifies this
      ensures View() == Rollback(old(View()), p, resume)
      ensures forall k :: k in journal <==> k in old(journal) && (k.0 != p || k.1 < resume)
      ensures forall r :: r in closes <==>
                r in old(closes) && (old(closes)[r].partition != p || old(closes)[r].offset < resume)
      ensures rolledJournal == |old(journal)| - |journal| && rolledCloses == |old(closes)| - |closes|
    {
      var j := map k | k in journal && !(k.0 == p && k.1 >= resume) :: journal[k];
      var c := map r | r in closes && !(closes[r].partition == p && closes[r].offset >= resume) :: closes[r];
      rolledJournal, rolledCloses := |journal| - |j|, |closes| - |c|;
      journal, closes := j, c;
    }

    method PurgeConfirmed(p: nat, below: nat) returns (count: int)
      modifies this
      ensures View() == Purge(old(View()), p, below)
      ensures closes == old(closes)
      ensures forall k :: k in journal <==>
                && k in old(journal)
                && var r := old(journal)[k].rideId;
                   !(r in closes && closes[r].partition == p && closes[r].offset < below)
      ensures forall k :: k in journal ==> journal[k] == old(journal)[k]
      ensures count == |old(journal)| - |journal|
    {
      var j := map k | k in journal && !ConfirmedBelow(closes, p, below, journal[k].rideId) :: journal[k];
      count := |journal| - |j|;
      journal := j;
    }

    predicate IsClosed(r: string)
      reads this
    {
      r in closes
    }

    /** The rows are read in offset order and grouped by ride. */
    method OpenRides(p: nat) returns (open: map<string, seq<RideEvent>>)
      ensures open == OpenRideMap(View(), p)
    {
      open := map[];
      var todo: set<(nat, nat)> := set k | k in journal && k.0 == p && journal[k].rideId !in closes;
      ghost var next: nat := 0;
      while todo != {}
        invariant todo == OpenKeysFrom(View(), p, next)
        invariant Grouped(View(), p, next, open)
        decreases todo
      {
        LeastOffset(todo);
        var k :| k in todo && forall m :: m in todo ==> k.1 <= m.1;
        GroupSkip(View(), p, next, k.1, open);
        GroupAdd(View(), p, k.1, open);
        assert k == (p, k.1);
        var r := journal[k].rideId;
        open := open[r := (if r in open then open[r] else []) + [journal[k].value]];
        todo, next := todo - {k}, k.1 + 1;
      }
      GroupDone(View(), p, next, open);
      OpenRidesUnique(View(), p, open, OpenRideMap(View(), p));
    }

    method MaxJournalTs(p: nat) returns (top: Option<int>)
      ensures top == MaxTs(journal, p)
    {
      top := None;
      var todo := set k | k in journal && k.0 == p;
      while todo != {}
        invariant todo <= set k | k in journal && k.0 == p
        invariant forall k :: k in journal && k.0 == p && k !in todo ==> top != None && journal[k].value.ts <= top.value
        invariant top != None ==> exists k :: k in journal && k.0 == p && journal[k].value.ts == top.value
        decreases todo
      {
        var k :| k in todo;
        if top == None || top.value < journal[k].value.ts {
          top := Some(journal[k].value.ts);
        }
        todo := todo - {k};
      }
    }
  }

  // -------------------------------------------------------------- the proofs

  lemma OffsetBoundExists(j: Journal, p: nat)
    ensures exists n: nat :: OffsetsBelow(j, p, n)
  {
    if j != map[] {
      var k :| k in j;
      var rest := map m | m in j && m != k :: j[m];
      assert |rest.Keys| < |j.Keys| by { assert rest.Keys == j.Keys - {k}; }
      OffsetBoundExists(rest, p);
      var n: nat :| OffsetsBelow(rest, p, n);
      assert OffsetsBelow(j, p, Max(n, k.1 + 1));
    } else {
      assert OffsetsBelow(j, p, 0);
    }
  }

  lemma OpenRideMapIsOpen(s: Store, p: nat)
    ensures OpenRidesOf(s, p, map r | r in OpenIds(s, p) :: RideRows(s.journal, p, r, OffsetBound(s.journal, p)))
  {
    var bound := OffsetBound(s.journal, p);
    var open := map r | r in OpenIds(s, p) :: RideRows(s.journal, p, r, bound);
    forall r, n: nat | r in open && OffsetsBelow(s.journal, p, n) ensures open[r] == RideRows(s.journal, p, r, n) {
      if n <= bound { NoRowsBetween(s.journal, p, r, n, bound); } else { NoRowsBetween(s.journal, p, r, bound, n); }
    }
  }

  lemma OpenRidesUnique(s: Store, p: nat, a: map<string, seq<RideEvent>>, b: map<string, seq<RideEvent>>)
    requires OpenRidesOf(s, p, a) && OpenRidesOf(s, p, b)
    ensures a == b
  {
    var bound := OffsetBound(s.journal, p);
    assert forall r :: r in a <==> r in b;
    assert forall r :: r in a ==> a[r] == RideRows(s.journal, p, r, bound) == b[r];
  }

  lemma MaxTsExists(j: Journal, p: nat)
    ensures exists top :: IsMaxTs(j, p, top)
  {
    if j == map[] {
      assert IsMaxTs(j, p, None);
    } else {
      var k :| k in j;
      var rest := map m | m in j && m != k :: j[m];
      assert |rest.Keys| < |j.Keys| by { assert rest.Keys == j.Keys - {k}; }
      MaxTsExists(rest, p);
      var top :| IsMaxTs(rest, p, top);
      assert forall m :: m in j && m != k ==> m in rest && rest[m] == j[m];
      if k.0 != p || (top != None && j[k].value.ts <= top.value) {
        assert IsMaxTs(j, p, top);
      } else {
        assert IsMaxTs(j, p, Some(j[k].value.ts));
      }
    }
  }

  lemma LeastOffset(keys: set<(nat, nat)>)
    requires keys != {}
    ensures exists k :: k in keys && forall m :: m in keys ==> k.1 <= m.1
  {
    var k :| k in keys;
    if less :| less in keys && less.1 < k.1 {
      var below := set m | m in keys && m.1 < k.1;
      assert less in below && k !in below;
      LeastOffset(below);
    }
  }

  ghost function OpenKeysFrom(s: Store, p: nat, next: nat): set<(nat, nat)> {
    set k | k in s.journal && k.0 == p && k.1 >= next && s.journal[k].rideId !in s.closes
  }

  /** The rows of `p` below `next` are grouped, those at or beyond it are not. */
  ghost predicate Grouped(s: Store, p: nat, next: nat, open: map<string, seq<RideEvent>>) {
    forall r :: GroupedRide(s, p, next, open, r)
  }

  ghost predicate GroupedRide(s: Store, p: nat, next: nat, open: map<string, seq<RideEvent>>, r: string) {
    && (r in open <==> r !in s.closes && RideRows(s.journal, p, r, next) != [])
    && (r in open ==> open[r] == RideRows(s.journal, p, r, next))
  }

  lemma GroupSkip(s: Store, p: nat, lo: nat, hi: nat, open: map<string, seq<RideEvent>>)
    requires Grouped(s, p, lo, open) && lo <= hi
    requires forall k :: k in OpenKeysFrom(s, p, lo) ==> k.1 >= hi
    ensures Grouped(s, p, hi, open)
  {
    forall r ensures GroupedRide(s, p, hi, open, r) {
      assert GroupedRide(s, p, lo, open, r);
      if r !in s.closes {
        forall k | k in s.journal && k.0 == p && lo <= k.1 < hi ensures s.journal[k].rideId != r {
          assert k !in OpenKeysFrom(s, p, lo);
        }
        NoRowsBetween(s.journal, p, r, lo, hi);
      }
    }
  }

  lemma GroupAdd(s: Store, p: nat, at: nat, open: map<string, seq<RideEvent>>)
    requires Grouped(s, p, at, open)
    requires (p, at) in s.journal && s.journal[(p, at)].rideId !in s.closes
    ensures var row := s.journal[(p, at)];
            Grouped(s, p, at + 1,
                    open[row.rideId := (if row.rideId in open then open[row.rideId] else []) + [row.value]])
  {
    var row, n := s.journal[(p, at)], at + 1;
    var open' := open[row.rideId := (if row.rideId in open then open[row.rideId] else []) + [row.value]];
    forall r ensures GroupedRide(s, p, n, open', r) {
      assert GroupedRide(s, p, at, open, r);
    }
  }

  lemma GroupDone(s: Store, p: nat, next: nat, open: map<string, seq<RideEvent>>)
    requires Grouped(s, p, next, open) && OpenKeysFrom(s, p, next) == {}
    ensures OpenRidesOf(s, p, open)
  {
    forall r ensures r in open <==> IsOpen(s, p, r)
    {
      assert GroupedRide(s, p, next, open, r);
      if r !in s.closes && RideRows(s.journal, p, r, next) != [] {
        RideRowsWitness(s.journal, p, r, next);
      }
      if k :| r !in s.closes && k in s.journal && k.0 == p && s.journal[k].rideId == r {
        assert k !in OpenKeysFrom(s, p, next);
        RideRowsHas(s.journal, p, r, k.1, next);
      }
    }
    forall r, n: nat | r in open && OffsetsBelow(s.journal, p, n) ensures open[r] == RideRows(s.journal, p, r, n)
    {
      assert GroupedRide(s, p, next, open, r);
      if n <= next {
        NoRowsBetween(s.journal, p, r, n, next);
      } else {
        GroupSkip(s, p, next, n, open);
        assert GroupedRide(s, p, n, open, r);
      }
    }
  }

  lemma {:induction false} RideRowsWitness(j: Journal, p: nat, r: string, n: nat)
    requires RideRows(j, p, r, n) != []
    ensures exists k :: k in j && k.0 == p && k.1 < n && j[k].rideId == r
  {
    if (p, n - 1) in j && j[(p, n - 1)].rideId == r {
    } else {
      RideRowsWitness(j, p, r, n - 1);
    }
  }

  lemma {:induction false} RideRowsHas(j: Journal, p: nat, r: string, at: nat, n: nat)
    requires at < n && (p, at) in j && j[(p, at)].rideId == r
    ensures RideRows(j, p, r, n) != []
  {
    if at < n - 1 {
      RideRowsHas(j, p, r, at, n - 1);
    }
  }

  lemma {:induction false} NoRowsBetween(j: Journal, p: nat, r: string, lo: nat, hi: nat)
    requires lo <= hi
    requires forall k :: k in j && k.0 == p && lo <= k.1 < hi ==> j[k].rideId != r
    ensures RideRows(j, p, r, hi) == RideRows(j, p, r, lo)
  {
    if lo < hi {
      NoRowsBetween(j, p, r, lo, hi - 1);
    }
  }
}
