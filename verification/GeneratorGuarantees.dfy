// What the generator promises for every draw, and what that gives downstream:
// its ride events meet the hypotheses under which the session fold is stable.
module GeneratorGuarantees {

  import opened Wrappers
  import opened Lifecycle
  import opened SessionFold
  import opened FoldLaws
  import opened PgSink
  import opened Events
  import opened Fleet
  import opened RideScene
  import opened Rides
  import opened RideSimulator
  import opened Holding
  import opened Imperfections
  import opened Simulate
  import SinkProtocol
  import SinkTables
  import Shifts

  // ------------------------------------------------------- legal histories

  lemma {:induction false} KindsAreDistinct(events: seq<RideEvent>, id: string, a: RideEvent, b: RideEvent)
    requires StampsOf(events, id) == [] || LegalPath(StampsOf(events, id))
    requires a in events && b in events && a.rideId == id && b.rideId == id && a.kind == b.kind
    ensures a == b
  {
    var n := |events| - 1;
    var front, last := events[..n], events[n];
    assert events == front + [last];
    if last.rideId != id {
      assert StampsOf(events, id) == StampsOf(front, id);
      KindsAreDistinct(front, id, a, b);
    } else if a in front && b in front {
      assert StampsOf(events, id)[..|StampsOf(events, id)| - 1] == StampsOf(front, id);
      StampHolds(front, id, a);
      KindsAreDistinct(front, id, a, b);
    } else {
      if a in front { LastKindIsNew(front, last, id, a); }
      if b in front { LastKindIsNew(front, last, id, b); }
    }
  }

  lemma LastKindIsNew(front: seq<RideEvent>, last: RideEvent, id: string, e: RideEvent)
    requires LegalPath(StampsOf(front + [last], id)) && last.rideId == id
    requires e in front && e.rideId == id
    ensures e.kind != last.kind
  {
    var path := StampsOf(front + [last], id);
    assert (front + [last])[..|front|] == front;
    assert path == StampsOf(front, id) + [Stamp(last.kind, last.ts)];
    hide LegalPath, StampsOf;
    PathIsShort(path);
    StampHolds(front, id, e);
  }

  lemma {:induction false} StampHolds(events: seq<RideEvent>, id: string, e: RideEvent)
    requires e in events && e.rideId == id
    ensures exists i :: 0 <= i < |StampsOf(events, id)| && StampsOf(events, id)[i] == Stamp(e.kind, e.ts)
  {
    var n := |events| - 1;
    assert events == events[..n] + [events[n]];
    if e in events[..n] {
      StampHolds(events[..n], id, e);
      var i :| 0 <= i < |StampsOf(events[..n], id)| && StampsOf(events[..n], id)[i] == Stamp(e.kind, e.ts);
      assert StampsOf(events, id)[i] == Stamp(e.kind, e.ts);
    } else {
      var path := StampsOf(events, id);
      assert path[|path| - 1] == Stamp(e.kind, e.ts);
    }
  }

  lemma {:induction false} OneTerminal(path: seq<Stamp>, i: nat, j: nat)
    requires LegalPath(path) && i < |path| && j < |path| && TerminalKind(path[i].kind) && TerminalKind(path[j].kind)
    ensures i == j
  {
    PathIsShort(path);
    if i < |path| - 1 && j < |path| - 1 {
      OneTerminal(path[..|path| - 1], i, j);
    } else if i != j {
      var k := if i < j then i else j;
      NotLast(path, k);
    }
  }

  lemma {:induction false} NotLast(path: seq<Stamp>, k: nat)
    requires LegalPath(path) && k < |path| - 1
    ensures !TerminalKind(path[k].kind)
  {
    if k < |path| - 2 {
      NotLast(path[..|path| - 1], k);
    }
  }

  /** Events of one generated ride, as emitted or held, in any order and number. */
  ghost predicate OfRide(made: seq<SourceEvent>, id: string, events: seq<RideEvent>) {
    forall e :: e in events ==> e in RideEventsIn(made) && e.rideId == id
  }

  /** Such events always meet the fold's hypotheses: copies are identical and at
      most one terminal kind occurs. */
  lemma FoldIsStable(sim: RideSimulator, s: Scene, made: seq<SourceEvent>, q: nat, events: seq<RideEvent>)
    requires SceneOk(s) && Traced(sim, s, made) && q in s.trace && OfRide(made, RideIdOf(sim.cfg.token, q), events)
    ensures IdenticalDuplicates(events) && !BothTerminals(events)
  {
    var id := RideIdOf(sim.cfg.token, q);
    var all := RideEventsIn(made);
    hide RideIdOf, RideEventsIn;
    TraceIsLegal(s, q);
    forall a, b | a in events && b in events && a.kind == b.kind ensures a == b {
      KindsAreDistinct(all, id, a, b);
    }
    if BothTerminals(events) {
      var x :| x in events && x.kind == Completed;
      var y :| y in events && y.kind == Cancelled;
      StampHolds(all, id, x);
      StampHolds(all, id, y);
      var i: nat :| i < |StampsOf(all, id)| && StampsOf(all, id)[i] == Stamp(x.kind, x.ts);
      var j: nat :| j < |StampsOf(all, id)| && StampsOf(all, id)[j] == Stamp(y.kind, y.ts);
      OneTerminal(StampsOf(all, id), i, j);
    }
  }

  /** Whatever reached the broker of a generated ride, however duplicated, held
      back or reordered, it derives one and the same session. */
  lemma GeneratedSessionsAreStable(
    sim: RideSimulator, s: Scene, made: seq<SourceEvent>, q: nat, geo: Haversine, a: seq<RideEvent>,
    b: seq<RideEvent>, timeout: bool)
    requires SceneOk(s) && Traced(sim, s, made) && q in s.trace
    requires OfRide(made, RideIdOf(sim.cfg.token, q), a) && Rearranged(a, b)
    ensures SameSessionAs(geo, RideIdOf(sim.cfg.token, q), a, b, timeout)
  {
    hide RideIdOf, BuildSession;
    FoldIsStable(sim, s, made, q, a);
    OneTerminalIgnoresOrder(geo, RideIdOf(sim.cfg.token, q), a, b, timeout);
  }

  /** What the layer emits or still holds is, corruption aside, an event it made;
      so every ride event on the wire carries the id that the sink keys on. */
  lemma EmittedWasMade(imp: Imperfector, sim: RideSimulator, s: Scene, x: SourceEvent)
    requires imp.Valid() && Traced(sim, s, imp.log.made)
    requires x in imp.log.sent || x in ItemsOf(imp.held)
    ensures Plain(x) in imp.log.made
    ensures x.RideSource? ==> x.event in RideEventsIn(imp.log.made) && GeneratorBuilt(x.event)
  {
    hide RideIdOf, GeneratorBuilt, Plain, Bag;
    var made, copies := imp.log.made, CopiesOf(imp.log.made, imp.log.buckets);
    var y := Plain(x);
    if x in imp.log.sent { InBag(imp.log.sent, x); } else { assert y == x; }
    assert y in Bag(imp.log.sent) + multiset(ItemsOf(imp.held));
    CopiesAreCounted(made, imp.log.buckets);
    if y in multiset(copies) {
      assert y in copies;
      var i :| 0 <= i < |made| && made[i] == y;
    } else {
      assert y in multiset(made);
    }
    if x.RideSource? { MadeRide(made, x); }
  }

  lemma InBag(es: seq<SourceEvent>, x: SourceEvent)
    requires x in es
    ensures Plain(x) in Bag(es)
  {
    var i :| 0 <= i < |es| && es[i] == x;
    assert PlainAll(es)[i] == Plain(x);
  }

  lemma {:induction false} MadeRide(made: seq<SourceEvent>, x: SourceEvent)
    requires x.RideSource? && Plain(x) in made
    ensures x.event in RideEventsIn(made)
  {
    var n := |made| - 1;
    assert made == made[..n] + [made[n]];
    if Plain(x) in made[..n] { MadeRide(made[..n], x); }
  }

  // --------------------------------------------------- the masked offline ping

  /** An offline row repeats the key (driver, time) of the row just before it. */
  ghost predicate MaskedRows(rows: seq<Location>) {
    forall i :: 0 <= i < |rows| ==> MaskedRow(rows, i)
  }

  ghost predicate MaskedRow(rows: seq<Location>, i: nat)
    requires i < |rows|
  {
    rows[i].status == "offline" ==> i > 0 && Covers(rows[i - 1], rows[i])
  }

  ghost predicate Covers(a: Location, b: Location) {
    a.status != "offline" && LocationKey(a) == LocationKey(b)
  }

  lemma PingsMaskRows(pings: seq<Ping>)
    requires Masked(pings)
    ensures MaskedRows(Positions(pings))
  {
    hide DriverName;
    forall i | 0 <= i < |pings| ensures MaskedRow(Positions(pings), i) {
      assert MaskedAt(pings, i);
    }
  }

  /** The rows whose driver is keyed to partition `p`. */
  function OnPartition(rows: seq<Location>, home: string -> nat, p: nat): seq<Location> {
    if rows == [] then []
    else
      var x := rows[|rows| - 1];
      OnPartition(rows[..|rows| - 1], home, p) + (if home(x.driverId) == p then [x] else [])
  }

  /** Keying by driver keeps an offline row right behind the one it repeats. */
  lemma {:induction false} MaskedOnPartition(rows: seq<Location>, home: string -> nat, p: nat)
    requires MaskedRows(rows)
    ensures MaskedRows(OnPartition(rows, home, p))
    ensures rows != [] && home(rows[|rows| - 1].driverId) == p ==>
              EndsWith(OnPartition(rows, home, p), rows[|rows| - 1])
  {
    if rows != [] {
      var n := |rows| - 1;
      var front, x := rows[..n], rows[n];
      forall i | 0 <= i < n ensures MaskedRow(front, i) { assert MaskedRow(rows, i); }
      MaskedOnPartition(front, home, p);
      assert MaskedRow(rows, n);
      if home(x.driverId) == p { OneMoreRow(OnPartition(front, home, p), x); }
      assert OnPartition(front, home, p) + [] == OnPartition(front, home, p);
    }
  }

  ghost predicate EndsWith(rows: seq<Location>, x: Location) {
    rows != [] && rows[|rows| - 1] == x
  }

  lemma OneMoreRow(rows: seq<Location>, x: Location)
    requires MaskedRows(rows) && (x.status == "offline" ==> rows != [] && Covers(rows[|rows| - 1], x))
    ensures MaskedRows(rows + [x])
  {
    forall i | 0 <= i < |rows + [x]| ensures MaskedRow(rows + [x], i) {
      if i < |rows| { assert MaskedRow(rows, i); }
    }
  }

  function LocationValues(rows: seq<Location>): seq<Value> {
    seq(|rows|, i requires 0 <= i < |rows| => LocationValue(rows[i]))
  }

  lemma FirstIsNotOffline(rows: seq<Location>, k: (string, int), n: nat)
    requires MaskedRows(rows) && n <= |rows| && SinkProtocol.FirstLocation(LocationValues(rows), k, n) != None
    ensures SinkProtocol.FirstLocation(LocationValues(rows), k, n).value.status != "offline"
  {
    var l := LocationValues(rows);
    SinkTables.FirstLocationIs(l, k.0, k.1, n);
    var i :| SinkTables.FirstLocationAt(l, n, i, k.0, k.1)
             && SinkProtocol.FirstLocation(l, k, n).value == l[i].location;
    assert MaskedRow(rows, i);
    assert i > 0 ==> l[i - 1] == LocationValue(rows[i - 1]) && !SinkTables.LocationAt(l, i - 1, k.0, k.1);
  }

  /** The location partitions hold what the generator sent, keyed by driver. */
  ghost predicate LocationsArrived(h: SinkProtocol.Homes, sw: SinkProtocol.SinkWorld, sent: seq<SourceEvent>) {
    forall p: nat ::
      SinkProtocol.PartOf(sw.log, (DriversLocations, p)) == LocationValues(OnPartition(LocationsIn(sent), h.driver, p))
  }

  /** The tick loop's locations are masked pings; the sink keeps the first row of a
      key. So no row of raw.driver_locations ever has status offline. */
  lemma OfflineIsNeverStored(h: SinkProtocol.Homes, sw: SinkProtocol.SinkWorld, sent: seq<SourceEvent>,
                             pings: seq<Ping>, k: (string, int))
    requires SinkProtocol.SinkReachable(h, sw) && LocationsArrived(h, sw, sent)
    requires LocationsIn(sent) == Positions(pings) && Masked(pings)
    requires k in sw.db.locations
    ensures sw.db.locations[k].status != "offline"
  {
    hide Masked, Positions, LocationsIn, OnPartition, MaskedRows;
    var p := h.driver(k.0);
    var rows := OnPartition(LocationsIn(sent), h.driver, p);
    SinkProtocol.SinkRefinement(h, sw);
    assert SinkProtocol.LocationRefines(h, sw.log, sw.db, k);
    PingsMaskRows(pings);
    MaskedOnPartition(Positions(pings), h.driver, p);
    FirstIsNotOffline(rows, k, NextToRead(sw.db, (DriversLocations, p)));
  }

  // ----------------------------------------------------------- shifts on them

  function ShiftPing(row: Location): Shifts.Ping {
    Shifts.Ping(row.ts, row.lat, row.lon, row.status == "offline")
  }

  ghost predicate FromTable(sw: SinkProtocol.SinkWorld, rows: seq<Location>) {
    forall i :: 0 <= i < |rows| ==> exists k :: k in sw.db.locations && sw.db.locations[k] == rows[i]
  }

  /** So shifts built on that table are divided by 30-minute gaps alone: the offline
      marker of the shift model never takes effect. */
  lemma OfflineNeverDividesShifts(h: SinkProtocol.Homes, sw: SinkProtocol.SinkWorld, sent: seq<SourceEvent>,
                                  pings: seq<Ping>,
                                  rows: seq<Location>, i: nat)
    requires SinkProtocol.SinkReachable(h, sw) && LocationsArrived(h, sw, sent)
    requires LocationsIn(sent) == Positions(pings) && Masked(pings)
    requires FromTable(sw, rows) && i < |rows|
    ensures var shift := seq(|rows|, j requires 0 <= j < |rows| => ShiftPing(rows[j]));
            Shifts.IsNewShift(shift, i) <==> i == 0 || shift[i].at - shift[i - 1].at > 1800000
  {
    hide SinkProtocol.SinkReachable, LocationsArrived, Masked;
    var shift := seq(|rows|, j requires 0 <= j < |rows| => ShiftPing(rows[j]));
    forall p | p in shift ensures !p.offline {
      var j :| 0 <= j < |shift| && shift[j] == p;
      var k :| k in sw.db.locations && sw.db.locations[k] == rows[j];
      OfflineIsNeverStored(h, sw, sent, pings, k);
    }
    Shifts.OnlyGapsDivide(shift, i);
  }
}
