// The sink's four tables column by column: which keys each table has, and which of
// the messages below the stored offsets every row comes from.
module SinkTables {

  import opened Wrappers
  import opened Lifecycle
  import opened SessionFold
  import opened PgSink
  import opened SinkProtocol

  // --------------------------------------------------------------- locations

  /** Record `i` is a location of driver `d` at time `t`. */
  predicate LocationAt(l: seq<Value>, i: int, d: string, t: int) {
    0 <= i < |l| && l[i].LocationValue? && l[i].location.driverId == d && l[i].location.ts == t
  }

  ghost predicate FirstLocationAt(l: seq<Value>, n: nat, i: int, d: string, t: int) {
    i < n && LocationAt(l, i, d, t) && forall j :: 0 <= j < i ==> !LocationAt(l, j, d, t)
  }

  lemma {:induction false} FirstLocationIs(l: seq<Value>, d: string, t: int, n: nat)
    requires n <= |l|
    ensures match FirstLocation(l, (d, t), n)
            case None => forall i :: 0 <= i < n ==> !LocationAt(l, i, d, t)
            case Some(row) => exists i :: FirstLocationAt(l, n, i, d, t) && row == l[i].location
  {
    if n > 0 {
      FirstLocationIs(l, d, t, n - 1);
      if i :| FirstLocationAt(l, n - 1, i, d, t) && FirstLocation(l, (d, t), n - 1) == Some(l[i].location) {
        assert FirstLocationAt(l, n, i, d, t);
      } else if LocationAt(l, n - 1, d, t) {
        assert FirstLocationAt(l, n, n - 1, d, t);
      }
    }
  }

  /** raw.driver_locations has a row for a driver and a time exactly when a location of
      that driver and time lies below the stored offset; it is the first of them. */
  lemma LocationRows(h: Homes, sw: SinkWorld, d: string, t: int)
    requires SinkReachable(h, sw)
    ensures var tp := (DriversLocations, h.driver(d));
            var l, n := PartOf(sw.log, tp), NextToRead(sw.db, tp);
            && ((d, t) in sw.db.locations <==> exists i :: 0 <= i < n && LocationAt(l, i, d, t))
            && ((d, t) in sw.db.locations ==>
                  exists i :: FirstLocationAt(l, n, i, d, t) && sw.db.locations[(d, t)] == l[i].location)
  {
    hide SinkReachable, FirstLocation, NextToRead;
    SinkRefinement(h, sw);
    assert LocationRefines(h, sw.log, sw.db, (d, t));
    var tp := (DriversLocations, h.driver(d));
    FirstLocationIs(PartOf(sw.log, tp), d, t, NextToRead(sw.db, tp));
  }

  // ---------------------------------------------------------------- payments

  predicate PaymentAt(l: seq<Value>, i: int, txn: string) {
    0 <= i < |l| && l[i].PaymentValue? && l[i].payment.txnId == txn
  }

  ghost predicate FirstPaymentAt(l: seq<Value>, n: nat, i: int, txn: string) {
    i < n && PaymentAt(l, i, txn) && forall j :: 0 <= j < i ==> !PaymentAt(l, j, txn)
  }

  lemma {:induction false} FirstPaymentIs(l: seq<Value>, txn: string, n: nat)
    requires n <= |l|
    ensures match FirstPayment(l, txn, n)
            case None => forall i :: 0 <= i < n ==> !PaymentAt(l, i, txn)
            case Some(row) => exists i :: FirstPaymentAt(l, n, i, txn) && row == l[i].payment
  {
    if n > 0 {
      FirstPaymentIs(l, txn, n - 1);
      if i :| FirstPaymentAt(l, n - 1, i, txn) && FirstPayment(l, txn, n - 1) == Some(l[i].payment) {
        assert FirstPaymentAt(l, n, i, txn);
      } else if PaymentAt(l, n - 1, txn) {
        assert FirstPaymentAt(l, n, n - 1, txn);
      }
    }
  }

  /** The same for raw.payments_transactions, by transaction. */
  lemma PaymentRows(h: Homes, sw: SinkWorld, txn: string)
    requires SinkReachable(h, sw)
    ensures var tp := (PaymentsTransactions, PaymentHome(h, txn));
            var l, n := PartOf(sw.log, tp), NextToRead(sw.db, tp);
            && (txn in sw.db.payments <==> exists i :: 0 <= i < n && PaymentAt(l, i, txn))
            && (txn in sw.db.payments ==>
                  exists i :: FirstPaymentAt(l, n, i, txn) && sw.db.payments[txn] == l[i].payment)
  {
    hide SinkReachable, FirstPayment, NextToRead;
    SinkRefinement(h, sw);
    assert PaymentRefines(h, sw.log, sw.db, txn);
    var tp := (PaymentsTransactions, PaymentHome(h, txn));
    FirstPaymentIs(PartOf(sw.log, tp), txn, NextToRead(sw.db, tp));
  }

  // ------------------------------------------------------------------ events

  predicate EventAt(l: seq<Value>, i: int, r: string, k: Kind) {
    0 <= i < |l| && l[i].EventValue? && l[i].event.rideId == r && l[i].event.kind == k
  }

  ghost predicate FirstEventAt(l: seq<Value>, n: nat, i: int, r: string, k: Kind) {
    i < n && EventAt(l, i, r, k) && forall j :: 0 <= j < i ==> !EventAt(l, j, r, k)
  }

  lemma {:induction false} FirstEventIs(l: seq<Value>, p: nat, r: string, k: Kind, n: nat)
    requires n <= |l|
    ensures match FirstEvent(l, p, (r, EventSeq(k)), n)
            case None => forall i :: 0 <= i < n ==> !EventAt(l, i, r, k)
            case Some(row) => exists i :: FirstEventAt(l, n, i, r, k) && row == EventRow(l[i].event, p, i)
  {
    if n > 0 {
      FirstEventIs(l, p, r, k, n - 1);
      var before := FirstEvent(l, p, (r, EventSeq(k)), n - 1);
      if i :| FirstEventAt(l, n - 1, i, r, k) && before == Some(EventRow(l[i].event, p, i)) {
        assert FirstEventAt(l, n, i, r, k);
      } else if EventAt(l, n - 1, r, k) {
        assert FirstEventAt(l, n, n - 1, r, k);
      }
    }
  }

  /** raw.rides_events has a row for a ride and a kind exactly when such an event lies
      below the stored offset; it is the first of them, with its coordinates. */
  lemma EventRows(h: Homes, sw: SinkWorld, r: string, k: Kind)
    requires SinkReachable(h, sw)
    ensures var tp := (RidesEvents, h.ride(r));
            var l, n := PartOf(sw.log, tp), NextToRead(sw.db, tp);
            && ((r, EventSeq(k)) in sw.db.events <==> exists i :: 0 <= i < n && EventAt(l, i, r, k))
            && ((r, EventSeq(k)) in sw.db.events ==>
                  exists i :: FirstEventAt(l, n, i, r, k)
                              && sw.db.events[(r, EventSeq(k))] == EventRow(l[i].event, h.ride(r), i))
  {
    hide SinkReachable, FirstEvent, NextToRead, EventSeq;
    SinkRefinement(h, sw);
    assert EventRefines(h, sw.log, sw.db, (r, EventSeq(k)));
    var tp := (RidesEvents, h.ride(r));
    FirstEventIs(PartOf(sw.log, tp), h.ride(r), r, k, NextToRead(sw.db, tp));
  }

  // ---------------------------------------------------------------- sessions

  predicate SessionAt(l: seq<Value>, i: int, r: string) {
    0 <= i < |l| && l[i].SessionValue? && l[i].session.rideId == r
  }

  ghost predicate FirstSessionAt(l: seq<Value>, n: nat, i: int, r: string) {
    i < n && SessionAt(l, i, r) && forall j :: 0 <= j < i ==> !SessionAt(l, j, r)
  }

  /** The first of the sessions with the most events. */
  ghost predicate RichestAt(l: seq<Value>, n: nat, i: int, r: string) {
    && i < n && SessionAt(l, i, r)
    && (forall j :: 0 <= j < n && SessionAt(l, j, r) ==> l[j].session.eventSeq <= l[i].session.eventSeq)
    && (forall j :: 0 <= j < i && SessionAt(l, j, r) ==> l[j].session.eventSeq < l[i].session.eventSeq)
  }

  /** The columns that a richer close replaces. */
  predicate ListedFrom(row: Session, s: Session) {
    && row.terminalState == s.terminalState && row.eventSeq == s.eventSeq && row.endedTs == s.endedTs
    && row.timeToMatchSec == s.timeToMatchSec && row.timeToPickupSec == s.timeToPickupSec
    && row.rideDurationSec == s.rideDurationSec && row.distanceKm == s.distanceKm
    && row.avgSpeedKmh == s.avgSpeedKmh && row.isLateArrival == s.isLateArrival
    && row.fareCents == s.fareCents && row.promoCode == s.promoCode
  }

  /** The columns that stay with the first close. */
  predicate OthersFrom(row: Session, s: Session) {
    && row.rideId == s.rideId && row.riderId == s.riderId && row.driverId == s.driverId && row.cityId == s.cityId
    && row.requestedTs == s.requestedTs && row.matchedTs == s.matchedTs
    && row.driverArrivedTs == s.driverArrivedTs && row.startedTs == s.startedTs && row.surge == s.surge
    && row.pickupLat == s.pickupLat && row.pickupLon == s.pickupLon
    && row.dropoffLat == s.dropoffLat && row.dropoffLon == s.dropoffLon
  }

  ghost predicate RowOf(l: seq<Value>, n: nat, r: string, row: Session) {
    exists i, j :: FirstSessionAt(l, n, i, r) && RichestAt(l, n, j, r)
                   && OthersFrom(row, l[i].session) && ListedFrom(row, l[j].session)
  }

  lemma MergedColumns(before: Session, first: Session, best: Session, s: Session)
    requires OthersFrom(before, first) && ListedFrom(before, best)
    ensures OthersFrom(KeepRicher(before, s), first)
    ensures ListedFrom(KeepRicher(before, s), if s.eventSeq > best.eventSeq then s else best)
  {
  }

  lemma {:induction false} RichestIs(l: seq<Value>, r: string, n: nat)
    requires n <= |l|
    ensures match RichestSession(l, r, n)
            case None => NoSession(l, n, r)
            case Some(row) => RowOf(l, n, r, row)
  {
    if n > 0 {
      hide RowOf, KeepRicher, NoSession;
      RichestIs(l, r, n - 1);
      var before := RichestSession(l, r, n - 1);
      if before != None {
        OneMoreSession(l, n, r, before.value);
      } else if SessionAt(l, n - 1, r) {
        LoneSession(l, n, r);
      } else {
        StillNone(l, n, r);
      }
    }
  }

  ghost predicate NoSession(l: seq<Value>, n: nat, r: string) {
    forall i :: 0 <= i < n ==> !SessionAt(l, i, r)
  }

  lemma StillNone(l: seq<Value>, n: nat, r: string)
    requires 0 < n <= |l| && !SessionAt(l, n - 1, r) && NoSession(l, n - 1, r)
    ensures NoSession(l, n, r)
  {
  }

  lemma LoneSession(l: seq<Value>, n: nat, r: string)
    requires 0 < n <= |l| && SessionAt(l, n - 1, r) && NoSession(l, n - 1, r)
    ensures RowOf(l, n, r, l[n - 1].session)
  {
    assert FirstSessionAt(l, n, n - 1, r) && RichestAt(l, n, n - 1, r);
  }

  lemma OneMoreSession(l: seq<Value>, n: nat, r: string, before: Session)
    requires 0 < n <= |l| && RowOf(l, n - 1, r, before)
    ensures RowOf(l, n, r, if SessionAt(l, n - 1, r) then KeepRicher(before, l[n - 1].session) else before)
  {
    hide KeepRicher, ListedFrom, OthersFrom;
    var i, j :| FirstSessionAt(l, n - 1, i, r) && RichestAt(l, n - 1, j, r)
                && OthersFrom(before, l[i].session) && ListedFrom(before, l[j].session);
    var last := if SessionAt(l, n - 1, r) && l[n - 1].session.eventSeq > l[j].session.eventSeq then n - 1 else j;
    if SessionAt(l, n - 1, r) {
      MergedColumns(before, l[i].session, l[j].session, l[n - 1].session);
    }
    assert FirstSessionAt(l, n, i, r);
    RichestSoFar(l, n, r, j, last);
  }

  lemma RichestSoFar(l: seq<Value>, n: nat, r: string, j: int, last: int)
    requires 0 < n <= |l| && RichestAt(l, n - 1, j, r)
    requires last ==
             if SessionAt(l, n - 1, r) && l[n - 1].session.eventSeq > l[j].session.eventSeq then n - 1 else j
    ensures RichestAt(l, n, last, r)
  {
  }

  /** raw.ride_sessions has a row for a ride exactly when a session of it lies below the
      stored offset: the listed columns are those of the first of the richest, the
      others those of the first. */
  lemma SessionRows(h: Homes, sw: SinkWorld, r: string)
    requires SinkReachable(h, sw)
    ensures var tp := (RidesSessions, h.session(r));
            var l, n := PartOf(sw.log, tp), NextToRead(sw.db, tp);
            && (r in sw.db.sessions <==> exists i :: 0 <= i < n && SessionAt(l, i, r))
            && (r in sw.db.sessions ==> RowOf(l, n, r, sw.db.sessions[r]))
  {
    hide SinkReachable, RichestSession, NextToRead, OthersFrom, ListedFrom;
    SinkRefinement(h, sw);
    assert SessionRefines(h, sw.log, sw.db, r);
    var tp := (RidesSessions, h.session(r));
    RichestIs(PartOf(sw.log, tp), r, NextToRead(sw.db, tp));
  }

  // ------------------------------------------------------------- constraints

  /** The constraints of the schema: no event id under two keys, and no session
      without its rider and its city. */
  ghost predicate ConstraintsHold(db: Database) {
    UniqueIds(db.events) && Complete(db.sessions)
  }

  ghost predicate UniqueIds(t: map<(string, nat), EventRow>) {
    forall a, b :: a in t && b in t && t[a].event.eventId == t[b].event.eventId ==> a == b
  }

  ghost predicate Complete(t: map<string, Session>) {
    forall r :: r in t ==> t[r].riderId != None && t[r].cityId != None
  }

  /** A message breaks a constraint on the tables before it: a session without rider
      or city, or an event of a new key whose id another key holds. */
  ghost predicate Breaks(before: Database, m: Message) {
    m.Record? &&
    match m.value
    case SessionValue(s) => s.riderId == None || s.cityId == None
    case EventValue(e) =>
      && (e.rideId, EventSeq(e.kind)) !in before.events
      && exists k :: k in before.events && before.events[k].event.eventId == e.eventId
    case _ => false
  }

  ghost predicate BreaksAt(db: Database, msgs: seq<Message>, n: nat) {
    n < |msgs| && ApplyAll(db, msgs[..n]) != None && Breaks(ApplyAll(db, msgs[..n]).value, msgs[n])
  }

  /** A batch of decodable records is refused exactly when one of its messages breaks a
      constraint, and otherwise leaves both in force. */
  lemma {:induction false} RefusedIffBroken(db: Database, msgs: seq<Message>)
    requires Failed !in msgs
    ensures ApplyAll(db, msgs) == None <==> exists n: nat :: BreaksAt(db, msgs, n)
    ensures ApplyAll(db, msgs) != None && ConstraintsHold(db) ==> ConstraintsHold(ApplyAll(db, msgs).value)
  {
    if msgs != [] {
      hide ConstraintsHold, ApplyRow, RowAllowed, Breaks;
      var n, front, m := |msgs| - 1, msgs[..|msgs| - 1], msgs[|msgs| - 1];
      assert msgs == front + [m] && m in msgs;
      RefusedIffBroken(db, front);
      forall i: nat | i < n ensures BreaksAt(db, msgs, i) <==> BreaksAt(db, front, i) {
        assert msgs[..i] == front[..i];
      }
      if ApplyAll(db, front) == None {
        var i: nat :| BreaksAt(db, front, i);
        assert BreaksAt(db, msgs, i);
      } else {
        var before := ApplyAll(db, front).value;
        RowRefusedIff(before, m);
        assert BreaksAt(db, msgs, n) <==> Breaks(before, m);
        if RowAllowed(before, m) && ConstraintsHold(before) { RowKeepsConstraints(before, m); }
      }
    }
  }

  lemma RowRefusedIff(db: Database, m: Message)
    requires m.Record?
    ensures RowAllowed(db, m) <==> !Breaks(db, m)
  {
  }

  lemma RowKeepsConstraints(db: Database, m: Message)
    requires ConstraintsHold(db) && m.Record? && RowAllowed(db, m)
    ensures ConstraintsHold(ApplyRow(db, m))
  {
    hide UniqueIds, Complete;
    match m.value
    case EventValue(e) => IdsStayUnique(db.events, EventRow(e, m.tp.1, m.offset));
    case SessionValue(s) => StaysComplete(db.sessions, s);
    case _ =>
  }

  lemma IdsStayUnique(t: map<(string, nat), EventRow>, row: EventRow)
    requires UniqueIds(t) && EventAllowed(t, row)
    ensures UniqueIds(Upsert(t, EventKey(row), row, KeepFirst))
  {
  }

  lemma StaysComplete(t: map<string, Session>, s: Session)
    requires Complete(t) && SessionAllowed(s)
    ensures Complete(Upsert(t, s.rideId, s, KeepRicher))
  {
  }

  lemma {:induction false} RunKeepsConstraints(h: Homes, ws: seq<SinkWorld>, steps: seq<SinkStep>, i: nat)
    requires SinkRun(h, ws, steps) && i < |ws| && ws[0] == SINK_START
    ensures ConstraintsHold(ws[i].db)
  {
    if i > 0 {
      hide ApplyAll, ConstraintsHold;
      RunKeepsConstraints(h, ws, steps, i - 1);
      assert ws[i - 1 + 1] == SinkTake(ws[i - 1], steps[i - 1]);
      if steps[i - 1].Batch? {
        DeliveredWell(ws[i - 1], steps[i - 1].msgs);
        RefusedIffBroken(ws[i - 1].db, steps[i - 1].msgs);
      }
    } else {
      assert ConstraintsHold(EMPTY_DATABASE);
    }
  }

  lemma {:induction false} DeliveredWell(w: SinkWorld, msgs: seq<Message>)
    requires Delivered(w, msgs)
    ensures Failed !in msgs
  {
    if msgs != [] {
      DeliveredWell(w, msgs[..|msgs| - 1]);
      assert msgs == msgs[..|msgs| - 1] + [msgs[|msgs| - 1]];
    }
  }

  /** In every reachable world the constraints hold, whatever was logged. */
  lemma TablesKeepConstraints(h: Homes, sw: SinkWorld)
    requires SinkReachable(h, sw)
    ensures ConstraintsHold(sw.db)
  {
    var ws, steps :| SinkRun(h, ws, steps) && ws[0] == SINK_START && ws[|ws| - 1] == sw;
    RunKeepsConstraints(h, ws, steps, |ws| - 1);
  }
}
