// The sink over whole runs: every table is a one-shot fold of each partition's
// prefix up to its stored offset, whatever the batches, rollbacks and restarts.
module SinkProtocol {

  import opened Wrappers
  import opened Lifecycle
  import opened SessionFold
  import opened PgSink

  type SinkLog = map<TopicPartition, seq<Value>>

  /** The log, the database, and the read position of each assigned partition. */
  datatype SinkWorld = SinkWorld(log: SinkLog, db: Database, pos: map<TopicPartition, nat>)

  const SINK_START := SinkWorld(map[], EMPTY_DATABASE, map[])

  function PartOf(log: SinkLog, tp: TopicPartition): seq<Value> {
    if tp in log then log[tp] else []
  }

  /** The keyed partitioners: rides, sessions and payments are keyed by ride, locations
      by driver. A transaction belongs to one ride. */
  datatype Homes = Homes(
    ride: string -> nat,
    session: string -> nat,
    payment: string -> nat,
    driver: string -> nat,
    rideOf: string -> string)

  function PaymentHome(h: Homes, txn: string): nat {
    h.payment(h.rideOf(txn))
  }

  predicate AtHome(h: Homes, tp: TopicPartition, v: Value) {
    match v
    case EventValue(e) => tp == (RidesEvents, h.ride(e.rideId))
    case SessionValue(s) => tp == (RidesSessions, h.session(s.rideId))
    case PaymentValue(p) => tp == (PaymentsTransactions, h.payment(p.rideId)) && p.rideId == h.rideOf(p.txnId)
    case LocationValue(l) => tp == (DriversLocations, h.driver(l.driverId))
    case Undecodable => true
  }

  datatype SinkStep =
    | Produce(tp: TopicPartition, value: Value)
    | Assign(tps: seq<TopicPartition>)
    | Die
    | Batch(msgs: seq<Message>, fate: CommitFate)

  /** Messages arrive in log order from each assigned partition's position. */
  ghost predicate Delivered(w: SinkWorld, msgs: seq<Message>) {
    msgs == [] ||
    (var front, m := msgs[..|msgs| - 1], msgs[|msgs| - 1];
     && Delivered(w, front)
     && m.Record? && m.tp in w.pos
     && m.offset == w.pos[m.tp] + Count(front, m.tp)
     && m.offset < |PartOf(w.log, m.tp)| && m.value == PartOf(w.log, m.tp)[m.offset])
  }

  function Count(msgs: seq<Message>, tp: TopicPartition): nat {
    if msgs == [] then 0
    else
      var m := msgs[|msgs| - 1];
      Count(msgs[..|msgs| - 1], tp) + (if m.Record? && m.tp == tp then 1 else 0)
  }

  ghost predicate SinkEnabled(h: Homes, w: SinkWorld, s: SinkStep) {
    match s
    case Produce(tp, v) => AtHome(h, tp, v)
    case Assign(_) => true
    case Die => true
    case Batch(msgs, _) => Delivered(w, msgs)
  }

  /** A batch that is not committed, or whose commit raises, ends the process. */
  ghost function SinkTake(w: SinkWorld, s: SinkStep): SinkWorld {
    match s
    case Produce(tp, v) => w.(log := w.log[tp := PartOf(w.log, tp) + [v]])
    case Assign(tps) => w.(pos := map tp | tp in tps :: NextToRead(w.db, tp))
    case Die => w.(pos := map[])
    case Batch(msgs, fate) =>
      var after := ApplyAll(w.db, msgs);
      if after == None || fate == FailsBefore then w.(pos := map[])
      else if fate == AppliesThenRaises then w.(db := after.value, pos := map[])
      else w.(db := after.value, pos := map tp | tp in w.pos :: w.pos[tp] + Count(msgs, tp))
  }

  ghost predicate SinkRun(h: Homes, ws: seq<SinkWorld>, steps: seq<SinkStep>) {
    && |ws| == |steps| + 1
    && (forall i :: 0 <= i < |steps| ==> SinkEnabled(h, ws[i], steps[i]) && ws[i + 1] == SinkTake(ws[i], steps[i]))
  }

  ghost predicate SinkReachable(h: Homes, w: SinkWorld) {
    exists ws, steps :: SinkRun(h, ws, steps) && ws[0] == SINK_START && ws[|ws| - 1] == w
  }

  // ------------------------------------------------------- the one-shot folds

  /** The first row with key `k` below `n`. */
  function FirstEvent(l: seq<Value>, p: nat, k: (string, nat), n: nat): Option<EventRow>
    requires n <= |l|
  {
    if n == 0 then None
    else
      match FirstEvent(l, p, k, n - 1)
      case Some(row) => Some(row)
      case None =>
        var v := l[n - 1];
        if v.EventValue? && v.event.rideId == k.0 && EventSeq(v.event.kind) == k.1
        then Some(EventRow(v.event, p, n - 1)) else None
  }

  function FirstPayment(l: seq<Value>, txn: string, n: nat): Option<Payment>
    requires n <= |l|
  {
    if n == 0 then None
    else
      match FirstPayment(l, txn, n - 1)
      case Some(row) => Some(row)
      case None => if l[n - 1].PaymentValue? && l[n - 1].payment.txnId == txn then Some(l[n - 1].payment) else None
  }

  function FirstLocation(l: seq<Value>, k: (string, int), n: nat): Option<Location>
    requires n <= |l|
  {
    if n == 0 then None
    else
      match FirstLocation(l, k, n - 1)
      case Some(row) => Some(row)
      case None =>
        var v := l[n - 1];
        if v.LocationValue? && v.location.driverId == k.0 && v.location.ts == k.1 then Some(v.location) else None
  }

  /** The richest close of ride `r` below `n`: later ones replace the listed
      columns only when they are richer. */
  function RichestSession(l: seq<Value>, r: string, n: nat): Option<Session>
    requires n <= |l|
  {
    if n == 0 then None
    else
      var before, v := RichestSession(l, r, n - 1), l[n - 1];
      if !v.SessionValue? || v.session.rideId != r then before
      else if before == None then Some(v.session)
      else Some(KeepRicher(before.value, v.session))
  }

  // -------------------------------------------------------------- refinement

  ghost predicate SinkLogOk(h: Homes, log: SinkLog) {
    forall tp, i :: 0 <= i < |PartOf(log, tp)| ==> AtHome(h, tp, PartOf(log, tp)[i])
  }

  ghost predicate EventRefines(h: Homes, log: SinkLog, db: Database, k: (string, nat)) {
    var tp := (RidesEvents, h.ride(k.0));
    NextToRead(db, tp) <= |PartOf(log, tp)| &&
    Lookup(db.events, k) == FirstEvent(PartOf(log, tp), tp.1, k, NextToRead(db, tp))
  }

  ghost predicate SessionRefines(h: Homes, log: SinkLog, db: Database, r: string) {
    var tp := (RidesSessions, h.session(r));
    NextToRead(db, tp) <= |PartOf(log, tp)| &&
    Lookup(db.sessions, r) == RichestSession(PartOf(log, tp), r, NextToRead(db, tp))
  }

  ghost predicate PaymentRefines(h: Homes, log: SinkLog, db: Database, txn: string) {
    var tp := (PaymentsTransactions, PaymentHome(h, txn));
    NextToRead(db, tp) <= |PartOf(log, tp)| &&
    Lookup(db.payments, txn) == FirstPayment(PartOf(log, tp), txn, NextToRead(db, tp))
  }

  ghost predicate LocationRefines(h: Homes, log: SinkLog, db: Database, k: (string, int)) {
    var tp := (DriversLocations, h.driver(k.0));
    NextToRead(db, tp) <= |PartOf(log, tp)| &&
    Lookup(db.locations, k) == FirstLocation(PartOf(log, tp), k, NextToRead(db, tp))
  }

  /** No session below `n` was refused by the NOT NULL columns. */
  ghost predicate AllAllowed(l: seq<Value>, n: nat) {
    n <= |l| && forall i :: 0 <= i < n && l[i].SessionValue? ==> SessionAllowed(l[i].session)
  }

  /** The four tables are the one-shot folds of the stored prefixes. */
  ghost predicate Refines(h: Homes, log: SinkLog, db: Database) {
    && (forall tp :: AllAllowed(PartOf(log, tp), NextToRead(db, tp)))
    && (forall k :: EventRefines(h, log, db, k))
    && (forall r :: SessionRefines(h, log, db, r))
    && (forall txn :: PaymentRefines(h, log, db, txn))
    && (forall k :: LocationRefines(h, log, db, k))
  }

  ghost predicate SinkInv(h: Homes, w: SinkWorld) {
    && SinkLogOk(h, w.log)
    && Refines(h, w.log, w.db)
    && (forall tp :: tp in w.pos ==> w.pos[tp] == NextToRead(w.db, tp))
  }

  // ------------------------------------------------------------ one message

  ghost predicate ReadsNext(log: SinkLog, db: Database, m: Message) {
    && m.Record? && m.offset == NextToRead(db, m.tp)
    && m.offset < |PartOf(log, m.tp)| && m.value == PartOf(log, m.tp)[m.offset]
  }

  lemma ReadMoves(log: SinkLog, db: Database, m: Message, tp: TopicPartition)
    requires ReadsNext(log, db, m)
    ensures NextToRead(ApplyRow(db, m), tp) == NextToRead(db, tp) + if tp == m.tp then 1 else 0
  {
  }

  lemma ApplyEvent(h: Homes, log: SinkLog, db: Database, m: Message, k: (string, nat))
    requires ReadsNext(log, db, m) && AtHome(h, m.tp, m.value) && EventRefines(h, log, db, k)
    ensures EventRefines(h, log, ApplyRow(db, m), k)
  {
    ReadMoves(log, db, m, (RidesEvents, h.ride(k.0)));
  }

  lemma ApplySession(h: Homes, log: SinkLog, db: Database, m: Message, k: string)
    requires ReadsNext(log, db, m) && AtHome(h, m.tp, m.value) && SessionRefines(h, log, db, k)
    ensures SessionRefines(h, log, ApplyRow(db, m), k)
  {
    ReadMoves(log, db, m, (RidesSessions, h.session(k)));
  }

  lemma ApplyPayment(h: Homes, log: SinkLog, db: Database, m: Message, k: string)
    requires ReadsNext(log, db, m) && AtHome(h, m.tp, m.value) && PaymentRefines(h, log, db, k)
    ensures PaymentRefines(h, log, ApplyRow(db, m), k)
  {
    ReadMoves(log, db, m, (PaymentsTransactions, PaymentHome(h, k)));
  }

  lemma ApplyLocation(h: Homes, log: SinkLog, db: Database, m: Message, k: (string, int))
    requires ReadsNext(log, db, m) && AtHome(h, m.tp, m.value) && LocationRefines(h, log, db, k)
    ensures LocationRefines(h, log, ApplyRow(db, m), k)
  {
    ReadMoves(log, db, m, (DriversLocations, h.driver(k.0)));
  }

  lemma ApplyRefines(h: Homes, log: SinkLog, db: Database, m: Message)
    requires SinkLogOk(h, log) && Refines(h, log, db) && ReadsNext(log, db, m) && RowAllowed(db, m)
    ensures Refines(h, log, ApplyRow(db, m))
  {
    hide ApplyRow, EventRefines, SessionRefines, PaymentRefines, LocationRefines;
    var db' := ApplyRow(db, m);
    assert AtHome(h, m.tp, PartOf(log, m.tp)[m.offset]);
    forall tp ensures AllAllowed(PartOf(log, tp), NextToRead(db', tp)) {
      assert AllAllowed(PartOf(log, tp), NextToRead(db, tp));
      ReadMoves(log, db, m, tp);
    }
    forall k ensures EventRefines(h, log, db', k) { ApplyEvent(h, log, db, m, k); }
    forall r ensures SessionRefines(h, log, db', r) { ApplySession(h, log, db, m, r); }
    forall txn ensures PaymentRefines(h, log, db', txn) { ApplyPayment(h, log, db, m, txn); }
    forall k ensures LocationRefines(h, log, db', k) { ApplyLocation(h, log, db, m, k); }
  }

  lemma {:induction false} BatchRefines(h: Homes, w: SinkWorld, msgs: seq<Message>)
    requires SinkInv(h, w) && Delivered(w, msgs) && ApplyAll(w.db, msgs) != None
    ensures Refines(h, w.log, ApplyAll(w.db, msgs).value)
    ensures forall tp :: tp in w.pos ==> NextToRead(ApplyAll(w.db, msgs).value, tp) == w.pos[tp] + Count(msgs, tp)
  {
    if msgs != [] {
      var front, m := msgs[..|msgs| - 1], msgs[|msgs| - 1];
      BatchRefines(h, w, front);
      var db := ApplyAll(w.db, front).value;
      ApplyRefines(h, w.log, db, m);
      forall tp | tp in w.pos ensures NextToRead(ApplyRow(db, m), tp) == w.pos[tp] + Count(msgs, tp) {
        ReadMoves(w.log, db, m, tp);
      }
    }
  }

  // ------------------------------------------------------------------ a run

  lemma {:induction false} FoldsUnmoved(l: seq<Value>, v: Value, p: nat, ek: (string, nat), r: string,
                                        lk: (string, int), n: nat)
    requires n <= |l|
    ensures FirstEvent(l + [v], p, ek, n) == FirstEvent(l, p, ek, n)
    ensures RichestSession(l + [v], r, n) == RichestSession(l, r, n)
    ensures FirstPayment(l + [v], r, n) == FirstPayment(l, r, n)
    ensures FirstLocation(l + [v], lk, n) == FirstLocation(l, lk, n)
  {
    if n > 0 {
      FoldsUnmoved(l, v, p, ek, r, lk, n - 1);
    }
  }

  lemma ProduceRefines(h: Homes, log: SinkLog, db: Database, at: TopicPartition, v: Value)
    requires Refines(h, log, db)
    ensures Refines(h, log[at := PartOf(log, at) + [v]], db)
  {
    var log' := log[at := PartOf(log, at) + [v]];
    forall tp ensures AllAllowed(PartOf(log', tp), NextToRead(db, tp)) {
      assert AllAllowed(PartOf(log, tp), NextToRead(db, tp));
    }
    forall k ensures EventRefines(h, log', db, k) {
      var tp := (RidesEvents, h.ride(k.0));
      assert EventRefines(h, log, db, k);
      FoldsUnmoved(PartOf(log, tp), v, tp.1, k, "", ("", 0), NextToRead(db, tp));
    }
    forall r ensures SessionRefines(h, log', db, r) {
      assert SessionRefines(h, log, db, r);
      FoldsUnmoved(PartOf(log, (RidesSessions, h.session(r))), v, 0, ("", 0), r, ("", 0),
                   NextToRead(db, (RidesSessions, h.session(r))));
    }
    forall txn ensures PaymentRefines(h, log', db, txn) {
      assert PaymentRefines(h, log, db, txn);
      FoldsUnmoved(PartOf(log, (PaymentsTransactions, PaymentHome(h, txn))), v, 0, ("", 0), txn, ("", 0),
                   NextToRead(db, (PaymentsTransactions, PaymentHome(h, txn))));
    }
    forall k ensures LocationRefines(h, log', db, k) {
      assert LocationRefines(h, log, db, k);
      FoldsUnmoved(PartOf(log, (DriversLocations, h.driver(k.0))), v, 0, ("", 0), "", k,
                   NextToRead(db, (DriversLocations, h.driver(k.0))));
    }
  }

  lemma LogGrows(h: Homes, log: SinkLog, at: TopicPartition, v: Value)
    requires SinkLogOk(h, log) && AtHome(h, at, v)
    ensures SinkLogOk(h, log[at := PartOf(log, at) + [v]])
  {
    var log' := log[at := PartOf(log, at) + [v]];
    forall tp, i | 0 <= i < |PartOf(log', tp)| ensures AtHome(h, tp, PartOf(log', tp)[i]) {
      if i < |PartOf(log, tp)| {
        assert PartOf(log', tp)[i] == PartOf(log, tp)[i];
        assert AtHome(h, tp, PartOf(log, tp)[i]);
      }
    }
  }

  lemma SinkStepKeeps(h: Homes, w: SinkWorld, s: SinkStep)
    requires SinkInv(h, w) && SinkEnabled(h, w, s)
    ensures SinkInv(h, SinkTake(w, s))
  {
    hide Refines, ApplyAll, Delivered, NextToRead;
    match s
    case Produce(tp, v) =>
      ProduceRefines(h, w.log, w.db, tp, v);
      LogGrows(h, w.log, tp, v);
    case Batch(msgs, fate) =>
      if ApplyAll(w.db, msgs) != None { BatchRefines(h, w, msgs); }
    case _ =>
  }

  lemma {:induction false} SinkRunKeeps(h: Homes, ws: seq<SinkWorld>, steps: seq<SinkStep>, i: nat)
    requires SinkRun(h, ws, steps) && i < |ws| && ws[0] == SINK_START
    ensures SinkInv(h, ws[i])
  {
    if i > 0 {
      SinkRunKeeps(h, ws, steps, i - 1);
      SinkStepKeeps(h, ws[i - 1], steps[i - 1]);
      assert ws[i - 1 + 1] == SinkTake(ws[i - 1], steps[i - 1]);
    }
  }

  /** In every run with rollbacks, crashes and reassignments the tables are the
      one-shot folds of the prefixes up to the stored offsets. */
  lemma SinkRefinement(h: Homes, w: SinkWorld)
    requires SinkReachable(h, w)
    ensures SinkInv(h, w)
  {
    var ws, steps :| SinkRun(h, ws, steps) && ws[0] == SINK_START && ws[|ws| - 1] == w;
    SinkRunKeeps(h, ws, steps, |ws| - 1);
  }

  /** Two runs over one log that have stored the same offsets have the same
      tables: neither batch boundaries nor partition interleaving show. */
  lemma TablesAreDetermined(h: Homes, a: SinkWorld, b: SinkWorld)
    requires SinkReachable(h, a) && SinkReachable(h, b)
    requires a.log == b.log && a.db.offsets == b.db.offsets
    ensures a.db == b.db
  {
    SinkRefinement(h, a);
    SinkRefinement(h, b);
    assert forall tp :: NextToRead(a.db, tp) == NextToRead(b.db, tp);
    forall k ensures Lookup(a.db.events, k) == Lookup(b.db.events, k) {
      assert EventRefines(h, a.log, a.db, k) && EventRefines(h, b.log, b.db, k);
    }
    forall r ensures Lookup(a.db.sessions, r) == Lookup(b.db.sessions, r) {
      assert SessionRefines(h, a.log, a.db, r) && SessionRefines(h, b.log, b.db, r);
    }
    forall txn ensures Lookup(a.db.payments, txn) == Lookup(b.db.payments, txn) {
      assert PaymentRefines(h, a.log, a.db, txn) && PaymentRefines(h, b.log, b.db, txn);
    }
    forall k ensures Lookup(a.db.locations, k) == Lookup(b.db.locations, k) {
      assert LocationRefines(h, a.log, a.db, k) && LocationRefines(h, b.log, b.db, k);
    }
    SameLookups(a.db.events, b.db.events);
    SameLookups(a.db.sessions, b.db.sessions);
    SameLookups(a.db.payments, b.db.payments);
    SameLookups(a.db.locations, b.db.locations);
  }

  lemma SameLookups<K(!new), V>(a: map<K, V>, b: map<K, V>)
    requires forall k :: Lookup(a, k) == Lookup(b, k)
    ensures a == b
  {
    forall k ensures k in a <==> k in b { assert Lookup(a, k) == Lookup(b, k); }
    forall k | k in a ensures a[k] == b[k] { assert Lookup(a, k) == Lookup(b, k); }
  }
}
