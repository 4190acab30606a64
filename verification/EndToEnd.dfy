// The sessionizer and the Postgres sink composed: both read one source topic,
// and the sink reads the sessions the sessionizer commits.
module EndToEnd {

  import opened Wrappers
  import opened Lifecycle
  import opened SessionFold
  import opened FoldLaws
  import opened Events
  import opened PgSink
  import opened SinkProtocol
  import opened SinkGuarantees
  import Broker
  import Protocol
  import Guarantees

  type Setting = Protocol.Setting
  type World = Protocol.World

  /** One record of the source topic, as the sink's deserializer sees it. */
  function SourceValue(x: Broker.Payload): Value {
    match x
    case Good(e) => EventValue(e)
    case Poison(_) => Undecodable
  }

  /** Partition `q` of the sessions topic: the committed sessions keyed to it. */
  function SessionsTopic(home: string -> nat, sessions: seq<Session>, q: nat): seq<Value> {
    if sessions == [] then []
    else
      var s := sessions[|sessions| - 1];
      SessionsTopic(home, sessions[..|sessions| - 1], q) + (if home(s.rideId) == q then [SessionValue(s)] else [])
  }

  /** The sink's log is what the source topic and the sessionizer's topics hold. */
  ghost predicate Joined(st: Setting, h: Homes, w: World, sw: SinkWorld) {
    && h.ride == st.home
    && (forall p :: SourceJoined(w, sw, p))
    && (forall q :: PartOf(sw.log, (RidesSessions, q)) == SessionsTopic(h.session, w.local.broker.sessions, q))
  }

  ghost predicate SourceJoined(w: World, sw: SinkWorld, p: nat) {
    var l, m := Protocol.Part(w.log, p), PartOf(sw.log, (RidesEvents, p));
    |m| == |l| && forall i :: 0 <= i < |l| ==> m[i] == SourceValue(l[i])
  }

  predicate Drained(sw: SinkWorld, tp: TopicPartition) {
    NextToRead(sw.db, tp) == |PartOf(sw.log, tp)|
  }

  // ------------------------------------------------------------ session rows

  /** Ride `r`'s sessions among the first `n` records. */
  function Arrivals(l: seq<Value>, r: string, n: nat): seq<Session>
    requires n <= |l|
  {
    if n == 0 then []
    else Arrivals(l, r, n - 1) +
         (if l[n - 1].SessionValue? && l[n - 1].session.rideId == r then [l[n - 1].session] else [])
  }

  lemma {:induction false} ArrivalsGrow(l: seq<Value>, r: string, n: nat, m: nat)
    requires n <= m <= |l|
    ensures Arrivals(l, r, n) <= Arrivals(l, r, m)
  {
    if n < m {
      ArrivalsGrow(l, r, n, m - 1);
    }
  }

  lemma {:induction false} LoneArrival(l: seq<Value>, r: string, n: nat)
    requires n <= |l| && |Arrivals(l, r, n)| <= 1
    ensures RichestSession(l, r, n) == if Arrivals(l, r, n) == [] then None else Some(Arrivals(l, r, n)[0])
  {
    if n > 0 {
      ArrivalsGrow(l, r, n - 1, n);
      LoneArrival(l, r, n - 1);
    }
  }

  lemma {:induction false} ArrivalsUnmoved(l: seq<Value>, more: seq<Value>, r: string, n: nat)
    requires n <= |l|
    ensures Arrivals(l + more, r, n) == Arrivals(l, r, n)
  {
    if n > 0 {
      ArrivalsUnmoved(l, more, r, n - 1);
    }
  }

  lemma {:induction false} TopicHoldsSessions(home: string -> nat, sessions: seq<Session>, r: string)
    ensures var l := SessionsTopic(home, sessions, home(r));
            Arrivals(l, r, |l|) == Protocol.SessionsFor(sessions, r)
  {
    if sessions != [] {
      var front := sessions[..|sessions| - 1];
      TopicHoldsSessions(home, front, r);
      var l, l' := SessionsTopic(home, front, home(r)), SessionsTopic(home, sessions, home(r));
      ArrivalsUnmoved(l, l'[|l|..], r, |l|);
      assert l' == l + l'[|l|..];
    }
  }

  /** Every row of raw.ride_sessions is its ride's single committed session, in
      every column; once the partition is drained no committed session is missing. */
  lemma RowIsTheSession(st: Setting, h: Homes, w: World, sw: SinkWorld, r: string)
    requires Protocol.Reachable(st, w) && SinkReachable(h, sw) && Joined(st, h, w, sw)
    ensures r in sw.db.sessions ==> Protocol.SessionsFor(w.local.broker.sessions, r) == [sw.db.sessions[r]]
    ensures Drained(sw, (RidesSessions, h.session(r))) ==>
              (r in sw.db.sessions <==> Protocol.SessionsFor(w.local.broker.sessions, r) != [])
  {
    hide Protocol.Reachable, SinkReachable, SinkLogOk;
    var l, n := PartOf(sw.log, (RidesSessions, h.session(r))), NextToRead(sw.db, (RidesSessions, h.session(r)));
    Guarantees.ExactlyOnce(st, w, 0, r);
    SinkRefinement(h, sw);
    assert SessionRefines(h, sw.log, sw.db, r);
    assert l == SessionsTopic(h.session, w.local.broker.sessions, h.session(r));
    TopicHoldsSessions(h.session, w.local.broker.sessions, r);
    ArrivalsGrow(l, r, n, |l|);
    LoneArrival(l, r, n);
  }

  /** A row stands for its ride's whole log up to the close: the derivation of
      every decodable event at offsets up to the tag. */
  lemma RowIsDerived(st: Setting, h: Homes, w: World, sw: SinkWorld, r: string)
    requires Protocol.Reachable(st, w) && SinkReachable(h, sw) && Joined(st, h, w, sw)
    requires r in sw.db.sessions
    ensures sw.db.sessions[r].rideId == r
    ensures exists tag: nat :: Guarantees.DerivedAt(st, w, sw.db.sessions[r], tag)
  {
    RowIsTheSession(st, h, w, sw, r);
    SessionsForAreIn(w.local.broker.sessions, r, sw.db.sessions[r]);
    Guarantees.SessionsAreDerived(st, w, sw.db.sessions[r]);
  }

  lemma {:induction false} SessionsForAreIn(sessions: seq<Session>, r: string, s: Session)
    requires s in Protocol.SessionsFor(sessions, r)
    ensures s in sessions && s.rideId == r
  {
    var front := sessions[..|sessions| - 1];
    if s in Protocol.SessionsFor(front, r) {
      SessionsForAreIn(front, r, s);
    }
  }

  // --------------------------------------------------------- the constraints

  ghost predicate AllBuilt(log: SinkLog) {
    forall tp, i :: 0 <= i < |PartOf(log, tp)| && PartOf(log, tp)[i].EventValue? ==>
      GeneratorBuilt(PartOf(log, tp)[i].event)
  }

  lemma {:induction false} FirstEventIsThere(l: seq<Value>, p: nat, k: (string, nat), n: nat)
    requires n <= |l| && FirstEvent(l, p, k, n) != None
    ensures EventKey(FirstEvent(l, p, k, n).value) == k
    ensures exists i :: 0 <= i < n && l[i] == EventValue(FirstEvent(l, p, k, n).value.event)
  {
    if FirstEvent(l, p, k, n - 1) != None {
      FirstEventIsThere(l, p, k, n - 1);
    }
  }

  /** A table row comes from the stored prefix of its ride's partition. */
  lemma RowIsLogged(h: Homes, sw: SinkWorld, k: (string, nat))
    requires SinkInv(h, sw) && k in sw.db.events
    ensures EventKey(sw.db.events[k]) == k
    ensures var tp := (RidesEvents, h.ride(k.0));
            exists i :: 0 <= i < NextToRead(sw.db, tp) && i < |PartOf(sw.log, tp)|
                        && PartOf(sw.log, tp)[i] == EventValue(sw.db.events[k].event)
  {
    assert EventRefines(h, sw.log, sw.db, k);
    FirstEventIsThere(PartOf(sw.log, (RidesEvents, h.ride(k.0))), h.ride(k.0), k,
                      NextToRead(sw.db, (RidesEvents, h.ride(k.0))));
  }

  lemma EventIsAllowed(h: Homes, sw: SinkWorld, m: Message)
    requires SinkInv(h, sw) && AllBuilt(sw.log) && ReadsNext(sw.log, sw.db, m) && m.value.EventValue?
    ensures RowAllowed(sw.db, m)
  {
    var row := EventRow(m.value.event, m.tp.1, m.offset);
    assert GeneratorBuilt(PartOf(sw.log, m.tp)[m.offset].event);
    if EventKey(row) !in sw.db.events {
      forall k | k in sw.db.events ensures sw.db.events[k].event.eventId != row.event.eventId {
        RowIsLogged(h, sw, k);
        if sw.db.events[k].event.eventId == row.event.eventId {
          IdIsKey(sw.db.events[k].event, row.event);
        }
      }
    }
  }

  /** A committed session always has its rider and its city. */
  lemma SessionsAllowed(st: Setting, w: World, s: Session)
    requires Protocol.Reachable(st, w) && s in w.local.broker.sessions
    ensures SessionAllowed(s)
  {
    hide BuildSession, Fold;
    Guarantees.SessionsAreDerived(st, w, s);
    var tag: nat :| Guarantees.DerivedAt(st, w, s, tag);
    var events := Protocol.RideLog(Protocol.Part(w.log, st.home(s.rideId)), s.rideId, tag + 1);
    FoldEmpty(events);
    SessionHasRider(st.cfg.geo, s.rideId, events, TerminalOf(Fold(events)) == None);
  }

  lemma {:induction false} TopicIsOfSessions(home: string -> nat, sessions: seq<Session>, q: nat, i: nat)
    requires i < |SessionsTopic(home, sessions, q)|
    ensures SessionsTopic(home, sessions, q)[i].SessionValue?
    ensures SessionsTopic(home, sessions, q)[i].session in sessions
  {
    var front := sessions[..|sessions| - 1];
    if i < |SessionsTopic(home, front, q)| {
      TopicIsOfSessions(home, front, q, i);
    }
  }

  /** Neither the unique index on event_id nor a NOT NULL column ever refuses a
      delivered batch, so the sink never stalls on its own constraints. */
  lemma {:induction false} ConstraintsNeverFire(st: Setting, h: Homes, w: World, sw: SinkWorld, msgs: seq<Message>)
    requires Protocol.Reachable(st, w) && SinkReachable(h, sw) && Joined(st, h, w, sw)
    requires AllBuilt(sw.log) && Delivered(sw, msgs)
    ensures ApplyAll(sw.db, msgs) != None
  {
    hide Protocol.Reachable, SinkReachable, AllBuilt, Joined, Refines;
    if msgs != [] {
      var front, m := msgs[..|msgs| - 1], msgs[|msgs| - 1];
      ConstraintsNeverFire(st, h, w, sw, front);
      SinkRefinement(h, sw);
      BatchRefines(h, sw, front);
      var now := sw.(db := ApplyAll(sw.db, front).value, pos := map[]);
      match m.value
      case EventValue(_) => EventIsAllowed(h, now, m);
      case SessionValue(_) => DeliveredSession(st, h, w, sw, m);
      case _ =>
    }
  }

  lemma DeliveredSession(st: Setting, h: Homes, w: World, sw: SinkWorld, m: Message)
    requires Protocol.Reachable(st, w) && Joined(st, h, w, sw) && SinkInv(h, sw)
    requires m.Record? && m.offset < |PartOf(sw.log, m.tp)| && m.value == PartOf(sw.log, m.tp)[m.offset]
    requires m.value.SessionValue?
    ensures SessionAllowed(m.value.session)
  {
    hide Protocol.Reachable, Refines;
    assert AtHome(h, m.tp, PartOf(sw.log, m.tp)[m.offset]);
    TopicIsOfSessions(h.session, w.local.broker.sessions, m.tp.1, m.offset);
    SessionsAllowed(st, w, m.value.session);
  }

  // ---------------------------------------------------------------- event ids

  ghost predicate LoggedId(sw: SinkWorld, id: string) {
    exists p: nat, i :: LoggedAt(sw, id, p, i)
  }

  ghost predicate LoggedAt(sw: SinkWorld, id: string, p: nat, i: int) {
    var l := PartOf(sw.log, (RidesEvents, p));
    0 <= i < |l| && l[i].EventValue? && l[i].event.eventId == id
  }

  ghost predicate StoredId(db: Database, id: string) {
    exists k :: k in db.events && db.events[k].event.eventId == id
  }

  ghost predicate SourceDrained(sw: SinkWorld) {
    forall p: nat :: Drained(sw, (RidesEvents, p))
  }

  /** After draining, the ids in raw.rides_events are the ids in the source topic. */
  lemma DrainedIds(h: Homes, sw: SinkWorld, id: string)
    requires SinkReachable(h, sw) && AllBuilt(sw.log) && SourceDrained(sw)
    ensures StoredId(sw.db, id) <==> LoggedId(sw, id)
  {
    SinkRefinement(h, sw);
    if k :| k in sw.db.events && sw.db.events[k].event.eventId == id {
      RowIsLogged(h, sw, k);
      var i :| 0 <= i < |PartOf(sw.log, (RidesEvents, h.ride(k.0)))|
        && PartOf(sw.log, (RidesEvents, h.ride(k.0)))[i] == EventValue(sw.db.events[k].event);
      assert LoggedAt(sw, id, h.ride(k.0), i);
    }
    if p: nat, i :| LoggedAt(sw, id, p, i) {
      LoggedIsStored(h, sw, p, i);
    }
  }

  lemma LoggedIsStored(h: Homes, sw: SinkWorld, p: nat, i: nat)
    requires SinkInv(h, sw) && AllBuilt(sw.log) && Drained(sw, (RidesEvents, p))
    requires i < |PartOf(sw.log, (RidesEvents, p))| && PartOf(sw.log, (RidesEvents, p))[i].EventValue?
    ensures StoredId(sw.db, PartOf(sw.log, (RidesEvents, p))[i].event.eventId)
  {
    var l := PartOf(sw.log, (RidesEvents, p));
    var k := EventKey(EventRow(l[i].event, p, i));
    assert AtHome(h, (RidesEvents, p), l[i]);
    KeyWasSeen(l, p, i, |l|);
    assert EventRefines(h, sw.log, sw.db, k);
    RowIsLogged(h, sw, k);
    var j :| 0 <= j < |l| && l[j] == EventValue(sw.db.events[k].event);
    assert GeneratorBuilt(l[i].event) && GeneratorBuilt(l[j].event);
    IdIsKey(l[i].event, l[j].event);
  }
}
