// What the ledger of acknowledged ids and the dead-letter replay promise about
// raw.rides_events once the sink has drained the source topic.
module LedgerGuarantees {

  import opened Wrappers
  import opened Lifecycle
  import opened SessionFold
  import opened Events
  import opened Transport
  import opened EndToEnd
  import opened SinkGuarantees
  import Broker
  import Protocol
  import Guarantees
  import Sink = PgSink
  import SinkProtocol

  type Payload = Broker.Payload

  ghost predicate Values(l: seq<Payload>, m: seq<Sink.Value>) {
    |m| == |l| && forall i :: 0 <= i < |l| ==> m[i] == SourceValue(l[i])
  }

  /** Partition `p` of rides.events as the sink reads it. */
  function SourceOf(sw: SinkProtocol.SinkWorld, p: nat): seq<Sink.Value> {
    SinkProtocol.PartOf(sw.log, (Sink.RidesEvents, p))
  }

  ghost predicate Written(ds: seq<Delivery>, id: string) {
    exists d :: d in ds && d.written && d.event.eventId == id
  }

  ghost predicate WrittenIntact(ds: seq<Delivery>, id: string) {
    exists d :: d in ds && d.written && !d.corrupt && d.event.eventId == id
  }

  /** Written without corruption, yet not acknowledged: reported as failed, or awaited. */
  ghost predicate LostAck(ds: seq<Delivery>, id: string) {
    exists d :: d in ds && d.written && d.report != Report.Acked && !d.corrupt && d.event.eventId == id
  }

  // ------------------------------------------------------- ids in the topic

  lemma {:induction false} TopicEventWasSent(c: Codec, home: string -> nat, ds: seq<Delivery>, p: nat, e: RideEvent)
    requires Sendable(c, ds) && Broker.Good(e) in Topic(c, home, ds, p)
    ensures exists d :: d in ds && d.written && !d.corrupt && home(d.event.rideId) == p && d.event == e
  {
    var front, d := ds[..|ds| - 1], ds[|ds| - 1];
    RepairUndoesCorruption(c, d.event);
    if Broker.Good(e) in Topic(c, home, front, p) {
      TopicEventWasSent(c, home, front, p, e);
    } else {
      assert d in ds;
    }
  }

  lemma {:induction false} SentIsInTopic(c: Codec, home: string -> nat, ds: seq<Delivery>, d: Delivery)
    requires d in ds && d.written
    ensures Wire(c, d) in Topic(c, home, ds, home(d.event.rideId))
  {
    var front, last := ds[..|ds| - 1], ds[|ds| - 1];
    if d != last {
      assert ds == front + [last];
      SentIsInTopic(c, home, front, d);
    }
  }

  lemma {:induction false} LedgerHolds(ds: seq<Delivery>, id: string)
    ensures id in Ledger(ds) <==> exists d :: d in ds && d.report == Report.Acked && !d.corrupt && d.event.eventId == id
  {
    if ds != [] {
      LedgerHolds(ds[..|ds| - 1], id);
      assert ds == ds[..|ds| - 1] + [ds[|ds| - 1]];
    }
  }

  ghost predicate Reads(sw: SinkProtocol.SinkWorld, c: Codec, home: string -> nat, ds: seq<Delivery>) {
    forall p :: Values(Topic(c, home, ds, p), SourceOf(sw, p))
  }

  lemma LoggedIffWritten(c: Codec, home: string -> nat, ds: seq<Delivery>, sw: SinkProtocol.SinkWorld, id: string)
    requires Sendable(c, ds) && Reads(sw, c, home, ds)
    ensures LoggedId(sw, id) <==> WrittenIntact(ds, id)
  {
    if p: nat, i :| LoggedAt(sw, id, p, i) {
      var l := Topic(c, home, ds, p);
      assert Values(l, SourceOf(sw, p));
      TopicEventWasSent(c, home, ds, p, l[i].event);
    }
    if d :| d in ds && d.written && !d.corrupt && d.event.eventId == id {
      SentIsInTopic(c, home, ds, d);
      IntactDecodes(c, d);
      var p := home(d.event.rideId);
      assert Values(Topic(c, home, ds, p), SourceOf(sw, p));
      var i :| 0 <= i < |Topic(c, home, ds, p)| && Topic(c, home, ds, p)[i] == Broker.Good(d.event);
      assert LoggedAt(sw, id, p, i);
    }
  }

  lemma IntactDecodes(c: Codec, d: Delivery)
    requires Framed(c) && c.fits(d.event) && !d.corrupt
    ensures Wire(c, d) == Broker.Good(d.event)
  {
    assert RoundTrips(c, d.event);
  }

  ghost predicate SentBuilt(ds: seq<Delivery>) {
    forall d :: d in ds ==> GeneratorBuilt(d.event)
  }

  /** The source partitions hold only what the generator built. */
  ghost predicate SourceBuilt(sw: SinkProtocol.SinkWorld) {
    forall p: nat, i :: 0 <= i < |SourceOf(sw, p)| && SourceOf(sw, p)[i].EventValue? ==>
      GeneratorBuilt(SourceOf(sw, p)[i].event)
  }

  lemma BuiltEverywhere(h: SinkProtocol.Homes, sw: SinkProtocol.SinkWorld)
    requires SinkProtocol.SinkLogOk(h, sw.log) && SourceBuilt(sw)
    ensures AllBuilt(sw.log)
  {
    forall tp, i | 0 <= i < |SinkProtocol.PartOf(sw.log, tp)| && SinkProtocol.PartOf(sw.log, tp)[i].EventValue?
      ensures GeneratorBuilt(SinkProtocol.PartOf(sw.log, tp)[i].event)
    {
      assert SinkProtocol.AtHome(h, tp, SinkProtocol.PartOf(sw.log, tp)[i]);
      assert SourceOf(sw, tp.1) == SinkProtocol.PartOf(sw.log, tp);
    }
  }

  lemma TopicBuilt(c: Codec, home: string -> nat, ds: seq<Delivery>, sw: SinkProtocol.SinkWorld)
    requires Sendable(c, ds) && Reads(sw, c, home, ds) && SentBuilt(ds)
    ensures SourceBuilt(sw)
  {
    forall p: nat, i | 0 <= i < |SourceOf(sw, p)| && SourceOf(sw, p)[i].EventValue?
      ensures GeneratorBuilt(SourceOf(sw, p)[i].event)
    {
      var l := Topic(c, home, ds, p);
      assert Values(l, SourceOf(sw, p));
      TopicEventWasSent(c, home, ds, p, l[i].event);
    }
  }

  /** After draining, raw.rides_events holds exactly the ids in the manifest, and any
      written, uncorrupted one whose acknowledgement did not come; it is the manifest
      exactly when every such id is in the manifest too. */
  lemma DrainedIsLedger(h: SinkProtocol.Homes, t: KafkaTransport, sw: SinkProtocol.SinkWorld)
    requires SinkProtocol.SinkReachable(h, sw) && SourceDrained(sw)
    requires t.Valid() && t.home == h.ride && Sendable(t.codec, t.sent) && SentBuilt(t.sent)
    requires Reads(sw, t.codec, h.ride, t.sent)
    ensures forall id :: StoredId(sw.db, id) <==> id in t.manifest || LostAck(t.sent, id)
    ensures (forall id :: StoredId(sw.db, id) <==> id in t.manifest)
            <==> (forall id :: LostAck(t.sent, id) ==> id in t.manifest)
  {
    SinkProtocol.SinkRefinement(h, sw);
    TopicBuilt(t.codec, h.ride, t.sent, sw);
    BuiltEverywhere(h, sw);
    forall id ensures StoredId(sw.db, id) <==> id in t.manifest || LostAck(t.sent, id) {
      DrainedIds(h, sw, id);
      LoggedIffWritten(t.codec, h.ride, t.sent, sw, id);
      LedgerHolds(t.sent, id);
      assert id in t.manifest <==> id in multiset(t.manifest);
    }
  }

  // ------------------------------------------------------------------ replay

  lemma {:induction false} FirstEventExtends(a: seq<Sink.Value>, b: seq<Sink.Value>, p: nat, k: (string, nat), n: nat)
    requires a <= b && n <= |a|
    ensures SinkProtocol.FirstEvent(b, p, k, n) == SinkProtocol.FirstEvent(a, p, k, n)
  {
    if n > 0 {
      FirstEventExtends(a, b, p, k, n - 1);
    }
  }

  /** Records whose keys were all seen before add nothing. */
  lemma {:induction false} SeenAddNothing(a: seq<Sink.Value>, b: seq<Sink.Value>, p: nat, k: (string, nat), n: nat)
    requires a <= b && |a| <= n <= |b|
    requires forall e :: Sink.EventValue(e) in b ==> Sink.EventValue(e) in a
    ensures SinkProtocol.FirstEvent(b, p, k, n) == SinkProtocol.FirstEvent(a, p, k, |a|)
  {
    if n == |a| {
      FirstEventExtends(a, b, p, k, n);
    } else {
      SeenAddNothing(a, b, p, k, n - 1);
      if b[n - 1].EventValue? {
        assert b[n - 1] in b;
        var i :| 0 <= i < |a| && a[i] == b[n - 1];
        KeyWasSeen(a, p, i, |a|);
      }
    }
  }

  /** `b`'s source topic is `a`'s with more records that carry no new event. */
  ghost predicate OnlyRepeats(a: SinkProtocol.SinkWorld, b: SinkProtocol.SinkWorld) {
    && (forall p :: SourceOf(a, p) <= SourceOf(b, p))
    && (forall p, e :: Sink.EventValue(e) in SourceOf(b, p) ==> Sink.EventValue(e) in SourceOf(a, p))
  }

  lemma RepeatsAreInvisible(h: SinkProtocol.Homes, a: SinkProtocol.SinkWorld, b: SinkProtocol.SinkWorld)
    requires SinkProtocol.SinkReachable(h, a) && SinkProtocol.SinkReachable(h, b)
    requires SourceDrained(a) && SourceDrained(b) && OnlyRepeats(a, b)
    ensures a.db.events == b.db.events
  {
    SinkProtocol.SinkRefinement(h, a);
    SinkProtocol.SinkRefinement(h, b);
    forall k ensures Lookup(a.db.events, k) == Lookup(b.db.events, k) {
      var p := h.ride(k.0);
      assert SinkProtocol.EventRefines(h, a.log, a.db, k) && SinkProtocol.EventRefines(h, b.log, b.db, k);
      assert Drained(a, (Sink.RidesEvents, p)) && Drained(b, (Sink.RidesEvents, p));
      SeenAddNothing(SourceOf(a, p), SourceOf(b, p), p, k, |SourceOf(b, p)|);
    }
    SinkProtocol.SameLookups(a.db.events, b.db.events);
  }

  /** The source partition after `times` replays of the partition's dead letters. */
  function AfterReplays(c: Codec, l: seq<Payload>, dead: seq<Broker.Envelope>, p: nat, times: nat): seq<Payload> {
    if times == 0 then l
    else AfterReplays(c, l, dead, p, times - 1) + Replayed(c, dead, _ => true, RepairMagicByte, p)
  }

  ghost predicate ReadsReplayed(sw: SinkProtocol.SinkWorld, c: Codec, home: string -> nat, ds: seq<Delivery>,
                                dead: seq<Broker.Envelope>, times: nat) {
    forall p :: Values(AfterReplays(c, Topic(c, home, ds, p), dead, p, times), SourceOf(sw, p))
  }

  lemma {:induction false} ReplaysExtend(c: Codec, l: seq<Payload>, dead: seq<Broker.Envelope>, p: nat, times: nat)
    requires times >= 1
    ensures AfterReplays(c, l, dead, p, 1) <= AfterReplays(c, l, dead, p, times)
    ensures forall x ::
              x in AfterReplays(c, l, dead, p, times) <==>
              x in l || x in Replayed(c, dead, _ => true, RepairMagicByte, p)
  {
    assert AfterReplays(c, l, dead, p, 0) == l;
    if times > 1 {
      ReplaysExtend(c, l, dead, p, times - 1);
    }
  }

  /** Replaying the dead letters once or more leaves raw.rides_events the same. */
  lemma ReplayOnceIsEnough(h: SinkProtocol.Homes, c: Codec, ds: seq<Delivery>, dead: seq<Broker.Envelope>, times: nat,
                           a: SinkProtocol.SinkWorld, b: SinkProtocol.SinkWorld)
    requires SinkProtocol.SinkReachable(h, a) && SinkProtocol.SinkReachable(h, b)
    requires SourceDrained(a) && SourceDrained(b) && times >= 1
    requires ReadsReplayed(a, c, h.ride, ds, dead, 1) && ReadsReplayed(b, c, h.ride, ds, dead, times)
    ensures a.db.events == b.db.events
  {
    forall p ensures SourceOf(a, p) <= SourceOf(b, p)
      ensures forall e :: Sink.EventValue(e) in SourceOf(b, p) ==> Sink.EventValue(e) in SourceOf(a, p)
    {
      var l := Topic(c, h.ride, ds, p);
      ReplaysExtend(c, l, dead, p, times);
      ReplaysExtend(c, l, dead, p, 1);
      var la, lb := AfterReplays(c, l, dead, p, 1), AfterReplays(c, l, dead, p, times);
      assert Values(la, SourceOf(a, p)) && Values(lb, SourceOf(b, p));
      forall e | Sink.EventValue(e) in SourceOf(b, p) ensures Sink.EventValue(e) in SourceOf(a, p) {
        ValueHolds(lb, SourceOf(b, p), e);
        ValueHolds(la, SourceOf(a, p), e);
      }
    }
    RepeatsAreInvisible(h, a, b);
  }

  lemma ValueHolds(l: seq<Payload>, m: seq<Sink.Value>, e: RideEvent)
    requires Values(l, m)
    ensures Sink.EventValue(e) in m <==> Broker.Good(e) in l
  {
    if Broker.Good(e) in l {
      var i :| 0 <= i < |l| && l[i] == Broker.Good(e);
      assert m[i] == Sink.EventValue(e);
    }
  }

  // -------------------------------------------------- the loop, closed

  lemma {:induction false} TopicPoisonWasSent(c: Codec, home: string -> nat, ds: seq<Delivery>, p: nat,
                                              raw: Broker.Bytes)
    requires Sendable(c, ds) && Broker.Poison(raw) in Topic(c, home, ds, p)
    ensures exists d :: d in ds && d.written && d.corrupt && home(d.event.rideId) == p
                        && raw == CorruptPayload(c.encode(d.event))
  {
    var front, d := ds[..|ds| - 1], ds[|ds| - 1];
    RepairUndoesCorruption(c, d.event);
    if Broker.Poison(raw) in Topic(c, home, front, p) {
      TopicPoisonWasSent(c, home, front, p, raw);
    } else {
      assert d in ds;
    }
  }

  lemma {:induction false} DeadLettersHold(p: nat, l: seq<Payload>, n: nat, raw: Broker.Bytes)
    requires n <= |l|
    ensures (exists x :: x in Protocol.DeadLetters(p, l, n) && x.raw == raw) <==> Broker.Poison(raw) in l[..n]
    ensures forall x :: x in Protocol.DeadLetters(p, l, n) ==> x.partition == p
  {
    if n > 0 {
      DeadLettersHold(p, l, n - 1, raw);
      assert l[..n] == l[..n - 1] + [l[n - 1]];
      if x :| x in Protocol.DeadLetters(p, l, n) && x.raw == raw {
        if x !in Protocol.DeadLetters(p, l, n - 1) { assert l[n - 1] == Broker.Poison(raw); }
      }
      if l[n - 1] == Broker.Poison(raw) {
        assert Broker.Envelope(p, n - 1, raw) in Protocol.DeadLetters(p, l, n);
      }
    }
  }

  lemma {:induction false} ReplayedHolds(c: Codec, dead: seq<Broker.Envelope>, p: nat, x: Payload)
    ensures x in Replayed(c, dead, _ => true, RepairMagicByte, p)
            <==> exists e :: e in Protocol.DeadOn(dead, p) && Decode(c, RepairMagicByte(e.raw)) == x
  {
    if dead != [] {
      ReplayedHolds(c, dead[..|dead| - 1], p, x);
      assert dead == dead[..|dead| - 1] + [dead[|dead| - 1]];
    }
  }

  /** A replay of the sessionizer's dead letters brings back exactly the events
      whose records were corrupted on the wire. */
  lemma ReplayRepairs(c: Codec, home: string -> nat, ds: seq<Delivery>, dead: seq<Broker.Envelope>, p: nat,
                      e: RideEvent)
    requires Sendable(c, ds)
    requires Protocol.DeadOn(dead, p) == Protocol.DeadLetters(p, Topic(c, home, ds, p), |Topic(c, home, ds, p)|)
    ensures Broker.Good(e) in Replayed(c, dead, _ => true, RepairMagicByte, p)
            <==> exists d :: d in ds && d.written && d.corrupt && home(d.event.rideId) == p && d.event == e
  {
    var l := Topic(c, home, ds, p);
    assert l[..|l|] == l;
    ReplayedHolds(c, dead, p, Broker.Good(e));
    if x :| x in Protocol.DeadOn(dead, p) && Decode(c, RepairMagicByte(x.raw)) == Broker.Good(e) {
      DeadLettersHold(p, l, |l|, x.raw);
      TopicPoisonWasSent(c, home, ds, p, x.raw);
      var d :| d in ds && d.written && d.corrupt && home(d.event.rideId) == p
        && x.raw == CorruptPayload(c.encode(d.event));
      RepairUndoesCorruption(c, d.event);
    }
    if d :| d in ds && d.written && d.corrupt && home(d.event.rideId) == p && d.event == e {
      RepairUndoesCorruption(c, e);
      SentIsInTopic(c, home, ds, d);
      DeadLettersHold(p, l, |l|, CorruptPayload(c.encode(e)));
    }
  }

  /** Poison, dead letter, repair, replay: once the sessionizer has committed the
      whole source topic and its dead letters are replayed, the drained table
      holds the ids of all written sends, corrupted or not. */
  lemma ReplayClosesTheLoop(st: Protocol.Setting, h: SinkProtocol.Homes, c: Codec, ds: seq<Delivery>, w: Protocol.World,
                            times: nat, sw: SinkProtocol.SinkWorld, id: string)
    requires Protocol.Reachable(st, w) && SinkProtocol.SinkReachable(h, sw) && SourceDrained(sw)
    requires Sendable(c, ds) && SentBuilt(ds) && times >= 1 && st.home == h.ride
    requires forall p :: Protocol.Part(w.log, p) == Topic(c, h.ride, ds, p)
    requires forall p :: Broker.Resume(w.local.broker, p) == |Protocol.Part(w.log, p)|
    requires ReadsReplayed(sw, c, h.ride, ds, w.local.broker.dead, times)
    ensures StoredId(sw.db, id) <==> Written(ds, id)
  {
    hide Protocol.Reachable, SinkProtocol.SinkReachable, SinkProtocol.Refines, Framed;
    SinkProtocol.SinkRefinement(h, sw);
    forall p, e ensures Sink.EventValue(e) in SourceOf(sw, p) <==> SentOn(ds, h.ride, p, e) {
      SourceAfterReplays(st, h, c, ds, w, times, sw, p, e);
    }
    BuiltAfterReplays(h, ds, sw);
    BuiltEverywhere(h, sw);
    DrainedIds(h, sw, id);
    if p: nat, i :| LoggedAt(sw, id, p, i) {
      assert SourceOf(sw, p)[i] in SourceOf(sw, p);
      assert SentOn(ds, h.ride, p, SourceOf(sw, p)[i].event);
    }
    if d :| d in ds && d.written && d.event.eventId == id {
      var p := h.ride(d.event.rideId);
      assert SentOn(ds, h.ride, p, d.event);
      var i :| 0 <= i < |SourceOf(sw, p)| && SourceOf(sw, p)[i] == Sink.EventValue(d.event);
      assert LoggedAt(sw, id, p, i);
    }
  }

  ghost predicate SentOn(ds: seq<Delivery>, home: string -> nat, p: nat, e: RideEvent) {
    exists d :: d in ds && d.written && home(d.event.rideId) == p && d.event == e
  }

  lemma BuiltAfterReplays(h: SinkProtocol.Homes, ds: seq<Delivery>, sw: SinkProtocol.SinkWorld)
    requires SentBuilt(ds)
    requires forall p, e :: Sink.EventValue(e) in SourceOf(sw, p) <==> SentOn(ds, h.ride, p, e)
    ensures SourceBuilt(sw)
  {
    forall p: nat, i | 0 <= i < |SourceOf(sw, p)| && SourceOf(sw, p)[i].EventValue?
      ensures GeneratorBuilt(SourceOf(sw, p)[i].event)
    {
      assert SourceOf(sw, p)[i] in SourceOf(sw, p);
      assert SentOn(ds, h.ride, p, SourceOf(sw, p)[i].event);
    }
  }

  lemma SourceAfterReplays(st: Protocol.Setting, h: SinkProtocol.Homes, c: Codec, ds: seq<Delivery>, w: Protocol.World,
                           times: nat, sw: SinkProtocol.SinkWorld, p: nat, e: RideEvent)
    requires Protocol.Reachable(st, w) && Sendable(c, ds) && times >= 1 && st.home == h.ride
    requires Protocol.Part(w.log, p) == Topic(c, h.ride, ds, p)
    requires Broker.Resume(w.local.broker, p) == |Protocol.Part(w.log, p)|
    requires ReadsReplayed(sw, c, h.ride, ds, w.local.broker.dead, times)
    ensures Sink.EventValue(e) in SourceOf(sw, p) <==> SentOn(ds, h.ride, p, e)
  {
    hide Protocol.Reachable;
    var l, dead := Topic(c, h.ride, ds, p), w.local.broker.dead;
    Guarantees.ExactlyOnce(st, w, p, "");
    ReplayRepairs(c, h.ride, ds, dead, p, e);
    ReplaysExtend(c, l, dead, p, times);
    assert Values(AfterReplays(c, l, dead, p, times), SourceOf(sw, p));
    ValueHolds(AfterReplays(c, l, dead, p, times), SourceOf(sw, p), e);
    if Broker.Good(e) in l { TopicEventWasSent(c, h.ride, ds, p, e); }
    if d :| d in ds && d.written && h.ride(d.event.rideId) == p && d.event == e && !d.corrupt {
      SentIsInTopic(c, h.ride, ds, d);
      IntactDecodes(c, d);
    }
  }
}
