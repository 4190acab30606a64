// The generator's Kafka transport (src/generator/producer.py) with its ledger of
// acknowledged ids, and the replay of dead letters (scripts/replay_dlq.py).
module Transport {

  import opened Wrappers
  import opened Lifecycle
  import opened SessionFold
  import opened Broker

  // ------------------------------------------------------------------- bytes

  /** Serialization is not modelled: any codec with a magic byte that brings back
      the events that fit its schema. */
  datatype Codec = Codec(fits: RideEvent -> bool, encode: RideEvent -> Bytes, decode: Bytes -> Option<RideEvent>)

  ghost predicate Framed(c: Codec) {
    && (forall e :: c.fits(e) ==> RoundTrips(c, e))
    && (forall b :: b == [] || b[0] != 0 ==> c.decode(b) == None)
  }

  ghost predicate RoundTrips(c: Codec, e: RideEvent) {
    |c.encode(e)| > 0 && c.encode(e)[0] == 0 && c.decode(c.encode(e)) == Some(e)
  }

  /** Whatever events are to be sent, some framed codec fits them all. */
  lemma FramedCodecExists(events: seq<RideEvent>)
    ensures Framed(Numbering(events)) && forall e :: e in events ==> Numbering(events).fits(e)
  {
    var c := Numbering(events);
    forall e | c.fits(e) ensures RoundTrips(c, e) {
      assert PlaceOf(events, e) < |events|;
    }
  }

  /** A codec that writes the place of the event in a list as that many zeros. */
  function Numbering(events: seq<RideEvent>): Codec {
    Codec(e => e in events,
          e => seq(1 + PlaceOf(events, e), i => 0),
          b => if b != [] && b[0] == 0 && |b| <= |events| then Some(events[|b| - 1]) else None)
  }

  function PlaceOf(events: seq<RideEvent>, e: RideEvent): (i: nat)
    ensures e in events ==> i < |events| && events[i] == e
  {
    if events == [] then 0 else if events[0] == e then 0 else 1 + PlaceOf(events[1..], e)
  }

  function Decode(c: Codec, b: Bytes): Payload {
    match c.decode(b)
    case Some(e) => Good(e)
    case None => Poison(b)
  }

  function CorruptPayload(b: Bytes): Bytes {
    [0xFF] + if b == [] then [] else b[1..]
  }

  function RepairMagicByte(b: Bytes): Bytes {
    if b == [] then b else [0x00] + b[1..]
  }

  /** Corrupt bytes never decode, and the repair brings the event back. */
  lemma RepairUndoesCorruption(c: Codec, e: RideEvent)
    requires Framed(c) && c.fits(e)
    ensures CorruptPayload(c.encode(e))[0] == 0xFF && CorruptPayload(c.encode(e))[1..] == c.encode(e)[1..]
    ensures Decode(c, CorruptPayload(c.encode(e))) == Poison(CorruptPayload(c.encode(e)))
    ensures Decode(c, RepairMagicByte(CorruptPayload(c.encode(e)))) == Good(e)
  {
    assert RoundTrips(c, e);
    var b := c.encode(e);
    assert CorruptPayload(b)[1..] == b[1..];
    assert [0x00] + b[1..] == b;
  }

  // ------------------------------------------------------------------- sends

  /** What the delivery callback has reported so far. */
  datatype Report = Awaited | Acked | Failed

  /** A produce call: whether the broker has the record, and what was reported. A
      record can be written although its report is still awaited or says failed. */
  datatype Delivery = Delivery(event: RideEvent, corrupt: bool, written: bool, report: Report)

  /** The broker acknowledges only what it has. */
  ghost predicate Honest(ds: seq<Delivery>) {
    forall d :: d in ds && d.report == Report.Acked ==> d.written
  }

  /** A framed codec that fits every event sent. */
  ghost predicate Sendable(c: Codec, ds: seq<Delivery>) {
    Framed(c) && forall d :: d in ds ==> c.fits(d.event)
  }

  function Wire(c: Codec, d: Delivery): Payload {
    Decode(c, if d.corrupt then CorruptPayload(c.encode(d.event)) else c.encode(d.event))
  }

  /** Partition `p` of the source topic after these sends. */
  function Topic(c: Codec, home: string -> nat, ds: seq<Delivery>, p: nat): seq<Payload> {
    if ds == [] then []
    else
      var d := ds[|ds| - 1];
      Topic(c, home, ds[..|ds| - 1], p) +
      (if d.written && home(d.event.rideId) == p then [Wire(c, d)] else [])
  }

  /** The id that a delivery puts in the manifest, if its report is an
      acknowledgement and it was not corrupted. */
  function LedgerId(d: Delivery): multiset<string> {
    if d.report == Report.Acked && !d.corrupt then multiset{d.event.eventId} else multiset{}
  }

  function Ledger(ds: seq<Delivery>): multiset<string> {
    if ds == [] then multiset{} else Ledger(ds[..|ds| - 1]) + LedgerId(ds[|ds| - 1])
  }

  function Reported(ds: seq<Delivery>, r: Report): nat {
    if ds == [] then 0 else Reported(ds[..|ds| - 1], r) + if ds[|ds| - 1].report == r then 1 else 0
  }

  function Corruptions(ds: seq<Delivery>): nat {
    if ds == [] then 0 else Corruptions(ds[..|ds| - 1]) + if ds[|ds| - 1].corrupt then 1 else 0
  }

  function WithReport(ds: seq<Delivery>, i: nat, r: Report): seq<Delivery>
    requires i < |ds|
  {
    ds[i := ds[i].(report := r)]
  }

  /** A report changes neither the topic nor the count of corruptions. */
  lemma {:induction false} ReportLeavesTopic(c: Codec, home: string -> nat, ds: seq<Delivery>, i: nat, r: Report,
                                             p: nat)
    requires i < |ds|
    ensures Topic(c, home, WithReport(ds, i, r), p) == Topic(c, home, ds, p)
    ensures Corruptions(WithReport(ds, i, r)) == Corruptions(ds)
  {
    var n := |ds| - 1;
    if i < n {
      ReportLeavesTopic(c, home, ds[..n], i, r, p);
      assert WithReport(ds, i, r)[..n] == WithReport(ds[..n], i, r);
    } else {
      assert WithReport(ds, i, r)[..n] == ds[..n];
    }
  }

  /** It moves one delivery from awaited to reported, in whatever order reports come. */
  lemma {:induction false} ReportCounts(ds: seq<Delivery>, i: nat, r: Report)
    requires i < |ds| && ds[i].report == Awaited && r != Awaited
    ensures forall x :: x != Awaited ==>
              Reported(WithReport(ds, i, r), x) == Reported(ds, x) + if x == r then 1 else 0
  {
    var n := |ds| - 1;
    if i < n {
      ReportCounts(ds[..n], i, r);
      assert WithReport(ds, i, r)[..n] == WithReport(ds[..n], i, r);
    } else {
      assert WithReport(ds, i, r)[..n] == ds[..n];
    }
  }

  lemma OtherOrder(a: multiset<string>, b: multiset<string>, c: multiset<string>)
    ensures a + b + c == a + c + b
  {
  }

  lemma {:induction false} ReportAddsId(ds: seq<Delivery>, i: nat, r: Report)
    requires i < |ds| && ds[i].report == Awaited
    ensures Ledger(WithReport(ds, i, r)) == Ledger(ds) + LedgerId(ds[i].(report := r))
  {
    var n := |ds| - 1;
    if i < n {
      ReportAddsId(ds[..n], i, r);
      assert WithReport(ds, i, r)[..n] == WithReport(ds[..n], i, r);
      assert WithReport(ds, i, r)[n] == ds[n];
      OtherOrder(Ledger(ds[..n]), LedgerId(ds[i].(report := r)), LedgerId(ds[n]));
      hide LedgerId, WithReport;
    } else {
      assert WithReport(ds, i, r)[..n] == ds[..n];
    }
  }

  lemma StaysHonest(ds: seq<Delivery>, i: nat, r: Report)
    requires Honest(ds) && i < |ds| && (r == Report.Acked ==> ds[i].written)
    ensures Honest(WithReport(ds, i, r))
  {
  }

  lemma SendMoves(c: Codec, home: string -> nat, ds: seq<Delivery>, d: Delivery, p: nat)
    requires d.report == Awaited
    ensures var ds' := ds + [d];
            && Topic(c, home, ds', p) ==
               Topic(c, home, ds, p) + (if d.written && home(d.event.rideId) == p then [Wire(c, d)] else [])
            && Corruptions(ds') == Corruptions(ds) + (if d.corrupt then 1 else 0)
            && Reported(ds', Report.Acked) == Reported(ds, Report.Acked)
            && Reported(ds', Report.Failed) == Reported(ds, Report.Failed)
            && Ledger(ds') == Ledger(ds)
  {
    assert (ds + [d])[..|ds|] == ds;
  }

  class KafkaTransport {
    const codec: Codec
    const home: string -> nat
    var topic: map<nat, seq<Payload>>
    var manifest: seq<string>
    var acked: nat
    var failed: nat
    var corrupted: nat
    ghost var sent: seq<Delivery>

    function Partition(p: nat): seq<Payload>
      reads this`topic
    {
      if p in topic then topic[p] else []
    }

    /** Counters, manifest and topic are those of the sends and their reports. */
    ghost predicate Valid()
      reads this
    {
      && (forall p :: Partition(p) == Topic(codec, home, sent, p))
      && multiset(manifest) == Ledger(sent)
      && acked == Reported(sent, Report.Acked) && failed == Reported(sent, Report.Failed)
      && corrupted == Corruptions(sent)
      && Honest(sent)
    }

    constructor (codec: Codec, home: string -> nat)
      ensures Valid() && sent == [] && this.codec == codec && this.home == home
    {
      this.codec, this.home := codec, home;
      topic, manifest, acked, failed, corrupted, sent := map[], [], 0, 0, 0, [];
    }

    /** Hands one record to the producer; the broker may or may not get it. */
    method Send(event: RideEvent, corrupt: bool, written: bool)
      requires Valid()
      modifies this
      ensures Valid() && sent == old(sent) + [Delivery(event, corrupt, written, Awaited)]
      ensures manifest == old(manifest) && acked == old(acked) && failed == old(failed)
    {
      hide Topic, Ledger, Reported, Corruptions;
      ghost var d := Delivery(event, corrupt, written, Awaited);
      var bytes := if corrupt then CorruptPayload(codec.encode(event)) else codec.encode(event);
      if corrupt {
        corrupted := corrupted + 1;
      }
      if written {
        var p := home(event.rideId);
        topic := topic[p := Partition(p) + [Decode(codec, bytes)]];
      }
      forall p ensures Partition(p) == Topic(codec, home, sent + [d], p) {
        SendMoves(codec, home, sent, d, p);
        assert Topic(codec, home, sent, p) + [] == Topic(codec, home, sent, p);
      }
      SendMoves(codec, home, sent, d, 0);
      sent := sent + [d];
    }

    /** The delivery callback of send `i`, at any later time and in any order. */
    method OnDelivery(err: bool, stableId: string, corrupt: bool, ghost i: nat)
      requires Valid() && i < |sent| && sent[i].report == Awaited && (!err ==> sent[i].written)
      requires sent[i].event.eventId == stableId && sent[i].corrupt == corrupt
      modifies this`acked, this`failed, this`manifest, this`sent
      ensures Valid() && sent == WithReport(old(sent), i, if err then Report.Failed else Report.Acked)
      ensures failed == old(failed) + if err then 1 else 0
      ensures acked == old(acked) + if err then 0 else 1
      ensures manifest == old(manifest) + if !err && !corrupt then [stableId] else []
    {
      hide Topic, Ledger, Reported, Corruptions, WithReport, Honest;
      ghost var r := if err then Report.Failed else Report.Acked;
      forall p ensures Topic(codec, home, WithReport(sent, i, r), p) == Topic(codec, home, sent, p) {
        ReportLeavesTopic(codec, home, sent, i, r, p);
      }
      ReportLeavesTopic(codec, home, sent, i, r, 0);
      ReportCounts(sent, i, r);
      ReportAddsId(sent, i, r);
      StaysHonest(sent, i, r);
      sent := WithReport(sent, i, r);
      if err {
        failed := failed + 1;
      } else {
        acked := acked + 1;
        if !corrupt {
          manifest := manifest + [stableId];
        }
      }
    }
  }

  // ------------------------------------------------------------------ replay

  datatype ReplayStats = ReplayStats(seen: nat, filteredOut: nat, replayed: nat, dryRun: bool)

  /** The payloads that replaying these envelopes writes to partition `p`: a
      replayed record keeps its key and with it its partition. */
  function Replayed(c: Codec, envs: seq<Envelope>, keep: Envelope -> bool, mend: Bytes -> Bytes, p: nat): seq<Payload> {
    if envs == [] then []
    else
      var e := envs[|envs| - 1];
      Replayed(c, envs[..|envs| - 1], keep, mend, p) +
      (if keep(e) && e.partition == p then [Decode(c, mend(e.raw))] else [])
  }

  function PayloadsOn(out: seq<(nat, Bytes)>, c: Codec, p: nat): seq<Payload> {
    if out == [] then []
    else
      var x := out[|out| - 1];
      PayloadsOn(out[..|out| - 1], c, p) + (if x.0 == p then [Decode(c, x.1)] else [])
  }

  method Replay(envs: seq<Envelope>, keep: Envelope -> bool, mend: Bytes -> Bytes, dryRun: bool)
    returns (stats: ReplayStats, out: seq<(nat, Bytes)>)
    ensures stats.seen == |envs| && stats.filteredOut + stats.replayed == stats.seen && stats.dryRun == dryRun
    ensures |out| == if dryRun then 0 else stats.replayed
    ensures !dryRun ==> forall c, p :: PayloadsOn(out, c, p) == Replayed(c, envs, keep, mend, p)
  {
    stats, out := ReplayStats(0, 0, 0, dryRun), [];
    for i := 0 to |envs|
      invariant stats.seen == i && stats.filteredOut + stats.replayed == i && stats.dryRun == dryRun
      invariant |out| == if dryRun then 0 else stats.replayed
      invariant !dryRun ==> forall c, p :: PayloadsOn(out, c, p) == Replayed(c, envs[..i], keep, mend, p)
    {
      assert envs[..i + 1][..i] == envs[..i];
      stats := stats.(seen := stats.seen + 1);
      if !keep(envs[i]) {
        stats := stats.(filteredOut := stats.filteredOut + 1);
        continue;
      }
      if !dryRun {
        var x := (envs[i].partition, mend(envs[i].raw));
        assert (out + [x])[..|out|] == out;
        out := out + [x];
      }
      stats := stats.(replayed := stats.replayed + 1);
    }
    assert envs[..|envs|] == envs;
  }
}
