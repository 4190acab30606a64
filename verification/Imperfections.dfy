// The imperfection layer (src/generator/imperfections.py): duplicates, holds,
// corruption and half-filled records, one exclusive bucket per ride event.
module Imperfections {

  import opened Wrappers
  import opened Lifecycle
  import opened SessionFold
  import opened PgSink
  import opened Events
  import opened Draws
  import opened Holding

  datatype Rates = Rates(
    malformed: real, dup: real, ooo: real, late: real, nullField: real, badData: real,
    oooMaxSkewSec: real, lateMaxSec: real)

  /** All rates zero, as `perfect()` sets them. */
  predicate Perfect(r: Rates) {
    r.malformed == 0.0 && r.dup == 0.0 && r.ooo == 0.0 && r.late == 0.0 && r.nullField == 0.0 && r.badData == 0.0
  }

  datatype Stats = Stats(
    duplicate: nat, outOfOrder: nat, late: nat, malformed: nat, nullField: nat, badData: nat, clean: nat)

  /** How many events the buckets have counted. */
  function Bucketed(s: Stats): nat {
    s.duplicate + s.outOfOrder + s.late + s.malformed + s.clean
  }

  // ----------------------------------------------------------------- variants

  function PlainAll(es: seq<SourceEvent>): seq<SourceEvent> {
    seq(|es|, i requires 0 <= i < |es| => Plain(es[i]))
  }

  function Bag(es: seq<SourceEvent>): multiset<SourceEvent> {
    multiset(PlainAll(es))
  }

  lemma BagConcat(a: seq<SourceEvent>, b: seq<SourceEvent>)
    ensures Bag(a + b) == Bag(a) + Bag(b)
  {
    assert PlainAll(a + b) == PlainAll(a) + PlainAll(b);
  }

  lemma BagOne(e: SourceEvent)
    ensures Bag([e]) == multiset{Plain(e)} && Bag([]) == multiset{}
  {
    assert PlainAll([e]) == [Plain(e)];
  }

  function NullFields(e: RideEvent): RideEvent {
    e.(dropoffLat := None, dropoffLon := None)
  }

  /** Coordinates outside any city and a negative fare. */
  function BadData(e: RideEvent): RideEvent {
    e.(pickupLat := 99.9, pickupLon := 199.9,
    fareCents :=
      match e.fareCents
      case None => None
      case Some(cents) => Some(if cents > 0 then -cents else cents))
  }

  /** What each change does to the columns, and that it touches no other. */
  lemma ChangedColumns(e: RideEvent)
    ensures var v := NullFields(e);
            && v.dropoffLat == None && v.dropoffLon == None
            && v.(dropoffLat := e.dropoffLat, dropoffLon := e.dropoffLon) == e
    ensures var v := BadData(e);
            && v.pickupLat == 99.9 && v.pickupLon == 199.9
            && (v.fareCents == None <==> e.fareCents == None)
            && (v.fareCents != None ==>
                  v.fareCents.value <= 0 && v.fareCents.value in {e.fareCents.value, -e.fareCents.value})
            && v.(pickupLat := e.pickupLat, pickupLon := e.pickupLon, fareCents := e.fareCents) == e
  {
  }

  /** `v` is `e` as it may leave the field-level imperfections. */
  ghost predicate Variant(e: SourceEvent, v: SourceEvent) {
    match e
    case RideSource(ev, c) =>
      v in {RideSource(ev, c), RideSource(BadData(ev), c)}
      || (ev.kind == Requested && v in {RideSource(NullFields(ev), c), RideSource(BadData(NullFields(ev)), c)})
    case _ => v == e
  }

  // ------------------------------------------------------------------ buckets

  datatype Bucket = Malformed | Duplicate | OutOfOrder | Late | Clean

  /** One roll against cumulative thresholds. */
  function PickBucket(r: Rates, roll: real): Bucket {
    if roll < r.malformed then Malformed
    else if roll < r.malformed + r.dup then Duplicate
    else if roll < r.malformed + r.dup + r.ooo then OutOfOrder
    else if roll < r.malformed + r.dup + r.ooo + r.late then Late
    else Clean
  }

  function RateOf(r: Rates, b: Bucket): real {
    match b
    case Malformed => r.malformed
    case Duplicate => r.dup
    case OutOfOrder => r.ooo
    case Late => r.late
    case Clean => 1.0 - r.malformed - r.dup - r.ooo - r.late
  }

  /** The bucket holds exactly the rolls of this interval. */
  ghost predicate Takes(r: Rates, b: Bucket, low: real, high: real) {
    && 0.0 <= low <= high <= 1.0
    && forall roll :: 0.0 <= roll < 1.0 ==> (PickBucket(r, roll) == b <==> low <= roll < high)
  }

  /** The rolls that fall in a bucket are an interval as wide as its rate, so each
      configured rate is an exact share and the buckets do not overlap. */
  lemma RatesAreExact(r: Rates, b: Bucket)
    requires forall x: Bucket :: RateOf(r, x) >= 0.0
    ensures exists low, high :: Takes(r, b, low, high) && high - low == RateOf(r, b)
  {
    assert RateOf(r, Malformed) >= 0.0 && RateOf(r, Duplicate) >= 0.0 && RateOf(r, OutOfOrder) >= 0.0;
    assert RateOf(r, Late) >= 0.0 && RateOf(r, Clean) >= 0.0;
    var low :=
      match b
      case Malformed => 0.0
      case Duplicate => r.malformed
      case OutOfOrder => r.malformed + r.dup
      case Late => r.malformed + r.dup + r.ooo
      case Clean => r.malformed + r.dup + r.ooo + r.late;
    assert Takes(r, b, low, low + RateOf(r, b));
  }

  /** The bucket is one that a roll can give the event: payments are only ever
      malformed or clean, locations always clean. */
  ghost predicate CanFall(r: Rates, e: SourceEvent, b: Bucket) {
    match e
    case RideSource(_, _) => exists roll :: 0.0 <= roll < 1.0 && PickBucket(r, roll) == b
    case PaymentSource(_, _) => (b == Malformed || b == Clean) && Possible(r.malformed, b == Malformed)
    case LocationSource(_) => b == Clean
  }

  /** What a bucket emits at once. */
  function EmittedBy(b: Bucket, e: SourceEvent): seq<SourceEvent> {
    match b
    case Malformed => [Corrupted(e)]
    case Duplicate => [e]
    case Clean => [e]
    case _ => []
  }

  /** What a bucket holds back. */
  function HeldBy(b: Bucket, e: SourceEvent, dueMs: int): seq<(int, SourceEvent)> {
    if b == Malformed || b == Clean then [] else [(dueMs, e)]
  }

  /** A duplicate follows within 10 seconds; an out-of-order event within the
      maximal skew, a late one beyond it, when the configured ranges are in order. */
  ghost predicate DelayOk(r: Rates, b: Bucket, delayMs: int) {
    match b
    case Duplicate => 1000 <= delayMs <= 10000
    case OutOfOrder => 1.0 <= r.oooMaxSkewSec ==> 1000 <= delayMs <= Millis(r.oooMaxSkewSec)
    case Late =>
      r.oooMaxSkewSec + 1.0 <= r.lateMaxSec ==> Millis(r.oooMaxSkewSec + 1.0) <= delayMs <= Millis(r.lateMaxSec)
    case _ => true
  }

  function Counted(s: Stats, b: Bucket): Stats {
    match b
    case Malformed => s.(malformed := s.malformed + 1)
    case Duplicate => s.(duplicate := s.duplicate + 1)
    case OutOfOrder => s.(outOfOrder := s.outOfOrder + 1)
    case Late => s.(late := s.late + 1)
    case Clean => s.(clean := s.clean + 1)
  }

  // ------------------------------------------------------------------ history

  /** A held event that went out at `atMs`. */
  datatype Release = Release(dueMs: int, atMs: int, event: SourceEvent)

  /** Every event taken in, after field changes, with its bucket; everything emitted;
      and every release from the hold. */
  datatype History = History(
    made: seq<SourceEvent>, buckets: seq<Bucket>, sent: seq<SourceEvent>, releases: seq<Release>)

  /** The events of one bucket, in order. */
  function InBucket(made: seq<SourceEvent>, buckets: seq<Bucket>, b: Bucket): seq<SourceEvent>
    requires |made| == |buckets|
  {
    if made == [] then []
    else
      var n := |made| - 1;
      InBucket(made[..n], buckets[..n], b) + (if buckets[n] == b then [made[n]] else [])
  }

  /** The injected duplicates: one copy of each event in the duplicate bucket. */
  function CopiesOf(made: seq<SourceEvent>, buckets: seq<Bucket>): seq<SourceEvent>
    requires |made| == |buckets|
  {
    InBucket(made, buckets, Duplicate)
  }

  predicate Flagged(e: SourceEvent) {
    match e
    case RideSource(_, corrupt) => corrupt
    case PaymentSource(_, corrupt) => corrupt
    case LocationSource(_) => false
  }

  /** The events emitted with the corruption flag, here without it, in order. */
  function CorruptIn(es: seq<SourceEvent>): seq<SourceEvent> {
    if es == [] then []
    else
      var last := es[|es| - 1];
      CorruptIn(es[..|es| - 1]) + (if Flagged(last) then [Plain(last)] else [])
  }

  lemma {:induction false} CorruptConcat(a: seq<SourceEvent>, b: seq<SourceEvent>)
    ensures CorruptIn(a + b) == CorruptIn(a) + CorruptIn(b)
  {
    if b == [] {
      assert a + b == a;
    } else {
      CorruptConcat(a, b[..|b| - 1]);
      assert (a + b)[..|a + b| - 1] == a + b[..|b| - 1];
    }
  }

  lemma {:induction false} NoneCorrupt(es: seq<SourceEvent>)
    requires forall e :: e in es ==> Plain(e) == e
    ensures CorruptIn(es) == []
  {
    if es != [] {
      NoneCorrupt(es[..|es| - 1]);
      assert es[|es| - 1] in es;
    }
  }

  function Tally(buckets: seq<Bucket>, b: Bucket): nat {
    if buckets == [] then 0 else Tally(buckets[..|buckets| - 1], b) + if buckets[|buckets| - 1] == b then 1 else 0
  }

  lemma {:induction false} BucketIsCounted(made: seq<SourceEvent>, buckets: seq<Bucket>, b: Bucket)
    requires |made| == |buckets|
    ensures |InBucket(made, buckets, b)| == Tally(buckets, b) <= |made|
    ensures forall e :: e in InBucket(made, buckets, b) ==>
              exists i :: 0 <= i < |made| && made[i] == e && buckets[i] == b
  {
    if made != [] {
      var n := |made| - 1;
      BucketIsCounted(made[..n], buckets[..n], b);
      forall e | e in InBucket(made, buckets, b)
        ensures exists i :: 0 <= i < |made| && made[i] == e && buckets[i] == b
      {
        if e in InBucket(made[..n], buckets[..n], b) {
          var i :| 0 <= i < n && made[..n][i] == e && buckets[..n][i] == b;
          assert made[i] == e && buckets[i] == b;
        }
      }
    }
  }

  /** There are as many duplicates as the duplicate bucket counted, each of an event
      taken in. */
  lemma CopiesAreCounted(made: seq<SourceEvent>, buckets: seq<Bucket>)
    requires |made| == |buckets|
    ensures |CopiesOf(made, buckets)| == Tally(buckets, Duplicate) <= |made|
    ensures forall e :: e in CopiesOf(made, buckets) ==>
              exists i :: 0 <= i < |made| && made[i] == e && buckets[i] == Duplicate
  {
    BucketIsCounted(made, buckets, Duplicate);
  }

  function ReleasesAt(due: seq<(int, SourceEvent)>, nowMs: int): seq<Release> {
    seq(|due|, i requires 0 <= i < |due| => Release(due[i].0, nowMs, due[i].1))
  }

  /** Conservation: what was emitted, corruption aside, and what is held is what came
      in and one copy of each duplicated event. */
  ghost predicate Conserved(h: History, held: seq<(int, SourceEvent)>)
    requires |h.made| == |h.buckets|
  {
    Bag(h.sent) + multiset(ItemsOf(held)) == multiset(h.made) + multiset(CopiesOf(h.made, h.buckets))
  }

  /** What goes out corrupt is, event by event, the malformed bucket. */
  ghost predicate Marked(h: History)
    requires |h.made| == |h.buckets|
  {
    CorruptIn(h.sent) == InBucket(h.made, h.buckets, Malformed)
  }

  /** The counters count the buckets, and whatever was held was released or is held. */
  ghost predicate CountersOk(h: History, heldCount: nat, s: Stats) {
    && s.duplicate == Tally(h.buckets, Duplicate) && s.outOfOrder == Tally(h.buckets, OutOfOrder)
    && s.late == Tally(h.buckets, Late) && s.malformed == Tally(h.buckets, Malformed)
    && |h.releases| + heldCount == s.duplicate + s.outOfOrder + s.late
  }

  /** Only ride events are ever held, none is released early, and locations and
      payments go out in the order they came in. */
  ghost predicate OrderOk(h: History, held: seq<(int, SourceEvent)>) {
    && (forall p :: p in held ==> p.1.RideSource? && Plain(p.1) == p.1)
    && (forall x :: x in h.releases ==> x.dueMs <= x.atMs)
    && LocationsIn(h.sent) == LocationsIn(h.made) && PaymentsIn(h.sent) == PaymentsIn(h.made)
  }

  ghost predicate HistoryOk(r: Rates, h: History, held: seq<(int, SourceEvent)>, s: Stats) {
    && |h.made| == |h.buckets|
    && Conserved(h, held) && Marked(h)
    && (forall e :: e in h.made ==> Plain(e) == e)
    && CountersOk(h, |held|, s)
    && OrderOk(h, held)
    && (Perfect(r) ==> held == [] && h.sent == h.made)
  }

  function TakenIn(h: History, v: SourceEvent, b: Bucket): History {
    History(h.made + [v], h.buckets + [b], h.sent + EmittedBy(b, v), h.releases)
  }

  function Released(h: History, due: seq<(int, SourceEvent)>, nowMs: int): History {
    h.(sent := h.sent + ItemsOf(due), releases := h.releases + ReleasesAt(due, nowMs))
  }

  // ------------------------------------------------------- history is kept

  lemma BucketBags(b: Bucket, v: SourceEvent, dueMs: int)
    requires Plain(v) == v
    ensures Bag(EmittedBy(b, v)) + multiset(ItemsOf(HeldBy(b, v, dueMs)))
            == multiset{v} + if b == Duplicate then multiset{v} else multiset{}
  {
    BagOne(v);
    BagOne(Corrupted(v));
    assert ItemsOf(HeldBy(b, v, dueMs)) == if b == Malformed || b == Clean then [] else [v];
  }

  lemma SumsMatch<T>(sent: multiset<T>, out: multiset<T>, held: multiset<T>, more: multiset<T>,
                     made: multiset<T>, copies: multiset<T>, one: multiset<T>, dup: multiset<T>)
    requires sent + held == made + copies && out + more == one + dup
    ensures (sent + out) + (held + more) == (made + one) + (copies + dup)
  {
    forall e: T ensures ((sent + out) + (held + more))[e] == ((made + one) + (copies + dup))[e] {
      assert (sent + held)[e] == (made + copies)[e] && (out + more)[e] == (one + dup)[e];
    }
  }

  lemma TakeInConserves(h: History, held: seq<(int, SourceEvent)>, v: SourceEvent, b: Bucket, dueMs: int)
    requires |h.made| == |h.buckets| && Conserved(h, held) && Plain(v) == v
    ensures Conserved(TakenIn(h, v, b), held + HeldBy(b, v, dueMs))
  {
    hide Bag, Plain;
    var n, more := |h.made|, HeldBy(b, v, dueMs);
    assert (h.made + [v])[..n] == h.made && (h.buckets + [b])[..n] == h.buckets;
    BagConcat(h.sent, EmittedBy(b, v));
    ItemsOfConcat(held, more);
    BucketBags(b, v, dueMs);
    var dup := if b == Duplicate then [v] else [];
    assert CopiesOf(h.made + [v], h.buckets + [b]) == CopiesOf(h.made, h.buckets) + dup;
    SumsMatch(Bag(h.sent), Bag(EmittedBy(b, v)), multiset(ItemsOf(held)), multiset(ItemsOf(more)),
              multiset(h.made), multiset(CopiesOf(h.made, h.buckets)), multiset{v}, multiset(dup));
  }

  lemma TakeInMarks(h: History, v: SourceEvent, b: Bucket)
    requires |h.made| == |h.buckets| && Marked(h) && Plain(v) == v
    requires v.LocationSource? ==> b == Clean
    ensures Marked(TakenIn(h, v, b))
  {
    var n, out := |h.made|, EmittedBy(b, v);
    assert (h.made + [v])[..n] == h.made && (h.buckets + [b])[..n] == h.buckets;
    CorruptConcat(h.sent, out);
    assert out != [] ==> out[..0] == [];
  }

  lemma TakeInOrder(h: History, held: seq<(int, SourceEvent)>, v: SourceEvent, b: Bucket, dueMs: int)
    requires OrderOk(h, held) && Plain(v) == v
    requires !v.RideSource? ==> b == Clean || (b == Malformed && v.PaymentSource?)
    ensures OrderOk(TakenIn(h, v, b), held + HeldBy(b, v, dueMs))
  {
    InConcat(h.sent, EmittedBy(b, v));
    InConcat(h.made, [v]);
    var out := EmittedBy(b, v);
    assert out == [] || out[..0] == [];
    assert [v][..0] == [];
  }

  lemma TakeInCounts(h: History, heldCount: nat, s: Stats, s': Stats, v: SourceEvent, b: Bucket)
    requires CountersOk(h, heldCount, s)
    requires s' == Counted(s, b).(clean := s'.clean, nullField := s'.nullField, badData := s'.badData)
    ensures CountersOk(TakenIn(h, v, b), heldCount + |HeldBy(b, v, 0)|, s')
  {
    assert (h.buckets + [b])[..|h.buckets|] == h.buckets;
  }

  lemma TakeInKeeps(r: Rates, h: History, held: seq<(int, SourceEvent)>, s: Stats, s': Stats, v: SourceEvent,
                    b: Bucket, dueMs: int)
    requires HistoryOk(r, h, held, s) && Plain(v) == v && (Perfect(r) ==> b == Clean)
    requires !v.RideSource? ==> b == Clean || (b == Malformed && v.PaymentSource?)
    requires s' == Counted(s, b).(clean := s'.clean, nullField := s'.nullField, badData := s'.badData)
    ensures HistoryOk(r, TakenIn(h, v, b), held + HeldBy(b, v, dueMs), s')
  {
    hide Conserved, Marked, OrderOk, CountersOk, Perfect;
    TakeInConserves(h, held, v, b, dueMs);
    TakeInMarks(h, v, b);
    TakeInOrder(h, held, v, b, dueMs);
    TakeInCounts(h, |held|, s, s', v, b);
  }

  lemma FieldCountersAreFree(r: Rates, h: History, held: seq<(int, SourceEvent)>, s: Stats, s': Stats)
    requires HistoryOk(r, h, held, s) && s' == s.(nullField := s'.nullField, badData := s'.badData)
    ensures HistoryOk(r, h, held, s')
  {
  }

  lemma {:induction false} OnlyRidesIn(es: seq<SourceEvent>)
    requires forall e :: e in es ==> e.RideSource?
    ensures LocationsIn(es) == [] && PaymentsIn(es) == []
  {
    if es != [] {
      assert es[|es| - 1] in es;
      OnlyRidesIn(es[..|es| - 1]);
    }
  }

  lemma ReleaseConserves(h: History, held: seq<(int, SourceEvent)>, nowMs: int)
    requires |h.made| == |h.buckets| && Conserved(h, held) && forall p :: p in held ==> Plain(p.1) == p.1
    ensures Conserved(Released(h, Due(held, nowMs), nowMs), NotDue(held, nowMs))
  {
    var due := ItemsOf(Due(held, nowMs));
    BagConcat(h.sent, due);
    DueKeepsItems(held, nowMs);
    DueAreHeld(held, nowMs);
    assert PlainAll(due) == due;
  }

  lemma DueAreHeld(held: seq<(int, SourceEvent)>, nowMs: int)
    ensures forall p :: p in Due(held, nowMs) ==> p in held
    ensures forall p :: p in NotDue(held, nowMs) ==> p in held
  {
    DueKeepsAll(held, nowMs);
    forall p | p in Due(held, nowMs) ensures p in held { assert p in multiset(held); }
    forall p | p in NotDue(held, nowMs) ensures p in held { assert p in multiset(held); }
  }

  lemma ReleaseOrder(h: History, held: seq<(int, SourceEvent)>, nowMs: int)
    requires OrderOk(h, held)
    ensures OrderOk(Released(h, Due(held, nowMs), nowMs), NotDue(held, nowMs))
  {
    hide LocationsIn, PaymentsIn, Due, NotDue;
    var due := Due(held, nowMs);
    DueAreHeld(held, nowMs);
    ReleasedOnTime(held, nowMs);
    InConcat(h.sent, ItemsOf(due));
    OnlyRidesIn(ItemsOf(due));
    assert LocationsIn(h.sent) + [] == LocationsIn(h.sent) && PaymentsIn(h.sent) + [] == PaymentsIn(h.sent);
  }

  lemma ReleaseMarks(h: History, held: seq<(int, SourceEvent)>, nowMs: int)
    requires |h.made| == |h.buckets| && Marked(h) && forall p :: p in held ==> Plain(p.1) == p.1
    ensures Marked(Released(h, Due(held, nowMs), nowMs))
  {
    var due := ItemsOf(Due(held, nowMs));
    DueAreHeld(held, nowMs);
    CorruptConcat(h.sent, due);
    NoneCorrupt(due);
    assert CorruptIn(h.sent) + [] == CorruptIn(h.sent);
  }

  lemma ReleaseCounts(h: History, held: seq<(int, SourceEvent)>, s: Stats, nowMs: int)
    requires CountersOk(h, |held|, s)
    ensures CountersOk(Released(h, Due(held, nowMs), nowMs), |NotDue(held, nowMs)|, s)
  {
    var due, later := Due(held, nowMs), NotDue(held, nowMs);
    DueKeepsAll(held, nowMs);
    assert |multiset(due) + multiset(later)| == |multiset(held)|;
  }

  lemma ReleaseKeeps(r: Rates, h: History, held: seq<(int, SourceEvent)>, s: Stats, nowMs: int)
    requires HistoryOk(r, h, held, s)
    ensures HistoryOk(r, Released(h, Due(held, nowMs), nowMs), NotDue(held, nowMs), s)
  {
    hide Conserved, Marked, CountersOk, Perfect;
    ReleaseConserves(h, held, nowMs);
    ReleaseMarks(h, held, nowMs);
    ReleaseCounts(h, held, s, nowMs);
    ReleaseOrder(h, held, nowMs);
    hide OrderOk;
  }

  // ---------------------------------------------------------------- the layer

  class Imperfector {
    const cfg: Rates
    var held: seq<(int, SourceEvent)>
    var stats: Stats
    ghost var log: History

    ghost predicate Valid()
      reads this
    {
      HistoryOk(cfg, log, held, stats)
    }

    constructor (cfg: Rates)
      ensures Valid() && this.cfg == cfg && held == [] && log == History([], [], [], [])
    {
      this.cfg, held, stats, log := cfg, [], Stats(0, 0, 0, 0, 0, 0, 0), History([], [], [], []);
    }

    lemma PerfectHoldsNothing(nowMs: int)
      requires Valid() && Perfect(cfg)
      ensures held == [] && ItemsOf(Due(held, nowMs)) == []
    {
    }

    /** One event in: emitted, or held, or both, in exactly one bucket; a duplicate
        bucket holds one copy, and nothing else is ever copied. */
    method Process(event: SourceEvent, nowMs: int) returns (out: seq<SourceEvent>)
      requires Valid() && Plain(event) == event
      modifies this
      ensures Valid()
      ensures exists v, b, dueMs :: TookIn(old(held), old(log), event, v, b, nowMs, dueMs, out)
      ensures event.RideSource? ==> Bucketed(stats) == Bucketed(old(stats)) + 1
      ensures !event.RideSource? ==> held == old(held) && PlainAll(out) == [event]
      ensures Perfect(cfg) ==> out == [event] && log.made == old(log).made + [event]
    {
      hide HistoryOk, TookIn;
      match event {
        case PaymentSource(_, _) => out := CorruptOrPass(event, nowMs);
        case LocationSource(_) => out := Pass(event, nowMs);
        case RideSource(ev, _) =>
          var e := MaybeNullFields(ev);
          e := MaybeBadData(e);
          FieldCountersAreFree(cfg, log, held, old(stats), stats);
          out := Route(event, RideSource(e, false), nowMs);
      }
    }

    /** `event` came in as `v` and was put in bucket `b`, which decides what goes out
        now, what is held and until when. */
    ghost predicate TookIn(heldBefore: seq<(int, SourceEvent)>, before: History,
                           event: SourceEvent, v: SourceEvent, b: Bucket, nowMs: int, dueMs: int, out: seq<SourceEvent>)
      reads this`held, this`log
    {
      && Variant(event, v) && out == EmittedBy(b, v) && held == heldBefore + HeldBy(b, v, dueMs)
      && CanFall(cfg, v, b) && DelayOk(cfg, b, dueMs - nowMs) && log == TakenIn(before, v, b)
    }

    method Pass(event: SourceEvent, nowMs: int) returns (out: seq<SourceEvent>)
      requires Valid() && event.LocationSource?
      modifies this`log
      ensures Valid() && out == [event] && log.made == old(log).made + [event]
      ensures TookIn(old(held), old(log), event, event, Clean, nowMs, 0, out)
    {
      hide HistoryOk;
      out := [event];
      TakeInKeeps(cfg, log, held, stats, stats, event, Clean, 0);
      assert held + HeldBy(Clean, event, 0) == held;
      log := TakenIn(log, event, Clean);
    }

    method CorruptOrPass(event: SourceEvent, nowMs: int) returns (out: seq<SourceEvent>)
      requires Valid() && event.PaymentSource? && Plain(event) == event
      modifies this`log, this`stats
      ensures Valid() && PlainAll(out) == [event] && (Perfect(cfg) ==> out == [event])
      ensures log.made == old(log).made + [event]
      ensures TookIn(old(held), old(log), event, event, if out == [event] then Clean else Malformed, nowMs, 0, out)
    {
      hide HistoryOk;
      var roll := Roll();
      var b := if roll < cfg.malformed then Malformed else Clean;
      var counted := if b == Malformed then stats.(malformed := stats.malformed + 1) else stats;
      out := EmittedBy(b, event);
      TakeInKeeps(cfg, log, held, stats, counted, event, b, 0);
      assert held + HeldBy(b, event, 0) == held;
      log, stats := TakenIn(log, event, b), counted;
    }

    method Route(ghost event: SourceEvent, v: SourceEvent, nowMs: int) returns (out: seq<SourceEvent>)
      requires Valid() && Plain(v) == v && v.RideSource? && Variant(event, v)
      modifies this`log, this`stats, this`held
      ensures Valid() && Bucketed(stats) == Bucketed(old(stats)) + 1
      ensures log.made == old(log).made + [v] && (Perfect(cfg) ==> out == [v])
      ensures exists b, dueMs :: TookIn(old(held), old(log), event, v, b, nowMs, dueMs, out)
    {
      hide HistoryOk, DelayOk, Variant;
      var roll := Roll();
      var b := PickBucket(cfg, roll);
      assert CanFall(cfg, v, b);
      var delayMs := DrawDelay(b);
      TakeInKeeps(cfg, log, held, stats, Counted(stats, b), v, b, nowMs + delayMs);
      out := EmittedBy(b, v);
      log, stats, held := TakenIn(log, v, b), Counted(stats, b), held + HeldBy(b, v, nowMs + delayMs);
      assert TookIn(old(held), old(log), event, v, b, nowMs, nowMs + delayMs, out);
    }

    method DrawDelay(b: Bucket) returns (delayMs: int)
      ensures DelayOk(cfg, b, delayMs)
    {
      var low, high := if b == Late then cfg.oooMaxSkewSec + 1.0 else 1.0,
                       if b == Duplicate then 10.0 else if b == OutOfOrder then cfg.oooMaxSkewSec else cfg.lateMaxSec;
      var delay := Uniform(low, high);
      if low <= high { MillisBetween(low, delay, high); }
      delayMs := Millis(delay);
    }

    method MaybeBadData(e: RideEvent) returns (v: RideEvent)
      modifies this`stats
      ensures if stats == old(stats) then v == e
              else v == BadData(e) && stats == old(stats).(badData := old(stats).badData + 1)
      ensures Possible(cfg.badData, stats != old(stats))
    {
      var roll := Roll();
      if roll >= cfg.badData {
        return e;
      }
      stats := stats.(badData := stats.badData + 1);
      v := BadData(e);
    }

    method MaybeNullFields(e: RideEvent) returns (v: RideEvent)
      modifies this`stats
      ensures if stats == old(stats) then v == e
              else e.kind == Requested && v == NullFields(e)
                   && stats == old(stats).(nullField := old(stats).nullField + 1)
      ensures e.kind == Requested ==> Possible(cfg.nullField, stats != old(stats))
    {
      v := e;
      if e.kind == Requested {
        var roll := Roll();
        if roll < cfg.nullField {
          stats := stats.(nullField := stats.nullField + 1);
          v := NullFields(e);
        }
      }
    }

    /** Held events that have come due go out; the others stay. */
    method ReleaseDue(nowMs: int) returns (due: seq<SourceEvent>)
      requires Valid()
      modifies this`held, this`log
      ensures Valid() && due == ItemsOf(Due(old(held), nowMs)) && held == NotDue(old(held), nowMs)
      ensures log == Released(old(log), Due(old(held), nowMs), nowMs)
      ensures forall p :: p in Due(old(held), nowMs) ==> p.0 <= nowMs
      ensures forall p :: p in held ==> p.0 > nowMs
    {
      hide HistoryOk;
      var out, kept := [], [];
      for i := 0 to |held|
        invariant held == old(held) && log == old(log)
        invariant out == Due(held[..i], nowMs) && kept == NotDue(held[..i], nowMs)
      {
        assert held[..i + 1][..i] == held[..i];
        if held[i].0 <= nowMs {
          out := out + [held[i]];
        } else {
          kept := kept + [held[i]];
        }
      }
      assert held[..|held|] == held;
      ReleaseKeeps(cfg, log, held, stats, nowMs);
      ReleasedOnTime(held, nowMs);
      due := ItemsOf(out);
      log, held := Released(log, out, nowMs), kept;
    }
  }
}
