// The session fold (src/processors/session_builder.py): ride events go into one
// slot per lifecycle kind, and a session record is derived from the slots.
module SessionFold {

  import opened Wrappers
  import opened Lifecycle

  datatype RideEvent = RideEvent(
    eventId: string,
    rideId: string,
    kind: Kind,
    ts: int,
    riderId: string,
    driverId: Option<string>,
    cityId: int,
    pickupLat: real,
    pickupLon: real,
    dropoffLat: Option<real>,
    dropoffLon: Option<real>,
    fareCents: Option<int>,
    surge: real,
    payloadVersion: int,
    promoCode: Option<string>)

  datatype Closing = AsCompleted | AsCancelled | AsAbandoned

  datatype Session = Session(
    rideId: string,
    riderId: Option<string>,
    driverId: Option<string>,
    cityId: Option<int>,
    terminalState: Closing,
    eventSeq: nat,
    requestedTs: int,
    matchedTs: Option<int>,
    driverArrivedTs: Option<int>,
    startedTs: Option<int>,
    endedTs: Option<int>,
    timeToMatchSec: Option<real>,
    timeToPickupSec: Option<real>,
    rideDurationSec: Option<real>,
    distanceKm: Option<real>,
    avgSpeedKmh: Option<real>,
    isLateArrival: bool,
    fareCents: Option<int>,
    surge: real,
    promoCode: Option<string>,
    pickupLat: real,
    pickupLon: real,
    dropoffLat: Option<real>,
    dropoffLon: Option<real>)

  const LATE_ARRIVAL_THRESHOLD_SEC: real := 600.0

  /** The great-circle distance; only its being a function of the four coordinates matters. */
  type Haversine = (real, real, real, real) -> real

  /** The slot dictionary in insertion order. A slot's key is the ordinal of the
      event it holds, so the sequence of held events is the whole dictionary. */
  type Slots = seq<RideEvent>

  ghost predicate DistinctKinds(s: Slots) {
    forall i, j :: 0 <= i < j < |s| ==> s[i].kind != s[j].kind
  }

  /** The position of kind `k`'s slot, or `|s|` when the slot is empty. */
  function IndexOf(s: Slots, k: Kind): (i: nat)
    ensures i <= |s|
    ensures i < |s| ==> s[i].kind == k
    ensures forall j :: 0 <= j < i ==> s[j].kind != k
  {
    if s == [] then 0 else if s[0].kind == k then 0 else 1 + IndexOf(s[1..], k)
  }

  function Slot(s: Slots, k: Kind): Option<RideEvent> {
    var i := IndexOf(s, k);
    if i < |s| then Some(s[i]) else None
  }

  /** Overwrites the slot in place when it is taken, appends it otherwise. */
  function AddEvent(s: Slots, e: RideEvent): Slots {
    var i := IndexOf(s, e.kind);
    if i < |s| then s[i := e] else s + [e]
  }

  function Fold(events: seq<RideEvent>): Slots {
    if events == [] then [] else AddEvent(Fold(events[..|events| - 1]), events[|events| - 1])
  }

  class RideAccumulator {
    const rideId: string
    var slots: Slots

    constructor (rideId: string)
      ensures this.rideId == rideId && slots == []
    {
      this.rideId := rideId;
      slots := [];
    }

    method Add(e: RideEvent)
      modifies this
      ensures slots == AddEvent(old(slots), e)
    {
      var i := IndexOf(slots, e.kind);
      if i < |slots| {
        slots := slots[i := e];
      } else {
        slots := slots + [e];
      }
    }
  }

  /** The first terminal kind in insertion order. */
  function TerminalOf(s: Slots): Option<Kind> {
    if s == [] then None
    else if TerminalKind(s[0].kind) then Some(s[0].kind)
    else TerminalOf(s[1..])
  }

  function LastTs(s: Slots): int {
    if s == [] then 0
    else if |s| == 1 then s[0].ts
    else Max(s[0].ts, LastTs(s[1..]))
  }

  function TimedOut(s: Slots, watermarkMs: int, timeoutMs: int): bool {
    s != [] && watermarkMs - LastTs(s) > timeoutMs
  }

  // ------------------------------------------------------------- derivation

  function DriverIdOf(e: RideEvent): Option<string> { e.driverId }
  function RiderIdOf(e: RideEvent): Option<string> { Some(e.riderId) }
  function CityIdOf(e: RideEvent): Option<int> { Some(e.cityId) }
  function PickupLatOf(e: RideEvent): Option<real> { Some(e.pickupLat) }
  function PickupLonOf(e: RideEvent): Option<real> { Some(e.pickupLon) }
  function DropoffLatOf(e: RideEvent): Option<real> { e.dropoffLat }
  function DropoffLonOf(e: RideEvent): Option<real> { e.dropoffLon }
  function SurgeOf(e: RideEvent): Option<real> { Some(e.surge) }
  function PromoOf(e: RideEvent): Option<string> { e.promoCode }

  const KINDS: seq<Kind> := [Requested, Matched, DriverArrived, Started, Completed, Cancelled]

  /** The first non-null field among the slots, in ordinal order. */
  function First<T>(s: Slots, field: RideEvent -> Option<T>): Option<T> {
    FirstFrom(s, field, 0)
  }

  function FirstFrom<T>(s: Slots, field: RideEvent -> Option<T>, i: nat): Option<T>
    requires i <= |KINDS|
    decreases |KINDS| - i
  {
    if i == |KINDS| then None
    else match Slot(s, KINDS[i])
      case None => FirstFrom(s, field, i + 1)
      case Some(e) =>
        match field(e)
        case None => FirstFrom(s, field, i + 1)
        case Some(v) => Some(v)
  }

  function TsOf(s: Slots, k: Kind): Option<int> {
    match Slot(s, k)
    case None => None
    case Some(e) => Some(e.ts)
  }

  function DiffSec(a: Option<int>, b: Option<int>): Option<real> {
    if a == None || b == None then None
    else var d := (a.value - b.value) as real / 1000.0; Some(if d < 0.0 then 0.0 else d)
  }

  /** Everything a session takes from the slots. */
  datatype Reading = Reading(
    terminal: Option<Kind>,
    requested: Option<int>,
    matched: Option<int>,
    arrived: Option<int>,
    started: Option<int>,
    ended: Option<int>,
    riderId: Option<string>,
    driverId: Option<string>,
    cityId: Option<int>,
    pickupLat: Option<real>,
    pickupLon: Option<real>,
    dropoffLat: Option<real>,
    dropoffLon: Option<real>,
    surge: Option<real>,
    promoCode: Option<string>,
    fareCents: Option<int>,
    count: nat,
    lastTs: int)

  function EndedTs(s: Slots, terminal: Option<Kind>): Option<int> {
    match terminal
    case Some(Completed) => TsOf(s, Completed)
    case Some(Cancelled) => TsOf(s, Cancelled)
    case _ => None
  }

  function FareOf(s: Slots): Option<int> {
    match Slot(s, Completed)
    case None => None
    case Some(e) => e.fareCents
  }

  function Read(s: Slots): Reading {
    Reading(
      TerminalOf(s),
      TsOf(s, Requested),
      TsOf(s, Matched),
      TsOf(s, DriverArrived),
      TsOf(s, Started),
      EndedTs(s, TerminalOf(s)),
      First(s, RiderIdOf),
      First(s, DriverIdOf),
      First(s, CityIdOf),
      First(s, PickupLatOf),
      First(s, PickupLonOf),
      First(s, DropoffLatOf),
      First(s, DropoffLonOf),
      First(s, SurgeOf),
      First(s, PromoOf),
      FareOf(s),
      |s|,
      LastTs(s))
  }

  function ClosingOf(terminal: Option<Kind>): Closing {
    match terminal
    case Some(Completed) => AsCompleted
    case Some(Cancelled) => AsCancelled
    case _ => AsAbandoned
  }

  function Distance(geo: Haversine, v: Reading): Option<real> {
    if v.pickupLat == None || v.pickupLon == None || v.dropoffLat == None || v.dropoffLon == None then None
    else Some(geo(v.pickupLat.value, v.pickupLon.value, v.dropoffLat.value, v.dropoffLon.value))
  }

  function Speed(distance: Option<real>, duration: Option<real>): Option<real> {
    if distance == None || duration == None || duration.value <= 0.0 then None
    else Some(distance.value / (duration.value / 3600.0))
  }

  function Derive(geo: Haversine, rideId: string, v: Reading): Session {
    var toPickup := DiffSec(v.arrived, v.matched);
    var duration := if v.terminal == Some(Completed) then DiffSec(v.ended, v.started) else None;
    var distance := Distance(geo, v);
    var surge := v.surge.GetOr(0.0);
    Session(
      rideId,
      v.riderId,
      v.driverId,
      v.cityId,
      ClosingOf(v.terminal),
      v.count,
      v.requested.GetOr(v.lastTs),
      v.matched,
      v.arrived,
      v.started,
      v.ended,
      DiffSec(v.matched, v.requested),
      toPickup,
      duration,
      distance,
      Speed(distance, duration),
      toPickup != None && toPickup.value > LATE_ARRIVAL_THRESHOLD_SEC,
      v.fareCents,
      if surge == 0.0 then 1.0 else surge,
      v.promoCode,
      v.pickupLat.GetOr(0.0),
      v.pickupLon.GetOr(0.0),
      v.dropoffLat,
      v.dropoffLon)
  }

  /** Refuses (None) when there is no terminal event and no timeout to close by. */
  function BuildSession(geo: Haversine, rideId: string, s: Slots, closedByTimeout: bool): Option<Session> {
    if TerminalOf(s) == None && !closedByTimeout then None else Some(Derive(geo, rideId, Read(s)))
  }
}
