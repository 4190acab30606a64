// The ride lifecycle simulator (src/generator/rides.py): spawning, planning,
// firing due events, releasing drivers and queueing payments.
module Rides {

  import opened Wrappers
  import opened Lifecycle
  import opened SessionFold
  import opened PgSink
  import opened Events
  import opened Draws
  import opened Fleet
  import opened RideScene

  datatype GeneratorConfig = GeneratorConfig(
    tickMs: int,
    ridesPerTick: int -> real,       // base rate times the demand factor of an instant
    abandonRate: real,
    cancelProb: Kind -> real,        // of cancelling on leaving a stage
    evolveAtMs: Option<int>,         // elapsed time at which payload version 2 begins
    token: string)

  class ActiveRide {
    const rideId: nat
    const riderId: string
    const cityId: nat
    const pickup: Point
    const dropoff: Point
    const surge: real
    const distanceKm: real
    const promoCode: Option<string>
    const requestedMs: int
    const machine: RideStateMachine
    var driverId: Option<DriverId>
    var startedMs: int
    var fareCents: Option<int>
    var nextAtMs: int
    var nextEvent: Option<Kind>
    var stopAfter: Option<Kind>
    var durationSec: real

    constructor (rideId: nat, riderId: string, cityId: nat, pickup: Point, dropoff: Point, surge: real,
                 distanceKm: real,
                 promoCode: Option<string>, requestedMs: int)
      ensures this.rideId == rideId && this.cityId == cityId && this.requestedMs == requestedMs
      ensures this.surge == surge && this.distanceKm == distanceKm && this.pickup == pickup && this.dropoff == dropoff
      ensures fresh(machine) && machine.rideId == rideId
      ensures State() == RideState(None, None, None, 0, None)
    {
      this.rideId, this.riderId, this.cityId, this.pickup, this.dropoff := rideId, riderId, cityId, pickup, dropoff;
      this.surge, this.distanceKm, this.promoCode, this.requestedMs := surge, distanceKm, promoCode, requestedMs;
      machine := new RideStateMachine(rideId);
      driverId, startedMs, fareCents, nextAtMs, nextEvent, stopAfter, durationSec := None, 0, None, 0, None, None, 0.0;
    }

    function State(): RideState
      reads this, machine
    {
      RideState(machine.state, driverId, nextEvent, nextAtMs, stopAfter)
    }

    method Plan(event: Kind, atMs: int)
      modifies this`nextEvent, this`nextAtMs
      ensures State() == old(State()).(nextEvent := Some(event), nextAtMs := atMs)
    {
      nextEvent, nextAtMs := Some(event), atMs;
    }

    /** Plans `event` after `delaySec`, or with the given probability a cancellation. */
    method PlanOrCancel(event: Kind, atMs: int, delaySec: real, cancelAfterSec: real, cancelProb: real)
      requires delaySec >= 0.0 && cancelAfterSec >= 0.0 && event != Cancelled
      modifies this`nextEvent, this`nextAtMs
      ensures nextEvent == Some(event) || nextEvent == Some(Cancelled)
      ensures Possible(cancelProb, nextEvent == Some(Cancelled))
      ensures nextAtMs == atMs + Millis(if nextEvent == Some(event) then delaySec else cancelAfterSec) >= atMs
      ensures State() == old(State()).(nextEvent := nextEvent, nextAtMs := nextAtMs)
    {
      MillisAtLeast(delaySec, 0);
      MillisAtLeast(cancelAfterSec, 0);
      var roll := Roll();
      if roll < cancelProb {
        Plan(Cancelled, atMs + Millis(cancelAfterSec));
      } else {
        Plan(event, atMs + Millis(delaySec));
      }
    }

    method ScheduleAfterRequested(cancelProb: real)
      modifies this`nextEvent, this`nextAtMs
      ensures nextEvent == Some(Matched) || nextEvent == Some(Cancelled)
      ensures Possible(cancelProb, nextEvent == Some(Cancelled))
      ensures nextEvent == Some(Matched) ==> requestedMs + 3000 <= nextAtMs <= requestedMs + 240000
      ensures nextEvent == Some(Cancelled) ==> requestedMs <= nextAtMs <= requestedMs + 600000
      ensures State() == old(State()).(nextEvent := nextEvent, nextAtMs := nextAtMs)
    {
      var roll := Roll();
      var delay := Exponential();
      if roll < cancelProb {
        delay := if delay > 600.0 then 600.0 else delay;
        MillisAtLeast(delay, 0);
        MillisAtMost(delay, 600);
        Plan(Cancelled, requestedMs + Millis(delay));
      } else {
        delay := Clip(delay, 3.0, 240.0);
        MillisAtLeast(delay, 3);
        MillisAtMost(delay, 240);
        Plan(Matched, requestedMs + Millis(delay));
      }
    }

    /** Draws the trip's duration, at least a minute. */
    method DrawDuration()
      modifies this`durationSec
      ensures durationSec >= 60.0
    {
      var speed := Gauss();
      var noise := Gauss();
      durationSec := distanceKm / Clip(speed, 10.0, 55.0) * 3600.0 * (1.0 + noise);
      if durationSec < 60.0 {
        durationSec := 60.0;
      }
    }
  }

  // ---------------------------------------------------------- fares, payments

  /** int(x): towards zero. */
  function Truncated(x: real): int {
    if x >= 0.0 then x.Floor else -((-x).Floor)
  }

  /** Base fare, per kilometre and per minute, times the surge. */
  function FareCents(distanceKm: real, durationSec: real, surge: real): int {
    Truncated((5000.0 + 1500.0 * distanceKm + 200.0 * (durationSec / 60.0)) * surge)
  }

  /** What the fare comes to: 50.00 to start with, 15.00 a kilometre and 2.00 a minute,
      times the surge, without the part of a cent. */
  lemma FareIs(km: real, minutes: real, surge: real)
    requires km >= 0.0 && minutes >= 0.0 && surge >= 0.0
    ensures FareCents(km, minutes * 60.0, surge) as real <= (5000.0 + 1500.0 * km + 200.0 * minutes) * surge
    ensures (5000.0 + 1500.0 * km + 200.0 * minutes) * surge < FareCents(km, minutes * 60.0, surge) as real + 1.0
    ensures FareCents(km, minutes * 60.0, surge) >= 0
  {
    assert minutes * 60.0 / 60.0 == minutes;
    var fare := 5000.0 + 1500.0 * km + 200.0 * minutes;
    NotNegative(fare, surge);
    assert FareCents(km, minutes * 60.0, surge) == Truncated(fare * surge);
    hide FareCents;
  }

  lemma NotNegative(x: real, y: real)
    requires x >= 0.0 && y >= 0.0
    ensures x * y >= 0.0
  {
  }

  function PaymentStatus(roll: real): string {
    if roll < 0.96 then "completed" else if roll < 0.99 then "failed" else "refunded"
  }

  function PaymentMethod(roll: real): string {
    if roll < 0.55 then "card" else if roll < 0.85 then "wallet" else "cash"
  }

  /** The rolls that give `value` are an interval of this width. */
  ghost predicate Share(given: real -> string, value: string, width: real) {
    exists low :: ShareFrom(given, value, low, width)
  }

  ghost predicate ShareFrom(given: real -> string, value: string, low: real, width: real) {
    0.0 <= low <= low + width <= 1.0
    && forall roll :: 0.0 <= roll < 1.0 ==> (given(roll) == value <==> low <= roll < low + width)
  }

  /** How payments turn out, and how they are made. */
  lemma PaymentShares()
    ensures Share(PaymentStatus, "completed", 0.96)
    ensures Share(PaymentStatus, "failed", 0.03)
    ensures Share(PaymentStatus, "refunded", 0.01)
    ensures Share(PaymentMethod, "card", 0.55)
    ensures Share(PaymentMethod, "wallet", 0.30)
    ensures Share(PaymentMethod, "cash", 0.15)
  {
    assert ShareFrom(PaymentStatus, "completed", 0.0, 0.96);
    assert ShareFrom(PaymentStatus, "failed", 0.96, 0.03);
    assert ShareFrom(PaymentStatus, "refunded", 0.99, 0.01);
    assert ShareFrom(PaymentMethod, "card", 0.0, 0.55);
    assert ShareFrom(PaymentMethod, "wallet", 0.55, 0.30);
    assert ShareFrom(PaymentMethod, "cash", 0.85, 0.15);
  }

  // ------------------------------------------------------------------ builders

  function DriverName(d: DriverId): string {
    match d
    case Initial(city, n) => "d-" + Decimal(city) + "-" + Padded(n, 4)
    case Overflow(city, n) => "d-" + Decimal(city) + "-x" + Padded(n, 4)
  }

  function NumberText(d: DriverId): string {
    match d
    case Initial(_, n) => Padded(n, 4)
    case Overflow(_, n) => "x" + Padded(n, 4)
  }

  lemma NameParts(d: DriverId)
    ensures DriverName(d) == "d-" + (Decimal(d.city) + "-" + NumberText(d))
  {
    hide Padded, Decimal;
    match d {
      case Initial(city, n) =>
        assert "d-" + Decimal(city) + "-" + Padded(n, 4) == "d-" + (Decimal(city) + "-" + Padded(n, 4));
      case Overflow(city, n) =>
        assert "d-" + Decimal(city) + "-x" + Padded(n, 4) == "d-" + (Decimal(city) + "-" + ("x" + Padded(n, 4)));
    }
  }

  /** Two drivers never share an id, whatever their cities and numbers. */
  lemma DriverNamesAreUnique(a: DriverId, b: DriverId)
    requires DriverName(a) == DriverName(b)
    ensures a == b
  {
    hide Padded, Decimal, ValueOf, DriverName;
    NameParts(a);
    NameParts(b);
    var s, t := Decimal(a.city) + "-" + NumberText(a), Decimal(b.city) + "-" + NumberText(b);
    assert s == ("d-" + s)[2..] && t == ("d-" + t)[2..];
    DecimalIsDigits(a.city);
    DecimalIsDigits(b.city);
    DashParts(Decimal(a.city), Decimal(b.city), NumberText(a), NumberText(b));
    DecimalRoundTrip(a.city);
    DecimalRoundTrip(b.city);
    NumbersAreUnique(a, b);
  }

  lemma NumbersAreUnique(a: DriverId, b: DriverId)
    requires NumberText(a) == NumberText(b)
    ensures a.n == b.n && (a.Initial? <==> b.Initial?)
  {
    hide Padded, ValueOf;
    PaddedIsDigits(a.n, 4);
    PaddedIsDigits(b.n, 4);
    PaddedRoundTrip(a.n, 4);
    PaddedRoundTrip(b.n, 4);
    assert a.Overflow? ==> NumberText(a)[0] == 'x' && NumberText(a)[1..] == Padded(a.n, 4);
    assert b.Overflow? ==> NumberText(b)[0] == 'x' && NumberText(b)[1..] == Padded(b.n, 4);
    assert a.Initial? ==> NumberText(a)[0] != 'x';
    assert b.Initial? ==> NumberText(b)[0] != 'x';
  }

  function StatusName(s: Status): string {
    match s
    case Idle => "idle"
    case EnRoute => "en_route_to_pickup"
    case OnTrip => "on_trip"
    case Offline => "offline"
  }

  function LocationOf(p: Ping): Location {
    Location(DriverName(p.driver), p.ts, p.at.lat, p.at.lon, p.speedKmh, p.heading, StatusName(p.status), p.cityId)
  }

  /** A location row keeps the position as it is and tells its ping apart from any other:
      by driver, time and status in particular. */
  lemma LocationTellsPing(p: Ping, q: Ping)
    ensures LocationOf(p) == LocationOf(q) ==> p == q
    ensures var l := LocationOf(p);
            && l.ts == p.ts && l.lat == p.at.lat && l.lon == p.at.lon && l.cityId == p.cityId
            && (l.status == "offline" <==> p.status == Offline) && (l.status == "idle" <==> p.status == Idle)
  {
    hide DriverName;
    if LocationOf(p) == LocationOf(q) {
      DriverNamesAreUnique(p.driver, q.driver);
      StatusesDiffer(p.status, q.status);
    }
    StatusesDiffer(p.status, Offline);
    StatusesDiffer(p.status, Idle);
  }

  lemma StatusesDiffer(s: Status, t: Status)
    ensures StatusName(s) == StatusName(t) ==> s == t
    ensures StatusName(Offline) == "offline" && StatusName(Idle) == "idle"
  {
    var a, b, c, d := "idle", "en_route_to_pickup", "on_trip", "offline";
    assert |a| == 4 && |b| == 18 && |c| == 7 && |d| == 7 && c[1] != d[1];
  }

  function Positions(pings: seq<Ping>): seq<Location> {
    seq(|pings|, i requires 0 <= i < |pings| => LocationOf(pings[i]))
  }

  function LocationsOf(pings: seq<Ping>): seq<SourceEvent> {
    seq(|pings|, i requires 0 <= i < |pings| => LocationSource(LocationOf(pings[i])))
  }

  function RidesOf(events: seq<RideEvent>): seq<SourceEvent> {
    seq(|events|, i requires 0 <= i < |events| => RideSource(events[i], false))
  }

  function PaymentsOf(payments: seq<Payment>): seq<SourceEvent> {
    seq(|payments|, i requires 0 <= i < |payments| => PaymentSource(payments[i], false))
  }

  /** The stamps of the events that carry ride `r`'s id. */
  function StampsOf(events: seq<RideEvent>, id: string): seq<Stamp> {
    if events == [] then []
    else
      var e := events[|events| - 1];
      StampsOf(events[..|events| - 1], id) + (if e.rideId == id then [Stamp(e.kind, e.ts)] else [])
  }

  lemma {:induction false} StampsOfConcat(a: seq<RideEvent>, b: seq<RideEvent>, id: string)
    ensures StampsOf(a + b, id) == StampsOf(a, id) + StampsOf(b, id)
  {
    if b == [] {
      assert a + b == a;
    } else {
      StampsOfConcat(a, b[..|b| - 1], id);
      assert (a + b)[..|a + b| - 1] == a + b[..|b| - 1];
    }
  }

  lemma PositionsConcat(a: seq<Ping>, b: seq<Ping>)
    ensures Positions(a + b) == Positions(a) + Positions(b)
  {
    hide LocationOf;
  }

  lemma OneMorePosition(pings: seq<Ping>, p: Ping)
    ensures Positions(pings + [p]) == Positions(pings) + [LocationOf(p)]
    ensures LocationsOf(pings + [p]) == LocationsOf(pings) + [LocationSource(LocationOf(p))]
  {
    hide LocationOf;
  }

  lemma {:induction false} OnlyLocations(pings: seq<Ping>)
    ensures RideEventsIn(LocationsOf(pings)) == [] && PaymentsIn(LocationsOf(pings)) == []
    ensures LocationsIn(LocationsOf(pings)) == Positions(pings)
  {
    NothingIn();
    if pings != [] {
      hide RideEventsIn, PaymentsIn, LocationsIn, LocationOf, Positions, LocationsOf;
      var front, last := pings[..|pings| - 1], pings[|pings| - 1];
      assert pings == front + [last];
      OnlyLocations(front);
      OneMorePosition(front, last);
      OneMoreIn(LocationsOf(front), LocationSource(LocationOf(last)));
    }
  }

  lemma {:induction false} OnlyRides(events: seq<RideEvent>)
    ensures RideEventsIn(RidesOf(events)) == events && PaymentsIn(RidesOf(events)) == []
    ensures LocationsIn(RidesOf(events)) == []
  {
    NothingIn();
    if events != [] {
      hide RideEventsIn, PaymentsIn, LocationsIn;
      var front, last := events[..|events| - 1], events[|events| - 1];
      OnlyRides(front);
      OneMoreIn(RidesOf(front), RideSource(last, false));
      assert RidesOf(events) == RidesOf(front) + [RideSource(last, false)];
    }
  }

  lemma {:induction false} OnlyPayments(payments: seq<Payment>)
    ensures RideEventsIn(PaymentsOf(payments)) == [] && PaymentsIn(PaymentsOf(payments)) == payments
    ensures LocationsIn(PaymentsOf(payments)) == []
  {
    NothingIn();
    if payments != [] {
      hide RideEventsIn, PaymentsIn, LocationsIn;
      var front, last := payments[..|payments| - 1], payments[|payments| - 1];
      OnlyPayments(front);
      OneMoreIn(PaymentsOf(front), PaymentSource(last, false));
      assert PaymentsOf(payments) == PaymentsOf(front) + [PaymentSource(last, false)];
    }
  }

  lemma TickOutput(pings: seq<Ping>, events: seq<RideEvent>, payments: seq<Payment>)
    ensures var out := LocationsOf(pings) + RidesOf(events) + PaymentsOf(payments);
            && RideEventsIn(out) == events && PaymentsIn(out) == payments
            && LocationsIn(out) == Positions(pings) && forall x :: x in out ==> Plain(x) == x
  {
    hide RideEventsIn, PaymentsIn, LocationsIn, Positions;
    var a, b, c := LocationsOf(pings), RidesOf(events), PaymentsOf(payments);
    OnlyLocations(pings);
    OnlyRides(events);
    OnlyPayments(payments);
    InConcat(a, b);
    InConcat(a + b, c);
    assert [] + events + [] == events && [] + [] + payments == payments;
    assert Positions(pings) + [] + [] == Positions(pings);
    forall x | x in a + b + c ensures Plain(x) == x {
      assert x in a || x in b || x in c;
    }
  }
}
