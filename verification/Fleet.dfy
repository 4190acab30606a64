// The driver fleet (src/generator/drivers.py): assignment of the nearest idle
// driver, the ping loop, and drivers that drift offline and back.
module Fleet {

  import opened Wrappers
  import opened Draws

  datatype Point = Point(lat: real, lon: real)

  datatype Status = Idle | EnRoute | OnTrip | Offline

  predicate Busy(s: Status) {
    s == EnRoute || s == OnTrip
  }

  /** Ids of the drivers a city starts with, and of those added when it ran dry. */
  datatype DriverId = Initial(city: nat, n: nat) | Overflow(city: nat, n: nat)

  datatype Ping = Ping(driver: DriverId, ts: int, at: Point, speedKmh: real, heading: real, status: Status, cityId: nat)

  /** What the fleet's behaviour depends on in a driver. */
  datatype DriverState = DriverState(cityId: nat, at: Point, status: Status, nextPingMs: int, backOnlineMs: int)

  /** The great-circle distance; any function of the two points. */
  type Distance = (Point, Point) -> real

  datatype City = City(id: nat, drivers: nat)

  datatype FleetConfig = FleetConfig(pingIntervalMs: int, offlineProb: real, distance: Distance)

  method SamplePoint() returns (p: Point) {
    var lat := Gauss();
    var lon := Gauss();
    p := Point(lat, lon);
  }

  class Driver {
    const driverId: DriverId
    const cityId: nat
    var at: Point
    var heading: real
    var speedKmh: real
    var status: Status
    var target: Option<Point>
    var legStart: Point
    var legStartMs: int
    var legEndMs: int
    var nextPingMs: int
    var backOnlineMs: int

    constructor (driverId: DriverId, cityId: nat, at: Point, heading: real, nextPingMs: int)
      ensures this.driverId == driverId && this.cityId == cityId
      ensures State() == DriverState(cityId, at, Idle, nextPingMs, 0)
    {
      this.driverId, this.cityId, this.at, this.heading, this.nextPingMs := driverId, cityId, at, heading, nextPingMs;
      speedKmh, status, target, legStart, legStartMs, legEndMs, backOnlineMs := 0.0, Idle, None, at, 0, 0, 0;
    }

    function State(): DriverState
      reads this
    {
      DriverState(cityId, at, status, nextPingMs, backOnlineMs)
    }

    method BeginLeg(status: Status, target: Point, nowMs: int, legMs: int)
      modifies this
      ensures State() == old(State()).(status := status)
    {
      this.status, this.target := status, Some(target);
      legStart, legStartMs, legEndMs := at, nowMs, nowMs + Max(legMs, 1000);
    }

    /** Drops back to idle cruising, at `at` when that is given. */
    method GoIdle(at: Option<Point>)
      modifies this
      ensures State() == old(State()).(status := Idle, at := at.GetOr(old(this.at)))
    {
      if at != None {
        this.at := at.value;
      }
      status, target := Idle, None;
      var gauss := Gauss();
      speedKmh := Clip(gauss, 0.0, 30.0);
    }

    method ComeOnline(nowMs: int)
      modifies this
      ensures State() == old(State()).(status := Idle, nextPingMs := nowMs)
    {
      status, nextPingMs := Idle, nowMs;
    }

    /** Only an idle driver goes offline, for 2 minutes to an hour. */
    method MaybeGoOffline(offlineProb: real, nowMs: int) returns (off: bool)
      modifies this
      ensures State() == if off then old(State()).(status := Offline, backOnlineMs := backOnlineMs) else old(State())
      ensures old(status) == Idle ==> Possible(offlineProb, off)
      ensures off ==> old(status) == Idle && nowMs + 120000 <= backOnlineMs <= nowMs + 3600000
    {
      var roll := Roll();
      if status != Idle || roll >= offlineProb {
        return false;
      }
      var away := Exponential();
      away := Clip(away, 120.0, 3600.0);
      MillisAtLeast(away, 120);
      MillisAtMost(away, 3600);
      status, speedKmh, backOnlineMs := Offline, 0.0, nowMs + Millis(away);
      off := true;
    }

    /** Along its leg or cruising: where it ends up is not modelled. */
    method Move(nextPingMs: int)
      modifies this
      ensures State() == old(State()).(at := at, nextPingMs := nextPingMs)
    {
      var at := SamplePoint();
      var speed := Gauss();
      var heading := Uniform(0.0, 360.0);
      this.at, this.speedKmh, this.heading, this.nextPingMs := at, speed, heading, nextPingMs;
    }

    function PingAt(ts: int): Ping
      reads this
    {
      Ping(driverId, ts, at, speedKmh, heading, status, cityId)
    }
  }

  // ------------------------------------------------------- grants and returns

  /** Each assignment and each release, in the order they happened. */
  datatype Move = Grant(driver: DriverId) | Return(driver: DriverId)

  /** Whether the last move of driver `d` is a grant. */
  ghost predicate Out(ledger: seq<Move>, d: DriverId) {
    ledger != [] &&
    var m := ledger[|ledger| - 1];
    if m.driver == d then m.Grant? else Out(ledger[..|ledger| - 1], d)
  }

  /** Every driver's moves alternate: granted only when in, returned only when out. */
  ghost predicate Alternates(ledger: seq<Move>) {
    ledger == [] ||
    var front, m := ledger[..|ledger| - 1], ledger[|ledger| - 1];
    Alternates(front) && (m.Grant? <==> !Out(front, m.driver))
  }

  // -------------------------------------------------------------------- pings

  function PingsOf(pings: seq<Ping>, d: DriverId): seq<int> {
    if pings == [] then []
    else
      var p := pings[|pings| - 1];
      PingsOf(pings[..|pings| - 1], d) + (if p.driver == d then [p.ts] else [])
  }

  lemma {:induction false} PingsOfConcat(a: seq<Ping>, b: seq<Ping>, d: DriverId)
    ensures PingsOf(a + b, d) == PingsOf(a, d) + PingsOf(b, d)
  {
    if b == [] {
      assert a + b == a;
    } else {
      PingsOfConcat(a, b[..|b| - 1], d);
      assert (a + b)[..|a + b| - 1] == a + b[..|b| - 1];
    }
  }

  /** The beats from `next` up to now. */
  function Beats(next: int, interval: int, now: int): seq<int>
    requires interval > 0
    decreases now - next
  {
    if next > now then [] else [next] + Beats(next + interval, interval, now)
  }

  /** They start at `next`, are one interval apart, and end with the last not after `now`. */
  lemma {:induction false} BeatsAre(next: int, interval: int, now: int)
    requires interval > 0
    ensures var beats := Beats(next, interval, now);
            && (beats == [] <==> next > now)
            && (forall i: nat :: Spaced(beats, i, interval))
            && (beats != [] ==> beats[0] == next && beats[|beats| - 1] <= now < beats[|beats| - 1] + interval)
    decreases now - next
  {
    if next <= now {
      BeatsAre(next + interval, interval, now);
      var later := Beats(next + interval, interval, now);
      var beats := [next] + later;
      assert Beats(next, interval, now) == beats;
      forall i: nat ensures Spaced(beats, i, interval) {
        if i > 0 { assert Spaced(later, i - 1, interval); }
      }
      hide Beats;
    }
  }

  ghost predicate Spaced(beats: seq<int>, i: nat, interval: int) {
    i + 1 < |beats| ==> beats[i + 1] == beats[i] + interval
  }

  /** An offline ping repeats the time of the driver's idle ping just before it. */
  ghost predicate Masked(pings: seq<Ping>) {
    forall i :: 0 <= i < |pings| ==> MaskedAt(pings, i)
  }

  ghost predicate MaskedAt(pings: seq<Ping>, i: nat)
    requires i < |pings|
  {
    pings[i].status == Offline ==> i > 0 && Masks(pings[i - 1], pings[i])
  }

  ghost predicate Masks(p: Ping, q: Ping) {
    p.status == Idle && p.driver == q.driver && p.ts == q.ts
  }

  lemma NoPings()
    ensures Masked([]) && forall d :: PingsOf([], d) == []
  {
  }

  lemma MaskedConcat(a: seq<Ping>, b: seq<Ping>)
    requires Masked(a) && Masked(b)
    ensures Masked(a + b)
  {
    forall i | 0 <= i < |a + b| ensures MaskedAt(a + b, i) {
      if i >= |a| { assert MaskedAt(b, i - |a|); } else { assert MaskedAt(a, i); }
    }
  }

  /** What one tick does to one driver and which pings it sends. A driver still dark
      stays so; any other pings its beats, all of them unless it goes offline at one,
      which only an idle driver does, for 2 minutes to an hour, and pings that again. */
  ghost predicate Ticked(old_: DriverState, new_: DriverState, pings: seq<int>, interval: int, now: int)
    requires interval > 0
  {
    && new_.cityId == old_.cityId
    && (forall t :: t in pings ==> t <= now)
    && if old_.status == Offline && now < old_.backOnlineMs then new_ == old_ && pings == []
       else if new_.status != Offline then
         && new_.status == (if Busy(old_.status) then old_.status else Idle)
         && pings == Beats(FirstBeat(old_, now), interval, now) && new_.nextPingMs > now
       else
         !Busy(old_.status) && WentOffline(new_, pings, Beats(FirstBeat(old_, now), interval, now), interval)
  }

  /** A driver that comes back online pings at once. */
  function FirstBeat(d: DriverState, now: int): int {
    if d.status == Offline then now else d.nextPingMs
  }

  ghost predicate WentOffline(new_: DriverState, pings: seq<int>, beats: seq<int>, interval: int) {
    var n := |pings| - 1;
    && 0 < n <= |beats| && pings == beats[..n] + [beats[n - 1]]
    && new_.nextPingMs == beats[n - 1] + interval
    && beats[n - 1] + 120000 <= new_.backOnlineMs <= beats[n - 1] + 3600000
  }

  // ------------------------------------------------------------------- travel

  function SecondsAt(km: real, kmh: real): real
    requires kmh > 0.0
  {
    km / kmh * 3600.0
  }

  /** `sec` at `kmh` covers the distance exactly, or is the minimum and covers more. */
  ghost predicate AtSpeed(km: real, sec: real, kmh: real) {
    && 15.0 <= kmh <= 50.0 && sec >= 20.0
    && if sec == 20.0 then sec * kmh >= km * 3600.0 else sec * kmh == km * 3600.0
  }

  /** The time to the pickup: the distance at some road speed, at least 20 seconds. */
  ghost predicate Travels(km: real, sec: real) {
    exists kmh :: AtSpeed(km, sec, kmh)
  }

  lemma SpeedCovers(km: real, kmh: real)
    requires 15.0 <= kmh <= 50.0
    ensures AtSpeed(km, if SecondsAt(km, kmh) < 20.0 then 20.0 else SecondsAt(km, kmh), kmh)
  {
    assert SecondsAt(km, kmh) * kmh == km * 3600.0;
    if SecondsAt(km, kmh) < 20.0 {
      var spare := 20.0 - SecondsAt(km, kmh);
      assert spare * kmh > 0.0;
      assert 20.0 * kmh == SecondsAt(km, kmh) * kmh + spare * kmh;
    }
  }

  lemma TravelTakesTime(km: real, sec: real)
    requires Travels(km, sec)
    ensures sec >= 20.0
  {
  }

  // --------------------------------------------------------------- the object

  /** Drivers are listed under their own city, and new ids are unused. */
  ghost predicate RosterOk(drivers: map<DriverId, Driver>, byCity: map<nat, seq<Driver>>, slot: map<DriverId, nat>,
                           overflow: nat) {
    && (forall d :: d in drivers ==> HasSlot(drivers[d], byCity, slot, d))
    && (forall c, i :: c in byCity && 0 <= i < |byCity[c]| ==> Listed(drivers, c, byCity[c][i]))
    && (forall d :: d in drivers && d.Overflow? ==> d.n <= overflow)
  }

  ghost predicate HasSlot(x: Driver, byCity: map<nat, seq<Driver>>, slot: map<DriverId, nat>, d: DriverId) {
    d in slot && x.cityId in byCity && slot[d] < |byCity[x.cityId]| && byCity[x.cityId][slot[d]] == x
  }

  ghost predicate Listed(drivers: map<DriverId, Driver>, c: nat, x: Driver) {
    x.cityId == c && x.driverId in drivers && drivers[x.driverId] == x
  }

  lemma RosterGrows(drivers: map<DriverId, Driver>, byCity: map<nat, seq<Driver>>, slot: map<DriverId, nat>,
                    overflow: nat, x: Driver)
    requires RosterOk(drivers, byCity, slot, overflow) && x.cityId in byCity && x.driverId !in drivers
    requires x.driverId.Overflow? ==> x.driverId.n <= overflow
    ensures var c := x.cityId;
            RosterOk(drivers[x.driverId := x], byCity[c := byCity[c] + [x]], slot[x.driverId := |byCity[c]|], overflow)
  {
    var c := x.cityId;
    var byCity' := byCity[c := byCity[c] + [x]];
    var slot', drivers' := slot[x.driverId := |byCity[c]|], drivers[x.driverId := x];
    forall d | d in drivers' ensures HasSlot(drivers'[d], byCity', slot', d) {
      assert d != x.driverId ==> HasSlot(drivers[d], byCity, slot, d);
    }
    forall k, i | k in byCity' && 0 <= i < |byCity'[k]| ensures Listed(drivers', k, byCity'[k][i]) {
      assert k in byCity && i < |byCity[k]| ==> byCity'[k][i] == byCity[k][i] && Listed(drivers, k, byCity[k][i]);
    }
  }

  lemma RosterLater(drivers: map<DriverId, Driver>, byCity: map<nat, seq<Driver>>, slot: map<DriverId, nat>,
                    overflow: nat)
    requires RosterOk(drivers, byCity, slot, overflow)
    ensures RosterOk(drivers, byCity, slot, overflow + 1)
    ensures forall c, n :: n == overflow + 1 ==> Overflow(c, n) !in drivers
  {
  }

  lemma EmptyRoster(cities: seq<City>)
    ensures RosterOk(map[], map c | c in cities :: c.id := [], map[], 0)
  {
  }

  /** An idle driver somewhere in the city, with its first ping within one interval. */
  method NewDriver(city: nat, id: DriverId, nowMs: int, pingIntervalMs: int) returns (driver: Driver)
    requires pingIntervalMs > 0
    ensures fresh(driver) && driver.driverId == id && driver.cityId == city
    ensures driver.status == Idle && nowMs <= driver.nextPingMs <= nowMs + pingIntervalMs
  {
    var at := SamplePoint();
    var heading := Uniform(0.0, 360.0);
    var wait := Uniform(0.0, pingIntervalMs as real / 1000.0);
    MillisAtLeast(wait, 0);
    driver := new Driver(id, city, at, heading, nowMs + Millis(wait));
  }

  class DriverFleet {
    const cfg: FleetConfig
    const cities: set<nat>
    var drivers: map<DriverId, Driver>
    var byCity: map<nat, seq<Driver>>
    var overflow: nat
    ghost var states: map<DriverId, DriverState>  // the drivers above, as values
    ghost var owned: set<Driver>
    ghost var slot: map<DriverId, nat>  // each driver's place in its city's list
    ghost var ledger: seq<Move>

    /** One object per driver, and the values in `states` are theirs. */
    ghost predicate Valid()
      reads this, owned
    {
      && cfg.pingIntervalMs > 0
      && byCity.Keys == cities
      && RosterOk(drivers, byCity, slot, overflow)
      && InStep(drivers, states, owned)
    }

    ghost predicate InStep(drivers: map<DriverId, Driver>, states: map<DriverId, DriverState>, owned: set<Driver>)
      reads owned
    {
      && drivers.Keys == states.Keys
      && (forall d :: d in drivers ==>
            drivers[d] in owned && drivers[d].driverId == d && drivers[d].State() == states[d])
    }

    lemma OneMoreDriver(driver: Driver)
      requires InStep(drivers, states, owned)
      ensures InStep(drivers[driver.driverId := driver], states[driver.driverId := driver.State()], owned + {driver})
    {
    }

    constructor (cfg: FleetConfig, cities: seq<City>, anchorMs: int)
      requires cfg.pingIntervalMs > 0
      requires forall i, j :: 0 <= i < j < |cities| ==> cities[i].id != cities[j].id
      ensures Valid() && fresh(owned) && this.cfg == cfg && ledger == []
      ensures this.cities == set c | c in cities :: c.id
      ensures forall d :: d in states ==> states[d].status == Idle
    {
      hide RosterOk;
      this.cfg, drivers, overflow, states, owned, slot, ledger := cfg, map[], 0, map[], {}, map[], [];
      this.cities := set c | c in cities :: c.id;
      byCity := map c | c in cities :: c.id := [];
      EmptyRoster(cities);
      new;
      StartCities(cities, anchorMs);
    }

    method StartCities(cities: seq<City>, anchorMs: int)
      requires Valid() && states == map[]
      requires forall i, j :: 0 <= i < j < |cities| ==> cities[i].id != cities[j].id
      requires forall c :: c in cities ==> c.id in this.cities
      modifies this`drivers, this`byCity, this`states, this`owned, this`slot
      ensures Valid() && fresh(owned - old(owned))
      ensures forall d :: d in states ==> states[d].status == Idle && d.Initial?
    {
      hide Valid;
      ghost var before: set<nat> := {};
      for i := 0 to |cities|
        invariant Valid() && fresh(owned - old(owned))
        invariant before == set j | 0 <= j < i :: cities[j].id
        invariant forall d :: d in states ==> states[d].status == Idle && d.Initial? && d.city in before
      {
        StartCity(cities[i], anchorMs);
        before := before + {cities[i].id};
      }
    }

    method StartCity(city: City, anchorMs: int)
      requires Valid() && city.id in cities
      requires forall d :: d in states ==> d.city != city.id
      modifies this`drivers, this`byCity, this`states, this`owned, this`slot
      ensures Valid() && fresh(owned - old(owned))
      ensures forall d :: d in states && d !in old(states) ==>
                states[d].status == Idle && d.Initial? && d.city == city.id
      ensures forall d :: d in old(states) ==> d in states && states[d] == old(states)[d]
      ensures forall n: nat :: n < city.drivers ==> Initial(city.id, n) in states
    {
      hide Valid;
      for n := 0 to city.drivers
        invariant Valid() && fresh(owned - old(owned))
        invariant forall d :: d in states && d !in old(states) ==>
                    states[d].status == Idle && d.Initial? && d.city == city.id && d.n < n
        invariant forall d :: d in old(states) ==> d in states && states[d] == old(states)[d]
        invariant forall k: nat :: k < n ==> Initial(city.id, k) in states
      {
        assert Initial(city.id, n) !in states;
        SpawnDriver(city.id, Initial(city.id, n), anchorMs);
      }
    }

    method SpawnDriver(city: nat, id: DriverId, nowMs: int)
      requires Valid() && city in cities && id !in states && id.city == city
      requires id.Overflow? ==> id.n <= overflow
      modifies this`drivers, this`byCity, this`states, this`owned, this`slot
      ensures Valid() && fresh(owned - old(owned))
      ensures id in states && states == old(states)[id := states[id]]
      ensures states[id].status == Idle && states[id].cityId == city
    {
      hide Valid;
      var driver := NewDriver(city, id, nowMs, Interval());
      Enlist(driver);
    }

    function Interval(): (ms: int)
      reads this, owned
      requires Valid()
      ensures ms == cfg.pingIntervalMs > 0
    {
      cfg.pingIntervalMs
    }

    method Enlist(driver: Driver)
      requires Valid() && driver.cityId in cities && driver.driverId !in states
      requires driver.driverId.Overflow? ==> driver.driverId.n <= overflow
      modifies this`drivers, this`byCity, this`states, this`owned, this`slot
      ensures Valid() && owned == old(owned) + {driver}
      ensures states == old(states)[driver.driverId := driver.State()]
    {
      hide RosterOk;
      var id, city := driver.driverId, driver.cityId;
      OneMoreDriver(driver);
      RosterGrows(drivers, byCity, slot, overflow, driver);
      drivers, slot, byCity, states, owned :=
        drivers[id := driver], slot[id := |byCity[city]|], byCity[city := byCity[city] + [driver]],
        states[id := driver.State()], owned + {driver};
    }

    // ---------------------------------------------------------- assignment

    /** The nearest idle driver of the city, or a new one when there is none. */
    method Assign(city: nat, pickup: Point, nowMs: int) returns (id: DriverId, travelSec: real)
      requires Valid() && city in cities
      modifies this, owned
      ensures Valid() && fresh(owned - old(owned))
      ensures id in states && states == old(states)[id := states[id]]
      ensures states[id].cityId == city && states[id].status == EnRoute
      ensures id in old(states) ==>
                old(states)[id] == states[id].(status := Idle) && NearestIdle(old(states), city, pickup, id)
      ensures id !in old(states) ==> NoneIdle(old(states), city)
      ensures ledger == old(ledger) + [Grant(id)]
      ensures Travels(cfg.distance(states[id].at, pickup), travelSec)
    {
      hide Travels, Valid, NearestIdle, NoneIdle;
      var nearest := Nearest(city, pickup);
      match nearest {
        case Some(d) => id := d;
        case None => id := AddOverflow(city, nowMs);
      }
      travelSec := SendToPickup(id, pickup, nowMs);
    }

    ghost predicate NoneIdle(states: map<DriverId, DriverState>, city: nat) {
      forall d :: d in states && states[d].cityId == city ==> states[d].status != Idle
    }

    ghost predicate NearestIdle(states: map<DriverId, DriverState>, city: nat, pickup: Point, id: DriverId) {
      && id in states && states[id].cityId == city && states[id].status == Idle
      && forall d :: d in states && states[d].cityId == city && states[d].status == Idle ==>
           cfg.distance(states[id].at, pickup) <= cfg.distance(states[d].at, pickup)
    }

    method AddOverflow(city: nat, nowMs: int) returns (id: DriverId)
      requires Valid() && city in cities
      modifies this`drivers, this`byCity, this`states, this`owned, this`slot, this`overflow
      ensures Valid() && fresh(owned - old(owned))
      ensures id !in old(states) && id in states && states == old(states)[id := states[id]]
      ensures states[id].status == Idle && states[id].cityId == city
    {
      hide RosterOk;
      RosterLater(drivers, byCity, slot, overflow);
      overflow := overflow + 1;
      id := Overflow(city, overflow);
      SpawnDriver(city, id, nowMs);
    }

    method SendToPickup(id: DriverId, pickup: Point, nowMs: int) returns (travelSec: real)
      requires Valid() && id in states
      modifies this`states, this`ledger, owned
      ensures Valid() && states == old(states)[id := old(states)[id].(status := EnRoute)]
      ensures ledger == old(ledger) + [Grant(id)]
      ensures Travels(cfg.distance(states[id].at, pickup), travelSec)
    {
      hide RosterOk;
      var gauss := Gauss();
      var speed := Clip(gauss, 15.0, 50.0);
      travelSec := SecondsAt(cfg.distance(drivers[id].at, pickup), speed);
      if travelSec < 20.0 {
        travelSec := 20.0;
      }
      SpeedCovers(cfg.distance(drivers[id].at, pickup), speed);
      assert AtSpeed(cfg.distance(drivers[id].at, pickup), travelSec, speed);
      drivers[id].BeginLeg(EnRoute, pickup, nowMs, Millis(travelSec));
      states, ledger := states[id := drivers[id].State()], ledger + [Grant(id)];
    }

    method Nearest(city: nat, pickup: Point) returns (best: Option<DriverId>)
      requires Valid() && city in cities
      ensures match best case None => NoneIdle(states, city) case Some(d) => NearestIdle(states, city, pickup, d)
    {
      var listed := byCity[city];
      best := None;
      for i := 0 to |listed|
        invariant best == None ==> forall j :: 0 <= j < i ==> listed[j].status != Idle
        invariant best != None ==>
                    && best.value in drivers && drivers[best.value].cityId == city && drivers[best.value].status == Idle
                    && forall j :: 0 <= j < i && listed[j].status == Idle ==>
                         cfg.distance(drivers[best.value].at, pickup) <= cfg.distance(listed[j].at, pickup)
      {
        assert Listed(drivers, city, listed[i]);
        if listed[i].status == Idle
           && (best == None || cfg.distance(listed[i].at, pickup) < cfg.distance(drivers[best.value].at, pickup)) {
          best := Some(listed[i].driverId);
        }
      }
    }

    method RideStarted(id: DriverId, dropoff: Point, durationSec: real, nowMs: int)
      requires Valid() && id in states
      modifies this`states, owned
      ensures Valid() && states == old(states)[id := old(states)[id].(status := OnTrip)]
    {
      hide RosterOk;
      drivers[id].BeginLeg(OnTrip, dropoff, nowMs, Millis(durationSec));
      states := states[id := drivers[id].State()];
    }

    /** Ride over: drop back to idle cruising, at the dropoff when there is one. */
    method Release(id: DriverId, at: Option<Point>)
      requires Valid() && id in states
      modifies this`states, this`ledger, owned
      ensures Valid()
      ensures states == old(states)[id := old(states)[id].(status := Idle, at := at.GetOr(old(states)[id].at))]
      ensures ledger == old(ledger) + [Return(id)]
    {
      hide RosterOk;
      drivers[id].GoIdle(at);
      states, ledger := states[id := drivers[id].State()], ledger + [Return(id)];
    }

    // -------------------------------------------------------------- ticking

    /** Every driver pings each beat up to now; only idle drivers go offline. */
    method OnTick(nowMs: int) returns (pings: seq<Ping>)
      requires Valid()
      modifies this`states, owned
      ensures Valid() && states.Keys == old(states).Keys && cfg.pingIntervalMs > 0
      ensures forall d :: d in states ==>
                Ticked(old(states)[d], states[d], PingsOf(pings, d), cfg.pingIntervalMs, nowMs)
      ensures forall d :: d !in states ==> PingsOf(pings, d) == []
      ensures Masked(pings)
    {
      hide Valid, Masked, Ticked, PingsOf;
      pings := [];
      NoPings();
      var todo := Ids();
      ghost var _ := Interval();
      while todo != {}
        invariant todo <= states.Keys && Valid() && states.Keys == old(states).Keys
        invariant forall d :: d in todo ==> states[d] == old(states)[d] && PingsOf(pings, d) == []
        invariant forall d :: d in states && d !in todo ==>
                    Ticked(old(states)[d], states[d], PingsOf(pings, d), cfg.pingIntervalMs, nowMs)
        invariant forall d :: d !in states ==> PingsOf(pings, d) == []
        invariant Masked(pings)
        decreases todo
      {
        var d :| d in todo;
        var more := TickDriver(d, nowMs);
        forall x ensures PingsOf(pings + more, x) == if x == d then PingsOf(more, x) else PingsOf(pings, x) {
          PingsOfConcat(pings, more, x);
          assert [] + PingsOf(more, x) == PingsOf(more, x) && PingsOf(pings, x) + [] == PingsOf(pings, x);
        }
        MaskedConcat(pings, more);
        pings, todo := pings + more, todo - {d};
      }
    }

    function Ids(): (ids: set<DriverId>)
      reads this, owned
      requires Valid()
      ensures ids == states.Keys
    {
      drivers.Keys
    }

    method TickDriver(id: DriverId, nowMs: int) returns (pings: seq<Ping>)
      requires Valid() && id in states
      modifies this`states, owned
      ensures Valid() && states == old(states)[id := states[id]]
      ensures Ticked(old(states)[id], states[id], PingsOf(pings, id), cfg.pingIntervalMs, nowMs)
      ensures forall d :: d != id ==> PingsOf(pings, d) == []
      ensures Masked(pings)
    {
      hide RosterOk, PingsOf, Masked, Ticked;
      pings := Beat(drivers[id], nowMs, cfg);
      states := states[id := drivers[id].State()];
      forall d | d != id ensures PingsOf(pings, d) == [] { OthersPings(pings, d); }
    }
  }

  /** The pings of one driver up to now. */
  method Beat(driver: Driver, nowMs: int, cfg: FleetConfig) returns (pings: seq<Ping>)
    requires cfg.pingIntervalMs > 0
    modifies driver
    ensures Ticked(old(driver.State()), driver.State(), PingsOf(pings, driver.driverId), cfg.pingIntervalMs, nowMs)
    ensures forall p :: p in pings ==> p.driver == driver.driverId
    ensures Masked(pings)
  {
    hide PingsOf, Masked, Beats, Possible, Ticked, FirstBeat;
    pings := [];
    NoPings();
    ghost var before, id, interval := driver.State(), driver.driverId, cfg.pingIntervalMs;
    if driver.status == Offline {
      if nowMs < driver.backOnlineMs {
        StaysDark(before, cfg.pingIntervalMs, nowMs);
        return;
      }
      driver.ComeOnline(nowMs);
    }
    ghost var beats := Beats(FirstBeat(before, nowMs), interval, nowMs);
    BeginsAt(before, nowMs);
    while driver.nextPingMs <= nowMs
      invariant driver.status == if Busy(before.status) then before.status else Idle
      invariant PingsOf(pings, id) + Beats(driver.nextPingMs, interval, nowMs) == beats
      invariant forall t :: t in PingsOf(pings, id) ==> t <= nowMs
      invariant forall p :: p in pings ==> p.driver == id
      invariant Masked(pings)
      decreases nowMs - driver.nextPingMs
    {
      var pingMs := driver.nextPingMs;
      driver.Move(pingMs + cfg.pingIntervalMs);
      var ping := driver.PingAt(pingMs);
      OneMorePing(pings, ping);
      ghost var sent := PingsOf(pings, id);
      NextBeat(sent, pingMs, interval, nowMs, beats);
      pings := pings + [ping];
      var off := driver.MaybeGoOffline(cfg.offlineProb, pingMs);
      if off {
        var last := driver.PingAt(pingMs);
        OneMorePing(pings, last);
        pings := pings + [last];
        EndsOffline(before, driver.State(), sent, pingMs, beats, interval, nowMs);
        return;
      }
    }
    NoBeatsLeft(driver.nextPingMs, interval, nowMs);
    EndsOnline(before, driver.State(), PingsOf(pings, id), interval, nowMs);
  }

  lemma BeginsAt(d: DriverState, now: int)
    ensures FirstBeat(d, now) == if d.status == Offline then now else d.nextPingMs
  {
  }

  lemma StaysDark(d: DriverState, interval: int, now: int)
    requires interval > 0 && d.status == Offline && now < d.backOnlineMs
    ensures Ticked(d, d, [], interval, now)
  {
  }

  lemma EndsOnline(before: DriverState, after: DriverState, sent: seq<int>, interval: int, now: int)
    requires interval > 0 && !(before.status == Offline && now < before.backOnlineMs)
    requires after.cityId == before.cityId && after.nextPingMs > now
    requires after.status == if Busy(before.status) then before.status else Idle
    requires sent == Beats(FirstBeat(before, now), interval, now) && forall t :: t in sent ==> t <= now
    ensures Ticked(before, after, sent, interval, now)
  {
    hide Beats;
  }

  lemma EndsOffline(before: DriverState, after: DriverState, sent: seq<int>, at: int, beats: seq<int>, interval: int,
                    now: int)
    requires interval > 0 && !(before.status == Offline && now < before.backOnlineMs)
    requires after.cityId == before.cityId && after.status == Offline && !Busy(before.status)
    requires beats == Beats(FirstBeat(before, now), interval, now) && at <= now
    requires |sent| < |beats| && beats[..|sent| + 1] == sent + [at] && forall t :: t in sent ==> t <= now
    requires after.nextPingMs == at + interval && at + 120000 <= after.backOnlineMs <= at + 3600000
    ensures Ticked(before, after, sent + [at] + [at], interval, now)
  {
    hide Beats;
    var pings := sent + [at] + [at];
    assert beats[|sent|] == beats[..|sent| + 1][|sent|] == at;
    assert pings == beats[..|sent| + 1] + [at];
  }

  lemma NoBeatsLeft(next: int, interval: int, now: int)
    requires interval > 0 && next > now
    ensures Beats(next, interval, now) == []
  {
  }

  /** One beat moves from those to come to those sent. */
  lemma NextBeat(sent: seq<int>, next: int, interval: int, now: int, beats: seq<int>)
    requires interval > 0 && next <= now && sent + Beats(next, interval, now) == beats
    ensures sent + [next] + Beats(next + interval, interval, now) == beats
    ensures |sent| < |beats| && beats[|sent|] == next && beats[..|sent| + 1] == sent + [next]
  {
  }

  lemma OneMorePing(pings: seq<Ping>, p: Ping)
    ensures PingsOf(pings + [p], p.driver) == PingsOf(pings, p.driver) + [p.ts]
    ensures Masked(pings) && (p.status == Offline ==> pings != [] && Masks(pings[|pings| - 1], p)) ==>
              Masked(pings + [p])
  {
    var all := pings + [p];
    assert all[..|pings|] == pings;
    if Masked(pings) && (p.status == Offline ==> pings != [] && Masks(pings[|pings| - 1], p)) {
      forall i | 0 <= i < |all| ensures MaskedAt(all, i) {
        if i < |pings| { assert MaskedAt(pings, i); }
      }
    }
  }

  lemma {:induction false} OthersPings(pings: seq<Ping>, d: DriverId)
    requires forall p :: p in pings ==> p.driver != d
    ensures PingsOf(pings, d) == []
  {
    if pings != [] {
      OthersPings(pings[..|pings| - 1], d);
    }
  }
}
