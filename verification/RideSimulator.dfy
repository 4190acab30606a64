// The simulator object (src/generator/rides.py): every ride through its state
// machine, every driver through the fleet, tick by tick.
module RideSimulator {

  import opened Wrappers
  import opened Lifecycle
  import opened SessionFold
  import opened PgSink
  import opened Events
  import opened Draws
  import opened Holding
  import opened Fleet
  import opened RideScene
  import opened Rides

  class RideSimulator {
    const cfg: GeneratorConfig
    const fleet: DriverFleet
    const anchorMs: int
    var active: map<nat, ActiveRide>
    var payments: seq<(int, Payment)>
    var counter: nat
    var spawnCarry: real
    var completedRides: nat
    var cancelledRides: nat
    ghost var scene: Scene       // rides not yet done, traces, drivers, as values
    ghost var owned: set<ActiveRide>
    ghost var machines: set<RideStateMachine>
    ghost var emitted: seq<SourceEvent>  // every tick's output so far
    ghost var pings: seq<Ping>           // the pings among it
    ghost var billed: seq<Payment>       // every payment ever queued

    /** Ride `q`'s object is its own and is as `v` says. */
    ghost predicate Synced(x: ActiveRide, q: nat, v: RideState)
      reads x, x.machine
    {
      x.rideId == q && x.machine.rideId == q && x.cityId in fleet.cities && x.State() == v
    }

    /** The objects agree with the scene but for ride `r`; the rides in `done` have
        left but are still in the dictionary. */
    ghost predicate Objects(done: set<nat>, r: Option<nat>)
      reads this`active, this`scene, this`counter, this`owned, this`machines, owned, machines, fleet, fleet.owned
    {
      && cfg.tickMs > 0 && fleet.Valid() && Keyed(active, scene, counter, done)
      && InStep(active, scene.rides, owned, machines, r)
    }

    ghost predicate Keyed(active: map<nat, ActiveRide>, scene: Scene, counter: nat, done: set<nat>) {
      && active.Keys == scene.rides.Keys + done && scene.rides.Keys !! done
      && (forall q :: q in scene.trace ==> q <= counter)
    }

    ghost predicate InStep(active: map<nat, ActiveRide>, rides: map<nat, RideState>,
                           owned: set<ActiveRide>, machines: set<RideStateMachine>, r: Option<nat>)
      reads owned, machines
    {
      && (forall q :: q in active ==> active[q] in owned && active[q].machine in machines)
      && (forall q :: q in rides && Some(q) != r ==> q in active && Synced(active[q], q, rides[q]))
    }

    ghost predicate ValidBut(done: set<nat>)
      reads this`active, this`scene, this`counter, this`owned, this`machines, owned, machines, fleet, fleet.owned
    {
      Objects(done, None) && SceneOk(scene) && scene.states == fleet.states && scene.ledger == fleet.ledger
    }

    ghost predicate Valid()
      reads this`active, this`scene, this`counter, this`owned, this`machines, owned, machines, fleet, fleet.owned
    {
      ValidBut({})
    }

    /** On the objects themselves: active rides never share a driver, and the drivers
        with a job are exactly the active rides' drivers. */
    ghost predicate ExclusiveDrivers()
      reads this`active, this`scene, this`counter, this`owned, this`machines, owned, machines, fleet, fleet.owned
      requires Valid()
    {
      && (forall a, b :: a in active && b in active && a != b && active[a].driverId != None ==>
            active[a].driverId != active[b].driverId)
      && (forall d :: d in fleet.drivers ==>
            (Busy(fleet.drivers[d].status) <==> exists a :: a in active && active[a].driverId == Some(d)))
    }

    lemma OwnershipIsExclusive()
      requires Valid()
      ensures ExclusiveDrivers()
    {
      hide SceneOk, RosterOk;
      DriversAreExclusive(scene);
      forall a | a in active ensures a in scene.rides && active[a].driverId == scene.rides[a].driver {
        assert Synced(active[a], a, scene.rides[a]);
      }
      forall d | d in fleet.drivers ensures fleet.drivers[d].status == scene.states[d].status {
        assert fleet.drivers[d].State() == fleet.states[d];
      }
    }

    lemma ScenesAreSound()
      requires Valid()
      ensures SceneOk(scene) && scene.states == fleet.states && scene.ledger == fleet.ledger
    {
    }

    constructor (cfg: GeneratorConfig, fleet: DriverFleet, anchorMs: int)
      requires fleet.Valid() && cfg.tickMs > 0
      requires fleet.ledger == [] && forall d :: d in fleet.states ==> fleet.states[d].status == Idle
      ensures Valid() && this.cfg == cfg && this.fleet == fleet && this.anchorMs == anchorMs
      ensures scene.trace == map[] && owned == {} && machines == {}
      ensures PaymentsOk() && OutputOk() && emitted == []
    {
      this.cfg, this.fleet, this.anchorMs := cfg, fleet, anchorMs;
      active, payments, counter, spawnCarry, completedRides, cancelledRides := map[], [], 0, 0.0, 0, 0;
      scene, owned, machines := Scene(map[], map[], fleet.states, map[], []), {}, {};
      emitted, pings, billed := [], [], [];
    }

    // ----------------------------------------------------------------- ticks

    /** Each completed ride was billed once, and what was billed has gone out or is
        still queued. */
    ghost predicate PaymentsOk()
      reads this`emitted, this`payments, this`billed, this`completedRides
    {
      && |billed| == completedRides
      && multiset(PaymentsIn(emitted)) + multiset(ItemsOf(payments)) == multiset(billed)
    }

    /** The locations emitted are the pings, and an offline ping follows its idle one. */
    ghost predicate OutputOk()
      reads this`emitted, this`pings
    {
      LocationsIn(emitted) == Positions(pings) && Masked(pings)
    }

    /** One tick: pings, new rides, due events, due payments. No draw can make it
        fail, the scene stays sound, every ride's trace grows by exactly its events
        in the output, and nothing that is due stays behind. */
    method OnTick(nowMs: int) returns (out: seq<SourceEvent>)
      requires Valid() && fleet.cities != {} && PaymentsOk() && OutputOk()
      modifies this, owned, machines, fleet, fleet.owned
      ensures Valid() && PaymentsOk() && OutputOk()
      ensures fresh(owned - old(owned)) && fresh(machines - old(machines)) && fresh(fleet.owned - old(fleet.owned))
      ensures ExclusiveDrivers() && Grown(old(scene), scene, RideEventsIn(out))
      ensures emitted == old(emitted) + out && forall x :: x in out ==> Plain(x) == x
      ensures forall q :: q in scene.rides ==> scene.rides[q].nextAtMs > nowMs
      ensures forall e :: e in RideEventsIn(out) ==> e.ts < nowMs + cfg.tickMs && Built(e)
      ensures forall p :: p in payments ==> p.0 > nowMs
    {
      hide Valid, ExclusiveDrivers, Grown, Built, OutputOk, LocationsOf, RidesOf, PaymentsOf;
      hide RideEventsIn, PaymentsIn, LocationsIn, Positions, Due, NotDue;
      var sent, events := PingAndProgress(nowMs);
      ghost var queue := payments;
      var due := DuePayments(nowMs);
      ReleasedOnTime(queue, nowMs);
      OwnershipIsExclusive();
      TickOutput(sent, events, due);
      out := LocationsOf(sent) + RidesOf(events) + PaymentsOf(due);
      Output(out, sent, due, queue, nowMs);
    }

    /** Pings, then requests, then due events. */
    method PingAndProgress(nowMs: int) returns (sent: seq<Ping>, events: seq<RideEvent>)
      requires Valid() && fleet.cities != {} && PaymentsOk()
      modifies this`scene, this`counter, this`spawnCarry, this`active, this`owned, this`machines
      modifies this`payments, this`billed, this`completedRides, this`cancelledRides, owned, machines, fleet, fleet.owned
      ensures Valid() && PaymentsOk() && Masked(sent) && Grown(old(scene), scene, events)
      ensures fresh(owned - old(owned)) && fresh(machines - old(machines)) && fresh(fleet.owned - old(fleet.owned))
      ensures forall q :: q in scene.rides ==> scene.rides[q].nextAtMs > nowMs
      ensures forall e :: e in events ==> e.ts < nowMs + cfg.tickMs && Built(e)
    {
      hide Valid, PaymentsOk, Grown, Built, Masked;
      ghost var before := scene;
      sent := TickFleet(nowMs);
      ghost var mid := scene;
      var requests := Spawn(nowMs);
      ghost var spawned := scene;
      var due := Progress(nowMs);
      GrownTwice(before, mid, spawned, scene, requests, due);
      events := requests + due;
    }

    /** The tick's output joins what was emitted. */
    ghost method Output(out: seq<SourceEvent>, sent: seq<Ping>, due: seq<Payment>, queue: seq<(int, Payment)>,
                        nowMs: int)
      requires OutputOk() && Masked(sent) && LocationsIn(out) == Positions(sent) && PaymentsIn(out) == due
      requires |billed| == completedRides
      requires multiset(PaymentsIn(emitted)) + multiset(ItemsOf(queue)) == multiset(billed)
      requires due == ItemsOf(Due(queue, nowMs)) && payments == NotDue(queue, nowMs)
      modifies this`emitted, this`pings
      ensures PaymentsOk() && OutputOk() && emitted == old(emitted) + out
    {
      hide Masked, LocationsIn, PaymentsIn, RideEventsIn, Positions, Due, NotDue, ItemsOf;
      InConcat(emitted, out);
      MaskedConcat(pings, sent);
      DueKeepsItems(queue, nowMs);
      PositionsConcat(pings, sent);
      BillsAddUp(multiset(PaymentsIn(emitted)), multiset(due), multiset(ItemsOf(payments)), multiset(ItemsOf(queue)),
                 multiset(billed));
      emitted, pings := emitted + out, pings + sent;
    }

    lemma BillsAddUp(sent: multiset<Payment>, due: multiset<Payment>, kept: multiset<Payment>,
                     queue: multiset<Payment>, all: multiset<Payment>)
      requires sent + queue == all && due + kept == queue
      ensures (sent + due) + kept == all
    {
    }

    lemma GrownTwice(start: Scene, a: Scene, b: Scene, c: Scene, first: seq<RideEvent>, second: seq<RideEvent>)
      requires start.trace == a.trace && Grown(a, b, first) && Grown(b, c, second)
      ensures Grown(start, c, first + second)
    {
      hide RideIdOf, StampsOf, KnownRide, TraceOf;
      forall e | e in first + second ensures KnownRide(c, e) {
        if e in first { GrownKnows(a, b, first, e); }
        GrownKnows(b, c, second, e);
      }
      forall q | q in c.trace
        ensures c.trace[q].events == TraceOf(start, q) + StampsOf(first + second, RideIdOf(cfg.token, q))
      {
        TraceTwice(start, a, b, c, first, second, q);
      }
    }

    lemma TraceTwice(start: Scene, a: Scene, b: Scene, c: Scene, first: seq<RideEvent>, second: seq<RideEvent>, q: nat)
      requires start.trace == a.trace && Grown(a, b, first) && Grown(b, c, second) && q in c.trace
      ensures c.trace[q].events == TraceOf(start, q) + StampsOf(first + second, RideIdOf(cfg.token, q))
    {
      hide RideIdOf, StampsOf, KnownRide, Grown;
      StampsOfConcat(first, second, RideIdOf(cfg.token, q));
      GrownTrace(b, c, second, q);
      if q in b.trace {
        GrownTrace(a, b, first, q);
      } else {
        forall e | e in first ensures KnownRide(b, e) { GrownKnows(a, b, first, e); }
        NoEarlierStamps(b, first, q);
        GrownKeeps(a, b, first, q);
      }
    }

    method TickFleet(nowMs: int) returns (pings: seq<Ping>)
      requires Valid()
      modifies this`scene, fleet`states, fleet.owned
      ensures Valid() && scene == old(scene).(states := fleet.states)
      ensures Masked(pings)
      ensures scene.states.Keys == old(scene).states.Keys && fleet.cfg.pingIntervalMs > 0 && cfg.tickMs > 0
      ensures forall d :: d in scene.states ==>
                Ticked(old(scene).states[d], scene.states[d], PingsOf(pings, d), fleet.cfg.pingIntervalMs, nowMs)
    {
      hide DriverFleet.Valid, SceneOk, InStep, Masked, Ticked, PingsOf;
      pings := PingAll(nowMs);
      TickedKeeps(scene, fleet.states, pings, fleet.cfg.pingIntervalMs, nowMs);
      scene := scene.(states := fleet.states);
    }

    method PingAll(nowMs: int) returns (pings: seq<Ping>)
      requires Objects({}, None)
      modifies fleet`states, fleet.owned
      ensures Objects({}, None) && Masked(pings) && fleet.ledger == old(fleet.ledger)
      ensures fleet.states.Keys == old(fleet.states).Keys && fleet.cfg.pingIntervalMs > 0
      ensures forall d :: d in fleet.states ==>
                Ticked(old(fleet.states)[d], fleet.states[d], PingsOf(pings, d), fleet.cfg.pingIntervalMs, nowMs)
    {
      hide DriverFleet.Valid, Keyed, Masked, Ticked, PingsOf;
      pings := fleet.OnTick(nowMs);
      forall q | q in scene.rides ensures Synced(active[q], q, scene.rides[q]) {
        assert old(Synced(active[q], q, scene.rides[q]));
      }
    }

    // ---------------------------------------------------------------- events

    function PayloadVersion(atMs: int): int {
      match cfg.evolveAtMs
      case None => 1
      case Some(after) => if atMs - anchorMs >= after then 2 else 1
    }

    /** From the configured age of the run on, events are of version 2; only those carry
        a promo code. */
    ghost predicate Versioned(e: RideEvent) {
      && (e.payloadVersion == 1 || e.payloadVersion == 2)
      && (e.payloadVersion == 2 <==> cfg.evolveAtMs != None && e.ts - anchorMs >= cfg.evolveAtMs.value)
      && (e.promoCode != None ==> e.payloadVersion == 2)
    }

    ghost predicate Built(e: RideEvent) {
      GeneratorBuilt(e) && Versioned(e)
    }

    /** What every event of a ride repeats from it. */
    ghost predicate Repeats(ride: ActiveRide, e: RideEvent)
      reads ride
    {
      && e.riderId == ride.riderId && e.cityId == ride.cityId && e.surge == ride.surge
      && e.pickupLat == ride.pickup.lat && e.pickupLon == ride.pickup.lon
      && (e.dropoffLat == None || e.dropoffLat == Some(ride.dropoff.lat))
      && (e.dropoffLon == None || e.dropoffLon == Some(ride.dropoff.lon))
      && (e.dropoffLat == None <==> e.kind !in {Requested, Started, Completed})
      && (e.dropoffLon == None <==> e.kind !in {Requested, Started, Completed})
      && (e.driverId == None <==> ride.driverId == None)
    }

    function EventFor(ride: ActiveRide, kind: Kind, atMs: int): (e: RideEvent)
      reads ride
      ensures Built(e) && e.rideId == RideIdOf(cfg.token, ride.rideId) && e.kind == kind && e.ts == atMs
      ensures e.fareCents == if kind == Completed then ride.fareCents else None
      ensures Repeats(ride, e)
    {
      var id, version := RideIdOf(cfg.token, ride.rideId), PayloadVersion(atMs);
      var toDropoff := kind in {Requested, Started, Completed};
      RideEvent(
        EventIdOf(id, kind), id, kind, atMs, ride.riderId,
        if ride.driverId == None then None else Some(DriverName(ride.driverId.value)),
        ride.cityId, ride.pickup.lat, ride.pickup.lon,
        if toDropoff then Some(ride.dropoff.lat) else None,
        if toDropoff then Some(ride.dropoff.lon) else None,
        if kind == Completed then ride.fareCents else None,
        ride.surge, version, if version >= 2 then ride.promoCode else None)
    }

    // ---------------------------------------------------------------- firing

    /** `e` is the event that ride `r` had planned. */
    ghost predicate Emitted(u: RideState, r: nat, e: RideEvent) {
      Some(e.kind) == u.nextEvent && e.ts == u.nextAtMs && Built(e) && e.rideId == RideIdOf(cfg.token, r)
    }

    /** The counters count `e`, and a payment is queued exactly for a completion. */
    twostate predicate Tallied(e: RideEvent)
      reads this`payments, this`billed, this`completedRides, this`cancelledRides
    {
      && completedRides == old(completedRides) + (if e.kind == Completed then 1 else 0)
      && cancelledRides == old(cancelledRides) + (if e.kind == Cancelled then 1 else 0)
      && if e.kind == Completed then
           QueuedFor(old(payments), payments, e) && billed == old(billed) + [payments[|old(payments)|].1]
         else payments == old(payments) && billed == old(billed)
    }

    /** A completed event charges the fare of the trip's distance and duration. */
    ghost predicate Charged(ride: ActiveRide, e: RideEvent)
      reads ride
    {
      e.kind == Completed ==> e.fareCents == Some(FareCents(ride.distanceKm, ride.durationSec, ride.surge))
    }

    /** A completed ride leaves its driver at the dropoff. */
    ghost predicate DroppedOff(ride: ActiveRide, e: RideEvent)
      reads ride, fleet
    {
      e.kind == Completed ==>
        && ride.driverId != None && ride.driverId.value in fleet.states
        && fleet.states[ride.driverId.value].at == ride.dropoff
    }

    twostate lemma TallyKeepsPayments(e: RideEvent)
      requires old(PaymentsOk()) && Tallied(e) && emitted == old(emitted)
      ensures PaymentsOk()
    {
      hide PaymentsIn;
      if e.kind == Completed {
        var one := [payments[|old(payments)|]];
        assert payments == old(payments) + one;
        ItemsOfConcat(old(payments), one);
        assert ItemsOf(one) == [one[0].1];
      }
    }

    /** Fires the planned event of `ride`. The state machine never refuses it, and
        the ride goes on with a legal plan or leaves without its driver. */
    method Fire(ride: ActiveRide, ghost done: set<nat>) returns (e: RideEvent)
      requires PaymentsOk() && ValidBut(done) && ride.rideId in scene.rides && active[ride.rideId] == ride
      modifies this`scene, this`payments, this`billed, this`completedRides, this`cancelledRides, ride, ride.machine
      modifies fleet, fleet.owned
      ensures ValidBut(done + (if ride.rideId in scene.rides then {} else {ride.rideId}))
      ensures fresh(fleet.owned - old(fleet.owned))
      ensures Fired(old(scene), scene, ride.rideId)
      ensures ride.machine.state == old(scene).rides[ride.rideId].nextEvent
      ensures ride.stopAfter == old(scene).rides[ride.rideId].stopAfter
      ensures Emitted(old(scene).rides[ride.rideId], ride.rideId, e)
      ensures Tallied(e) && Charged(ride, e) && DroppedOff(ride, e) && PaymentsOk()
    {
      hide PaymentsOk, Charged, DroppedOff, DriverFleet.Valid, SceneOk, NextScene, Fired, Effect;
      hide Emitted, Tallied, CanFire, Keyed, InStep;
      ghost var r, before := ride.rideId, scene;
      MayFire(ride, done);
      e := TakePlanned(ride, done);
      TallyKeepsPayments(e);
      EffectKeeps(before, r, ride.State(), fleet.states, fleet.ledger);
      NextSceneIs(before, r, ride.State(), fleet.states, fleet.ledger);
      Settle(ride, done, NextScene(before, r, ride.State(), fleet.states, fleet.ledger));
    }

    /** No other ride's object is touched. */
    method TakePlanned(ride: ActiveRide, ghost done: set<nat>) returns (e: RideEvent)
      requires Objects(done, None) && ride.rideId in scene.rides && active[ride.rideId] == ride && CanFire(ride)
      modifies this`payments, this`billed, this`completedRides, this`cancelledRides, ride, ride.machine, fleet
      modifies fleet.owned
      ensures Objects(done, Some(ride.rideId)) && fresh(fleet.owned - old(fleet.owned))
      ensures TookEvent(ride, e)
    {
      hide DriverFleet.Valid, CanFire, TookEvent, Keyed;
      e := TakeEvent(ride);
      forall q | q in scene.rides && q != ride.rideId ensures Synced(active[q], q, scene.rides[q]) {
        assert old(Synced(active[q], q, scene.rides[q]));
        assert active[q] != ride && active[q].machine != ride.machine;
      }
    }

    lemma MayFire(ride: ActiveRide, done: set<nat>)
      requires ValidBut(done) && ride.rideId in scene.rides && active[ride.rideId] == ride
      ensures CanFire(ride) && Objects(done, None) && ride.State() == scene.rides[ride.rideId] && ride.nextEvent != None
      ensures ride.rideId in active && ride.rideId in scene.trace
      ensures ride.machine.rideId == ride.rideId && ride.cityId in fleet.cities && forall q :: q in scene.trace ==>
                q <= counter
    {
      hide DriverFleet.Valid, SceneOk, LegalPath;
      NeverStuck(scene, ride.rideId);
    }

    ghost predicate CanFire(ride: ActiveRide)
      reads ride, ride.machine, fleet
    {
      && ride.cityId in fleet.cities
      && ride.nextEvent != None && LegalNext(ride.machine.state, ride.nextEvent.value) && ride.machine.state != None
      && (ride.driverId == None <==> ride.machine.state == Some(Requested))
      && (ride.driverId != None ==> ride.driverId.value in fleet.states)
    }

    twostate predicate TookEvent(ride: ActiveRide, e: RideEvent)
      reads this`payments, this`billed, this`completedRides, this`cancelledRides, ride, ride.machine, fleet
    {
      && old(ride.nextEvent) != None
      && Effect(old(ride.State()), ride.State(), old(fleet.states), fleet.states, old(fleet.ledger), fleet.ledger)
      && ride.machine.state == old(ride.nextEvent) && ride.stopAfter == old(ride.stopAfter)
      && Emitted(old(ride.State()), ride.rideId, e) && Tallied(e) && Charged(ride, e) && DroppedOff(ride, e)
    }

    /** Takes over a scene in which `ride` has moved on or left. */
    ghost method Settle(ride: ActiveRide, done: set<nat>, after: Scene)
      requires Objects(done, Some(ride.rideId)) && ride.rideId in scene.rides && active[ride.rideId] == ride
      requires ride.machine.rideId == ride.rideId && ride.cityId in fleet.cities
      requires SceneOk(after) && after.states == fleet.states && after.ledger == fleet.ledger
      requires forall q :: q in after.trace ==> q <= counter
      requires after.rides == scene.rides - {ride.rideId} || after.rides == scene.rides[ride.rideId := ride.State()]
      modifies this`scene
      ensures ValidBut(done + (if ride.rideId in after.rides then {} else {ride.rideId})) && scene == after
    {
      hide DriverFleet.Valid, SceneOk;
      scene := after;
    }

    lemma NextSceneIs(s: Scene, r: nat, v: RideState, states: map<DriverId, DriverState>, ledger: seq<Move>)
      requires r in s.rides && r in s.trace && s.rides[r].nextEvent != None
      ensures var n := NextScene(s, r, v, states, ledger);
              && (n.rides == s.rides - {r} || n.rides == s.rides[r := v]) && n.states == states && n.ledger == ledger
              && n.trace.Keys == s.trace.Keys
    {
    }

    /** The ride's and the fleet's part of firing: one legal machine step, then
        what the event calls for. */
    method TakeEvent(ride: ActiveRide) returns (e: RideEvent)
      requires fleet.Valid() && CanFire(ride)
      modifies this`payments, this`billed, this`completedRides, this`cancelledRides, ride, ride.machine, fleet
      modifies fleet.owned
      ensures fleet.Valid() && fresh(fleet.owned - old(fleet.owned))
      ensures TookEvent(ride, e)
    {
      hide DriverFleet.Valid, RideIdOf, Remaining, EventIdOf, QueuedFor, EffectOf;
      var event, atMs := ride.nextEvent.value, ride.nextAtMs;
      var ok := ride.machine.Advance(event);
      assert ok;
      ride.nextEvent := None;
      AfterEvent(ride, event, atMs);
      e := EventFor(ride, event, atMs);
    }

    method AfterEvent(ride: ActiveRide, event: Kind, atMs: int)
      requires fleet.Valid() && ride.cityId in fleet.cities && ride.nextAtMs == atMs
      requires event != Requested && ride.machine.state == Some(event)
      requires ride.driverId == None ==> event == Matched || event == Cancelled
      requires ride.driverId != None ==> ride.driverId.value in fleet.states
      modifies this`payments, this`billed, this`completedRides, this`cancelledRides, ride, fleet, fleet.owned
      ensures fleet.Valid() && fresh(fleet.owned - old(fleet.owned))
      ensures EffectOf(event, old(ride.State()), ride.State(), old(fleet.states), fleet.states, old(fleet.ledger),
                       fleet.ledger)
      ensures ride.stopAfter == old(ride.stopAfter) && Tallied(EventFor(ride, event, atMs))
      ensures Charged(ride, EventFor(ride, event, atMs)) && DroppedOff(ride, EventFor(ride, event, atMs))
    {
      hide DriverFleet.Valid, RideIdOf, EventIdOf, QueuedFor;
      match event {
        case Requested =>
        case Matched => AfterMatched(ride, atMs);
        case DriverArrived =>
          if ride.stopAfter == Some(DriverArrived) {
            ReleaseDriver(ride, None);
          } else {
            AfterArrived(ride, atMs);
          }
        case Started =>
          ride.startedMs := atMs;
          AfterStarted(ride, atMs);
        case Completed =>
          Complete(ride, atMs);
          ReleaseDriver(ride, Some(ride.dropoff));
        case Cancelled =>
          cancelledRides := cancelledRides + 1;
          ReleaseDriver(ride, None);
      }
    }

    /** Assigns the nearest driver and plans on, or gives the driver back at once
        when the ride is to be abandoned here. */
    method AfterMatched(ride: ActiveRide, atMs: int)
      requires fleet.Valid() && ride.cityId in fleet.cities && ride.nextAtMs == atMs
      modifies ride`driverId, ride`nextEvent, ride`nextAtMs, fleet, fleet.owned
      ensures fleet.Valid() && fresh(fleet.owned - old(fleet.owned))
      ensures ride.driverId != None && var d := ride.driverId.value;
              && (d in old(fleet.states) ==>
                    && old(fleet.states)[d].status == Idle
                    && fleet.NearestIdle(old(fleet.states), ride.cityId, ride.pickup, d))
              && (d !in old(fleet.states) ==> fleet.NoneIdle(old(fleet.states), ride.cityId))
              && d in fleet.states && fleet.states == old(fleet.states)[d := fleet.states[d]]
              && if ride.stopAfter == Some(Matched) then
                   && fleet.states[d].status == Idle && fleet.ledger == old(fleet.ledger) + [Grant(d)] + [Return(d)]
                   && ride.State() == old(ride.State()).(driver := Some(d))
                 else
                   && fleet.states[d].status == EnRoute && fleet.ledger == old(fleet.ledger) + [Grant(d)]
                   && Planned(old(ride.State()).(driver := Some(d)), ride.State(), DriverArrived)
                   && (ride.nextEvent == Some(DriverArrived) ==>
                         ArrivesAfter(fleet.cfg.distance(fleet.states[d].at, ride.pickup), ride.nextAtMs - atMs))
                   && Possible(cfg.cancelProb(Matched), ride.nextEvent == Some(Cancelled))
    {
      hide DriverFleet.Valid, DriverFleet.NearestIdle, DriverFleet.NoneIdle, Travels;
      var driver, travelSec := fleet.Assign(ride.cityId, ride.pickup, atMs);
      NearestIsIdle(old(fleet.states), ride.cityId, ride.pickup, driver);
      TravelTakesTime(fleet.cfg.distance(fleet.states[driver].at, ride.pickup), travelSec);
      ride.driverId := Some(driver);
      if ride.stopAfter == Some(Matched) {
        ReleaseDriver(ride, None);
        return;
      }
      var cancelAfter := Exponential();
      ride.PlanOrCancel(DriverArrived, atMs, travelSec, cancelAfter, cfg.cancelProb(Matched));
    }

    /** Whole milliseconds of a travel time to the pickup. */
    ghost predicate ArrivesAfter(km: real, delayMs: int) {
      exists sec :: Travels(km, sec) && delayMs == Millis(sec)
    }

    lemma NearestIsIdle(states: map<DriverId, DriverState>, city: nat, pickup: Point, d: DriverId)
      ensures fleet.NearestIdle(states, city, pickup, d) ==> d in states && states[d].status == Idle
    {
    }

    method ReleaseDriver(ride: ActiveRide, at: Option<Point>)
      requires fleet.Valid() && (ride.driverId != None ==> ride.driverId.value in fleet.states)
      modifies fleet`states, fleet`ledger, fleet.owned
      ensures fleet.Valid()
      ensures match ride.driverId
              case None => fleet.states == old(fleet.states) && fleet.ledger == old(fleet.ledger)
              case Some(d) =>
                && Released(old(fleet.states), fleet.states, old(fleet.ledger), fleet.ledger, d)
                && fleet.states[d].at == at.GetOr(old(fleet.states)[d].at)
    {
      hide DriverFleet.Valid;
      if ride.driverId != None {
        fleet.Release(ride.driverId.value, at);
      }
    }

    method AfterArrived(ride: ActiveRide, atMs: int)
      requires ride.nextAtMs == atMs
      modifies ride`nextEvent, ride`nextAtMs
      ensures Planned(old(ride.State()), ride.State(), Started)
      ensures Possible(cfg.cancelProb(DriverArrived), ride.nextEvent == Some(Cancelled))
      ensures ride.nextEvent == Some(Started) ==> atMs + 10000 <= ride.nextAtMs <= atMs + 90000
    {
      var wait := Uniform(10.0, 90.0);
      MillisAtLeast(wait, 10);
      MillisAtMost(wait, 90);
      var cancelAfter := Exponential();
      ride.PlanOrCancel(Started, atMs, wait, cancelAfter, cfg.cancelProb(DriverArrived));
    }

    method AfterStarted(ride: ActiveRide, atMs: int)
      requires fleet.Valid() && ride.nextAtMs == atMs
      requires ride.driverId != None && ride.driverId.value in fleet.states
      modifies ride`durationSec, ride`nextEvent, ride`nextAtMs, fleet`states, fleet.owned
      ensures fleet.Valid()
      ensures var d, before := ride.driverId.value, old(fleet.states);
              fleet.states == before[d := before[d].(status := OnTrip)]
      ensures Planned(old(ride.State()), ride.State(), Completed) && ride.durationSec >= 60.0
      ensures Possible(cfg.cancelProb(Started), ride.nextEvent == Some(Cancelled))
      ensures ride.nextAtMs <= atMs + Millis(ride.durationSec)
      ensures ride.nextEvent == Some(Cancelled) ==>
                Millis(ride.durationSec * 0.1) <= ride.nextAtMs - atMs <= Millis(ride.durationSec * 0.8)
      ensures ride.nextEvent == Some(Completed) ==> ride.nextAtMs == atMs + Millis(ride.durationSec)
    {
      hide DriverFleet.Valid, Millis;
      ride.DrawDuration();
      var sec := ride.durationSec;
      fleet.RideStarted(ride.driverId.value, ride.dropoff, sec, atMs);
      var share := Uniform(0.1, 0.8);
      PartOf(sec, share);
      var cancelAfter := sec * share;
      ride.PlanOrCancel(Completed, atMs, sec, cancelAfter, cfg.cancelProb(Started));
    }

    /** From 10 to 80 percent of the trip. */
    lemma PartOf(sec: real, share: real)
      requires sec >= 0.0 && 0.1 <= share <= 0.8
      ensures 0.0 <= sec * share && Millis(sec * 0.1) <= Millis(sec * share) <= Millis(sec * 0.8) <= Millis(sec)
    {
      NotNegative(sec, share);
      NotNegative(sec, share - 0.1);
      NotNegative(sec, 0.8 - share);
      MillisBetween(sec * 0.1, sec * share, sec * 0.8);
      MillisBetween(sec * share, sec * 0.8, sec);
    }

    // -------------------------------------------------------------- payments

    /** One more payment: for this ride, its fare, 5 to 90 seconds after the event. */
    ghost predicate QueuedFor(before: seq<(int, Payment)>, after: seq<(int, Payment)>, e: RideEvent) {
      && |after| == |before| + 1 && after[..|before|] == before
      && var (due, p) := after[|before|];
         && p.rideId == e.rideId && p.txnId == "t-" + e.rideId && e.fareCents == Some(p.amountCents) && p.ts == due
         && e.ts + 5000 <= due <= e.ts + 90000 && Settled(p)
    }

    /** Status and method are among those a roll in [0, 1) gives. */
    ghost predicate Settled(p: Payment) {
      && (exists roll :: 0.0 <= roll < 1.0 && p.status == PaymentStatus(roll))
      && (exists roll :: 0.0 <= roll < 1.0 && p.method_ == PaymentMethod(roll))
    }

    method Complete(ride: ActiveRide, atMs: int)
      modifies this`payments, this`billed, this`completedRides, ride`fareCents
      ensures completedRides == old(completedRides) + 1
      ensures QueuedFor(old(payments), payments, EventFor(ride, Completed, atMs))
      ensures billed == old(billed) + [payments[|old(payments)|].1]
      ensures ride.fareCents == Some(FareCents(ride.distanceKm, ride.durationSec, ride.surge))
    {
      hide RideIdOf, Settled, FareCents;
      ride.fareCents := Some(FareCents(ride.distanceKm, ride.durationSec, ride.surge));
      completedRides := completedRides + 1;
      QueuePayment(ride, atMs);
    }

    method QueuePayment(ride: ActiveRide, completedMs: int)
      requires ride.fareCents != None
      modifies this`payments, this`billed
      ensures |payments| == |old(payments)| + 1 && payments[..|old(payments)|] == old(payments)
      ensures billed == old(billed) + [payments[|old(payments)|].1]
      ensures var (due, p) := payments[|old(payments)|];
              && p.rideId == RideIdOf(cfg.token, ride.rideId) && p.txnId == "t-" + p.rideId && Settled(p)
              && p.amountCents == ride.fareCents.value && p.ts == due
              && completedMs + 5000 <= due <= completedMs + 90000
    {
      var delay := Uniform(5.0, 90.0);
      MillisAtLeast(delay, 5);
      MillisAtMost(delay, 90);
      var dueMs := completedMs + Millis(delay);
      var roll := Roll();
      var methodRoll := Roll();
      var id := RideIdOf(cfg.token, ride.rideId);
      var payment :=
        Payment("t-" + id, id, ride.fareCents.value, PaymentStatus(roll), PaymentMethod(methodRoll), dueMs);
      payments, billed := payments + [(dueMs, payment)], billed + [payment];
    }

    /** Payments that are due go out, in the order they were queued. */
    method DuePayments(nowMs: int) returns (due: seq<Payment>)
      modifies this`payments
      ensures due == ItemsOf(Due(old(payments), nowMs)) && payments == NotDue(old(payments), nowMs)
    {
      var out, kept := [], [];
      for i := 0 to |payments|
        invariant payments == old(payments)
        invariant out == Due(payments[..i], nowMs) && kept == NotDue(payments[..i], nowMs)
      {
        assert payments[..i + 1][..i] == payments[..i];
        if payments[i].0 <= nowMs {
          out := out + [payments[i]];
        } else {
          kept := kept + [payments[i]];
        }
      }
      assert payments[..|payments|] == payments;
      due, payments := ItemsOf(out), kept;
    }

    // -------------------------------------------------------------- progress

    /** Every ride's trace is extended by exactly its events in `events`. */
    ghost predicate Grown(before: Scene, after: Scene, events: seq<RideEvent>) {
      && before.trace.Keys <= after.trace.Keys
      && (forall q :: q in after.trace ==>
            after.trace[q].events == TraceOf(before, q) + StampsOf(events, RideIdOf(cfg.token, q)))
      && (forall e :: e in events ==> KnownRide(after, e))
    }

    ghost predicate KnownRide(s: Scene, e: RideEvent) {
      exists q :: q in s.trace && e.rideId == RideIdOf(cfg.token, q)
    }

    lemma GrownTrace(before: Scene, after: Scene, events: seq<RideEvent>, q: nat)
      requires Grown(before, after, events) && q in after.trace
      ensures after.trace[q].events == TraceOf(before, q) + StampsOf(events, RideIdOf(cfg.token, q))
    {
    }

    lemma GrownKeeps(before: Scene, after: Scene, events: seq<RideEvent>, q: nat)
      requires Grown(before, after, events) && q !in after.trace
      ensures q !in before.trace
    {
    }

    lemma GrownKnows(before: Scene, after: Scene, events: seq<RideEvent>, e: RideEvent)
      requires Grown(before, after, events) && (KnownRide(before, e) || e in events)
      ensures KnownRide(after, e)
    {
      hide RideIdOf, StampsOf;
    }

    lemma SameIdKnown(s: Scene, e: RideEvent, x: RideEvent)
      requires KnownRide(s, x) && x.rideId == e.rideId
      ensures KnownRide(s, e)
    {
      hide RideIdOf;
    }

    ghost function TraceOf(s: Scene, q: nat): seq<Stamp> {
      if q in s.trace then s.trace[q].events else []
    }

    /** The due events of all active rides; rides that left are dropped at the end. */
    method Progress(nowMs: int) returns (events: seq<RideEvent>)
      requires Valid() && PaymentsOk()
      modifies this`scene, this`payments, this`billed, this`completedRides, this`cancelledRides, this`active, owned
      modifies machines, fleet, fleet.owned
      ensures Valid() && fresh(fleet.owned - old(fleet.owned))
      ensures Grown(old(scene), scene, events)
      ensures PaymentsOk()
      ensures forall q :: q in scene.rides ==> scene.rides[q].nextAtMs > nowMs
      ensures forall e :: e in events ==> e.ts <= nowMs && Built(e)
    {
      hide PaymentsOk, DriverFleet.Valid, SceneOk, Keyed, InStep, Advanced, Grown, RideIdOf, Built;
      ghost var before := scene;
      events := [];
      NothingGrown(scene);
      AllLive();
      var done: set<nat>, todo := {}, active.Keys;
      while todo != {}
        invariant ValidBut(done) && fresh(fleet.owned - old(fleet.owned))
        invariant todo <= scene.rides.Keys && active == old(active)
        invariant Grown(before, scene, events)
        invariant PaymentsOk()
        invariant forall q :: q in scene.rides && q !in todo ==> scene.rides[q].nextAtMs > nowMs
        invariant forall e :: e in events ==> e.ts <= nowMs && Built(e)
        decreases todo
      {
        var r :| r in todo;
        ghost var mid := scene;
        OwnRide(r, done);
        assert done + {} == done;
        var more, left := FireDue(active[r], nowMs, done);
        GrowMore(before, mid, scene, r, events, more);
        OnlyOneMoved(mid, scene, r, more);
        events, todo := events + more, todo - {r};
        if left {
          done := done + {r};
        }
      }
      Drop(done);
    }

    method Drop(done: set<nat>)
      requires ValidBut(done)
      modifies this`active
      ensures Valid()
    {
      hide DriverFleet.Valid, SceneOk;
      active := map q | q in active && q !in done :: active[q];
    }

    lemma AllLive()
      requires Valid()
      ensures active.Keys == scene.rides.Keys
    {
      hide DriverFleet.Valid, SceneOk;
    }

    lemma NothingGrown(s: Scene)
      ensures Grown(s, s, [])
    {
    }

    lemma GrowMore(before: Scene, mid: Scene, after: Scene, r: nat, events: seq<RideEvent>, more: seq<RideEvent>)
      requires Grown(before, mid, events) && Advanced(mid, after, r, more)
      ensures Grown(before, after, events + more)
    {
      hide RideIdOf, StampsOf;
      forall e | e in events + more ensures KnownRide(after, e) {
        assert e in events ==> KnownRide(mid, e);
      }
      forall q | q in after.trace
        ensures after.trace[q].events == TraceOf(before, q) + StampsOf(events + more, RideIdOf(cfg.token, q))
      {
        StampsOfConcat(events, more, RideIdOf(cfg.token, q));
        if q != r { NoStamps(more, r, q); }
      }
    }

    lemma OnlyOneMoved(mid: Scene, after: Scene, r: nat, more: seq<RideEvent>)
      requires r in mid.rides && Advanced(mid, after, r, more)
      ensures after.rides.Keys == (if r in after.rides then mid.rides.Keys else mid.rides.Keys - {r})
      ensures forall q :: q in after.rides && q != r ==> after.rides[q] == mid.rides[q]
    {
      hide StampsOf, RideIdOf;
    }

    lemma OwnRide(r: nat, done: set<nat>)
      requires ValidBut(done) && r in scene.rides
      ensures r in active && active[r].rideId == r && active[r] in owned && active[r].machine in machines
    {
      hide DriverFleet.Valid, SceneOk;
    }

    // ----------------------------------------------------------------- spawn

    /** The carry accumulates the demand; each whole unit becomes a ride. */
    method Spawn(nowMs: int) returns (events: seq<RideEvent>)
      requires Valid() && fleet.cities != {}
      modifies this`scene, this`counter, this`spawnCarry, this`active, this`owned, this`machines
      ensures Valid() && fresh(owned - old(owned)) && fresh(machines - old(machines))
      ensures Grown(old(scene), scene, events)
      ensures forall e :: e in events ==> e.kind == Requested && nowMs <= e.ts < nowMs + cfg.tickMs && Built(e)
      ensures counter == old(counter) + |events| && spawnCarry < 1.0
      ensures spawnCarry + |events| as real == old(spawnCarry) + cfg.ridesPerTick(nowMs)
    {
      hide Valid, Grown, RideIdOf, Built;
      ghost var before := scene;
      events := [];
      NothingGrown(scene);
      spawnCarry := spawnCarry + cfg.ridesPerTick(nowMs);
      while spawnCarry >= 1.0
        invariant Valid() && fresh(owned - old(owned)) && fresh(machines - old(machines))
        invariant Grown(before, scene, events)
        invariant forall e :: e in events ==>
                    e.kind == Requested && nowMs <= e.ts < nowMs + cfg.tickMs && Built(e)
        invariant counter == old(counter) + |events|
        invariant spawnCarry + |events| as real == old(spawnCarry) + cfg.ridesPerTick(nowMs)
        decreases spawnCarry.Floor
      {
        spawnCarry := spawnCarry - 1.0;
        ghost var mid := scene;
        var e := CreateRide(nowMs);
        GrowNew(before, mid, scene, counter, events, e);
        events := events + [e];
      }
    }

    /** A new ride under an unused id, its request emitted and its next event planned. */
    method CreateRide(nowMs: int) returns (e: RideEvent)
      requires Valid() && fleet.cities != {}
      modifies this`scene, this`counter, this`active, this`owned, this`machines
      ensures Valid() && fresh(owned - old(owned)) && fresh(machines - old(machines))
      ensures counter == old(counter) + 1 && counter !in old(scene).trace
      ensures scene.trace == old(scene).trace[counter := Trace([Stamp(Requested, e.ts)], None)]
      ensures counter in scene.rides && scene.rides == old(scene).rides[counter := scene.rides[counter]]
      ensures Possible(cfg.abandonRate, scene.rides[counter].stopAfter != None)
      ensures Possible(cfg.cancelProb(Requested), scene.rides[counter].nextEvent == Some(Cancelled))
      ensures e.kind == Requested && nowMs <= e.ts < nowMs + cfg.tickMs
      ensures Built(e) && e.rideId == RideIdOf(cfg.token, counter)
    {
      hide DriverFleet.Valid, SceneOk, RideIdOf;
      FreshId();
      counter := counter + 1;
      var ride := NewRide(counter, nowMs);
      Enroll(ride);
      e := EventFor(ride, Requested, ride.requestedMs);
    }

    method NewRide(id: nat, nowMs: int) returns (ride: ActiveRide)
      requires fleet.cities != {} && cfg.tickMs > 0
      ensures fresh(ride) && fresh(ride.machine) && ride.rideId == id && ride.machine.rideId == id
      ensures ride.cityId in fleet.cities
      ensures nowMs <= ride.requestedMs < nowMs + cfg.tickMs
      ensures 1.0 <= ride.surge <= 3.0 && ride.distanceKm == fleet.cfg.distance(ride.pickup, ride.dropoff)
      ensures Possible(cfg.abandonRate, ride.stopAfter != None)
      ensures Possible(cfg.cancelProb(Requested), ride.nextEvent == Some(Cancelled))
      ensures ride.machine.state == Some(Requested) && ride.driverId == None
      ensures Scheduled(ride.State(), ride.requestedMs)
    {
      ride := DrawRide(id, nowMs);
      var ok := ride.machine.Advance(Requested);
      assert ok;
      var roll := Roll();
      if roll < cfg.abandonRate {
        var pick := Below(2);
        ride.stopAfter := Some(if pick == 0 then Matched else DriverArrived);
      }
      ride.ScheduleAfterRequested(cfg.cancelProb(Requested));
    }

    /** Pickup and dropoff in a city, a surge from 1 to 3, a request time in the tick. */
    method DrawRide(id: nat, nowMs: int) returns (ride: ActiveRide)
      requires fleet.cities != {} && cfg.tickMs > 0
      ensures fresh(ride) && fresh(ride.machine) && ride.rideId == id && ride.machine.rideId == id
      ensures ride.cityId in fleet.cities && nowMs <= ride.requestedMs < nowMs + cfg.tickMs
      ensures 1.0 <= ride.surge <= 3.0 && ride.distanceKm == fleet.cfg.distance(ride.pickup, ride.dropoff)
      ensures ride.State() == RideState(None, None, None, 0, None)
    {
      var city :| city in fleet.cities;
      var pickup := SamplePoint();
      var dropoff := SamplePoint();
      if fleet.cfg.distance(pickup, dropoff) < 0.5 {
        dropoff := SamplePoint();
      }
      var rider := Below(200000);
      var gauss := Gauss();
      var offset := Below(cfg.tickMs);
      var promo := DrawPromo();
      ride := new ActiveRide(id, "u-" + Padded(rider, 6), city, pickup, dropoff, Clip(gauss, 1.0, 3.0),
                             fleet.cfg.distance(pickup, dropoff), promo, nowMs + offset);
    }

    method DrawPromo() returns (promo: Option<string>) {
      var roll := Roll();
      var pick := Below(4);
      promo := if roll < 0.15 then Some(["SAVE10", "FIRST50", "WKND20", "MONSOON15"][pick]) else None;
    }

    method Enroll(ride: ActiveRide)
      requires cfg.tickMs > 0 && fleet.Valid() && Keyed(active, scene, counter, {})
      requires InStep(active, scene.rides, owned, machines, None) && SceneOk(scene)
      requires scene.states == fleet.states && scene.ledger == fleet.ledger
      requires ride.rideId !in scene.trace && ride.rideId !in active && ride.rideId !in scene.rides
      requires ride.rideId <= counter
      requires ride.machine.rideId == ride.rideId && ride.cityId in fleet.cities
      requires ride.machine.state == Some(Requested) && ride.driverId == None
      requires Scheduled(ride.State(), ride.requestedMs)
      modifies this`scene, this`active, this`owned, this`machines
      ensures Valid() && owned == old(owned) + {ride} && machines == old(machines) + {ride.machine}
      ensures scene.trace == old(scene).trace[ride.rideId := Trace([Stamp(Requested, ride.requestedMs)], None)]
      ensures scene.rides == old(scene).rides[ride.rideId := ride.State()]
    {
      hide DriverFleet.Valid, SceneOk, Scheduled, Keyed, InStep;
      var r := ride.rideId;
      OneMoreRide(ride, r, Trace([Stamp(Requested, ride.requestedMs)], None));
      SpawnKeeps(scene, r, ride.State(), ride.requestedMs);
      active, owned, machines, scene :=
        active[r := ride], owned + {ride}, machines + {ride.machine},
        scene.(rides := scene.rides[r := ride.State()],
        trace := scene.trace[r := Trace([Stamp(Requested, ride.requestedMs)], None)]);
    }

    lemma OneMoreRide(ride: ActiveRide, r: nat, t: Trace)
      requires Keyed(active, scene, counter, {}) && InStep(active, scene.rides, owned, machines, None)
      requires r !in scene.rides && r <= counter && Synced(ride, r, ride.State())
      ensures InStep(active[r := ride], scene.rides[r := ride.State()], owned + {ride}, machines + {ride.machine}, None)
      ensures Keyed(active[r := ride], scene.(rides := scene.rides[r := ride.State()], trace := scene.trace[r := t]),
                    counter, {})
    {
    }

    lemma GrowNew(before: Scene, mid: Scene, after: Scene, r: nat, events: seq<RideEvent>, e: RideEvent)
      requires Grown(before, mid, events) && r !in mid.trace && e.rideId == RideIdOf(cfg.token, r)
      requires e.kind == Requested
      requires after.trace == mid.trace[r := Trace([Stamp(Requested, e.ts)], None)]
      ensures Grown(before, after, events + [e])
    {
      hide RideIdOf;
      forall x | x in events + [e] ensures KnownRide(after, x) {
        assert x in events ==> KnownRide(mid, x);
      }
      forall q | q in after.trace
        ensures after.trace[q].events == TraceOf(before, q) + StampsOf(events + [e], RideIdOf(cfg.token, q))
      {
        StampsOfConcat(events, [e], RideIdOf(cfg.token, q));
        if q != r { NoStamps([e], r, q); } else { NoEarlierStamps(mid, events, r); }
        assert [e][..0] == [];
      }
    }

    lemma {:induction false} NoEarlierStamps(s: Scene, events: seq<RideEvent>, r: nat)
      requires r !in s.trace && forall e :: e in events ==> KnownRide(s, e)
      ensures StampsOf(events, RideIdOf(cfg.token, r)) == []
    {
      if events != [] {
        NoEarlierStamps(s, events[..|events| - 1], r);
        var e := events[|events| - 1];
        assert KnownRide(s, e);
        var q :| q in s.trace && e.rideId == RideIdOf(cfg.token, q);
        if RideIdOf(cfg.token, q) == RideIdOf(cfg.token, r) { RideIdsAreUnique(cfg.token, q, r); }
      }
    }

    lemma FreshId()
      requires Valid()
      ensures counter + 1 !in scene.trace && counter + 1 !in active && counter + 1 !in scene.rides
      ensures cfg.tickMs > 0 && fleet.Valid() && Keyed(active, scene, counter, {})
      ensures InStep(active, scene.rides, owned, machines, None) && SceneOk(scene)
    {
      hide DriverFleet.Valid, Alternates;
    }

    lemma {:induction false} NoStamps(events: seq<RideEvent>, r: nat, q: nat)
      requires q != r && forall e :: e in events ==> e.rideId == RideIdOf(cfg.token, r)
      ensures StampsOf(events, RideIdOf(cfg.token, q)) == []
    {
      if events != [] {
        NoStamps(events[..|events| - 1], r, q);
        if RideIdOf(cfg.token, q) == RideIdOf(cfg.token, r) { RideIdsAreUnique(cfg.token, q, r); }
      }
    }

    /** Fires the due events of one ride, until it leaves or has none left. */
    method FireDue(ride: ActiveRide, nowMs: int, ghost done: set<nat>) returns (events: seq<RideEvent>, left: bool)
      requires PaymentsOk() && ValidBut(done) && ride.rideId in scene.rides && active[ride.rideId] == ride
      modifies this`scene, this`payments, this`billed, this`completedRides, this`cancelledRides, ride, ride.machine
      modifies fleet, fleet.owned
      ensures ValidBut(done + if left then {ride.rideId} else {}) && fresh(fleet.owned - old(fleet.owned))
      ensures left <==> ride.rideId !in scene.rides
      ensures PaymentsOk()
      ensures Advanced(old(scene), scene, ride.rideId, events) && ride.rideId in scene.trace
      ensures !left ==> scene.rides[ride.rideId].nextAtMs > nowMs
      ensures forall e :: e in events ==> e.ts <= nowMs && Built(e)
    {
      hide PaymentsOk, DriverFleet.Valid, SceneOk, Keyed, InStep, Synced, LegalPath, RideIdOf, EventIdOf;
      hide Charged, DroppedOff, Tallied;
      ghost var r, before := ride.rideId, scene;
      events := [];
      MayFire(ride, done);
      assert done + {} == done && before.trace[r].events + [] == before.trace[r].events;
      while HasDueEvent(ride, nowMs)
        invariant ValidBut(done) && fresh(fleet.owned - old(fleet.owned))
        invariant r in scene.rides && r in active && active[r] == ride
        invariant Advanced(before, scene, r, events)
        invariant PaymentsOk()
        invariant ride.State() == scene.rides[r] && ride.nextEvent != None
        invariant forall e :: e in events ==> e.ts <= nowMs && Built(e)
        decreases Remaining(scene.rides[r].state)
      {
        ghost var last := scene;
        var e := Fire(ride, done);
        AdvanceMore(before, last, scene, r, events, e);
        events := events + [e];
        if TerminalKind(ride.machine.state.value) || ride.stopAfter == ride.machine.state {
          return events, true;
        }
        MayFire(ride, done);
      }
      left := false;
    }

    lemma AdvanceMore(before: Scene, mid: Scene, after: Scene, r: nat, events: seq<RideEvent>, e: RideEvent)
      requires Advanced(before, mid, r, events) && Fired(mid, after, r) && r in mid.rides && Emitted(mid.rides[r], r, e)
      ensures Advanced(before, after, r, events + [e])
    {
      hide RideIdOf;
      StampsOfConcat(events, [e], RideIdOf(cfg.token, r));
      assert [e][..0] == [];
    }

    predicate HasDueEvent(ride: ActiveRide, nowMs: int)
      reads ride
    {
      ride.nextEvent != None && ride.nextAtMs <= nowMs
    }

    /** Only ride `r` moved, and its trace grew by its events. */
    ghost predicate Advanced(before: Scene, after: Scene, r: nat, events: seq<RideEvent>) {
      && after.rides == (if r in after.rides then before.rides[r := after.rides[r]] else before.rides - {r})
      && r in before.trace && r in after.trace && after.trace == before.trace[r := after.trace[r]]
      && after.trace[r].events == before.trace[r].events + StampsOf(events, RideIdOf(cfg.token, r))
      && forall e :: e in events ==> e.rideId == RideIdOf(cfg.token, r)
    }
  }
}
