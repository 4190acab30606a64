// The tick loop (src/generator/simulate.py): release what is due, then pipe the
// simulator's events through the imperfection layer.
module Simulate {

  import opened Wrappers
  import opened Lifecycle
  import opened SessionFold
  import opened Events
  import opened Holding
  import opened Fleet
  import opened RideScene
  import opened Rides
  import opened RideSimulator
  import opened Imperfections

  function Flattened(batches: seq<(int, seq<SourceEvent>)>): seq<SourceEvent> {
    if batches == [] then [] else Flattened(batches[..|batches| - 1]) + batches[|batches| - 1].1
  }

  /** The simulated time after `ticks` ticks (src/generator/clock.py). */
  function NowMs(anchorMs: int, tickMs: int, ticks: nat): int {
    anchorMs + ticks * tickMs
  }

  lemma NextTick(anchorMs: int, tickMs: int, ticks: nat)
    ensures NowMs(anchorMs, tickMs, ticks + 1) == NowMs(anchorMs, tickMs, ticks) + tickMs
    ensures NowMs(anchorMs, tickMs, 0) == anchorMs
  {
  }

  /** The ride events taken in by the layer are, per ride, its trace; they kept
      their ids, and each belongs to a ride of the simulator. */
  ghost predicate Traced(sim: RideSimulator, s: Scene, made: seq<SourceEvent>) {
    && (forall q :: q in s.trace ==> StampsOf(RideEventsIn(made), RideIdOf(sim.cfg.token, q)) == s.trace[q].events)
    && (forall e :: e in RideEventsIn(made) ==> GeneratorBuilt(e) && sim.KnownRide(s, e))
  }

  /** What the layer took in is, event by event, what the simulator emitted. */
  ghost predicate Fed(emitted: seq<SourceEvent>, made: seq<SourceEvent>) {
    |made| == |emitted| && forall i :: 0 <= i < |made| ==> Variant(emitted[i], made[i])
  }

  /** Any number of ticks, whatever the draws. No step fails. Drivers are owned
      exclusively, every ride has a legal history and, while active, a legal event
      ahead, and completed rides are billed once. What the layer emitted or holds is
      what the simulator emitted and one copy of each event in the duplicate bucket. */
  method SimulateTicks(sim: RideSimulator, imp: Imperfector, ticks: nat) returns (batches: seq<(int, seq<SourceEvent>)>)
    requires sim.Valid() && sim.fleet.cities != {} && sim.scene.trace == map[]
    requires sim.PaymentsOk() && sim.OutputOk() && sim.emitted == []
    requires imp.Valid() && imp.log == History([], [], [], [])
    modifies sim, sim.owned, sim.machines, sim.fleet, sim.fleet.owned, imp
    ensures sim.Valid() && imp.Valid()
    ensures |batches| == ticks && forall i :: 0 <= i < ticks ==> batches[i].0 == NowMs(sim.anchorMs, sim.cfg.tickMs, i)
    ensures Flattened(batches) == imp.log.sent && Fed(sim.emitted, imp.log.made)
    ensures |imp.log.buckets| == |imp.log.made| && Conserved(imp.log, imp.held)
    ensures |CopiesOf(imp.log.made, imp.log.buckets)| == Tally(imp.log.buckets, Duplicate) == imp.stats.duplicate
    ensures CorruptIn(imp.log.sent) == InBucket(imp.log.made, imp.log.buckets, Malformed)
    ensures Perfect(imp.cfg) ==> imp.log.sent == sim.emitted && imp.held == []
    ensures forall x :: x in imp.log.releases ==> x.dueMs <= x.atMs
    ensures |imp.log.releases| + |imp.held| == imp.stats.duplicate + imp.stats.outOfOrder + imp.stats.late
    ensures LocationsIn(imp.log.sent) == Positions(sim.pings) && Masked(sim.pings)
    ensures sim.ExclusiveDrivers() && sim.PaymentsOk() && Traced(sim, sim.scene, imp.log.made)
    ensures forall q :: q in sim.scene.trace ==>
              LegalPath(sim.scene.trace[q].events) && |sim.scene.trace[q].events| <= 5
    ensures forall q :: q in sim.scene.rides ==>
              sim.scene.rides[q].nextEvent != None && LegalNext(sim.scene.rides[q].state,
                                                                sim.scene.rides[q].nextEvent.value)
  {
    hide RideSimulator.Valid, RideSimulator.ExclusiveDrivers, RideSimulator.PaymentsOk, RideSimulator.OutputOk;
    hide Imperfector.Valid, Traced, Fed, NowMs, Conserved, SceneOk, LegalPath, LegalNext, CopiesOf, Masked;
    batches := [];
    var nowMs := sim.anchorMs;
    NextTick(sim.anchorMs, sim.cfg.tickMs, 0);
    NothingYet(sim, sim.scene);
    while |batches| < ticks
      invariant |batches| <= ticks && nowMs == NowMs(sim.anchorMs, sim.cfg.tickMs, |batches|)
      invariant forall i :: 0 <= i < |batches| ==> batches[i].0 == NowMs(sim.anchorMs, sim.cfg.tickMs, i)
      invariant sim.Valid() && sim.PaymentsOk() && sim.OutputOk() && imp.Valid()
      invariant fresh(sim.owned - old(sim.owned)) && fresh(sim.machines - old(sim.machines))
      invariant fresh(sim.fleet.owned - old(sim.fleet.owned))
      invariant Flattened(batches) == imp.log.sent
      invariant Traced(sim, sim.scene, imp.log.made) && Fed(sim.emitted, imp.log.made)
      invariant Perfect(imp.cfg) ==> imp.log.sent == sim.emitted
      decreases ticks - |batches|
    {
      var batch := Tick(sim, imp, nowMs);
      NextTick(sim.anchorMs, sim.cfg.tickMs, |batches|);
      assert (batches + [(nowMs, batch)])[..|batches|] == batches;
      batches, nowMs := batches + [(nowMs, batch)], nowMs + sim.cfg.tickMs;
    }
    LayerIsSound(sim, imp);
    sim.OwnershipIsExclusive();
    sim.ScenesAreSound();
    forall q | q in sim.scene.trace ensures LegalPath(sim.scene.trace[q].events) && |sim.scene.trace[q].events| <= 5 {
      TraceIsLegal(sim.scene, q);
    }
    forall q | q in sim.scene.rides
      ensures sim.scene.rides[q].nextEvent != None
      ensures LegalNext(sim.scene.rides[q].state, sim.scene.rides[q].nextEvent.value)
    {
      NeverStuck(sim.scene, q);
    }
  }

  /** What the layer's invariant and its feed give. */
  lemma LayerIsSound(sim: RideSimulator, imp: Imperfector)
    requires imp.Valid() && sim.OutputOk() && Fed(sim.emitted, imp.log.made)
    ensures |imp.log.buckets| == |imp.log.made| && Conserved(imp.log, imp.held)
    ensures |CopiesOf(imp.log.made, imp.log.buckets)| == Tally(imp.log.buckets, Duplicate) == imp.stats.duplicate
    ensures CorruptIn(imp.log.sent) == InBucket(imp.log.made, imp.log.buckets, Malformed)
    ensures Perfect(imp.cfg) ==> imp.held == []
    ensures forall x :: x in imp.log.releases ==> x.dueMs <= x.atMs
    ensures |imp.log.releases| + |imp.held| == imp.stats.duplicate + imp.stats.outOfOrder + imp.stats.late
    ensures LocationsIn(imp.log.sent) == Positions(sim.pings) && Masked(sim.pings)
  {
    hide Conserved, Masked, Positions, Variant;
    CopiesAreCounted(imp.log.made, imp.log.buckets);
    FedLocations(sim.emitted, imp.log.made);
  }

  lemma {:induction false} FedLocations(emitted: seq<SourceEvent>, made: seq<SourceEvent>)
    requires Fed(emitted, made)
    ensures LocationsIn(made) == LocationsIn(emitted)
  {
    if made != [] {
      var n := |made| - 1;
      FedLocations(emitted[..n], made[..n]);
      assert Variant(emitted[n], made[n]);
    }
  }

  /** One tick of both: with all rates zero its batch is the simulator's output. */
  method Tick(sim: RideSimulator, imp: Imperfector, nowMs: int) returns (batch: seq<SourceEvent>)
    requires sim.Valid() && sim.PaymentsOk() && sim.OutputOk() && sim.fleet.cities != {}
    requires imp.Valid() && Traced(sim, sim.scene, imp.log.made) && Fed(sim.emitted, imp.log.made)
    modifies sim, sim.owned, sim.machines, sim.fleet, sim.fleet.owned, imp
    ensures sim.Valid() && sim.PaymentsOk() && sim.OutputOk() && imp.Valid()
    ensures Traced(sim, sim.scene, imp.log.made) && Fed(sim.emitted, imp.log.made)
    ensures fresh(sim.owned - old(sim.owned)) && fresh(sim.machines - old(sim.machines))
    ensures fresh(sim.fleet.owned - old(sim.fleet.owned))
    ensures imp.log.sent == old(imp.log.sent) + batch
    ensures Perfect(imp.cfg) ==> sim.emitted == old(sim.emitted) + batch
  {
    hide RideSimulator.Valid, RideSimulator.Grown, RideSimulator.PaymentsOk, RideSimulator.OutputOk;
    hide Imperfector.Valid, Traced, Fed, Variant, GeneratorBuilt, RideEventsIn, Plain, Due, NotDue;
    ghost var made, before, sent := imp.log.made, sim.scene, imp.log.sent;
    ghost var emitted := sim.emitted;
    if Perfect(imp.cfg) { imp.PerfectHoldsNothing(nowMs); }
    var released := imp.ReleaseDue(nowMs);
    var events := Simulated(sim, nowMs);
    var out := Pipe(imp, events, nowMs);
    assert sent + released + out == sent + (released + out);
    assert Perfect(imp.cfg) ==> released + out == events;
    batch := released + out;
    TracedGrows(sim, before, sim.scene, made, events, imp.log.made);
    FedGrows(emitted, made, events, imp.log.made);
  }

  method Simulated(sim: RideSimulator, nowMs: int) returns (events: seq<SourceEvent>)
    requires sim.Valid() && sim.PaymentsOk() && sim.OutputOk() && sim.fleet.cities != {}
    modifies sim, sim.owned, sim.machines, sim.fleet, sim.fleet.owned
    ensures sim.Valid() && sim.PaymentsOk() && sim.OutputOk()
    ensures sim.Grown(old(sim.scene), sim.scene, RideEventsIn(events)) && sim.emitted == old(sim.emitted) + events
    ensures fresh(sim.owned - old(sim.owned)) && fresh(sim.machines - old(sim.machines))
    ensures fresh(sim.fleet.owned - old(sim.fleet.owned))
    ensures forall e :: e in RideEventsIn(events) ==> GeneratorBuilt(e)
    ensures forall x :: x in events ==> Plain(x) == x
  {
    hide RideSimulator.Valid, RideSimulator.Grown, RideSimulator.PaymentsOk, RideSimulator.OutputOk;
    hide GeneratorBuilt, RideEventsIn;
    events := sim.OnTick(nowMs);
  }

  lemma FedGrows(emitted: seq<SourceEvent>, made: seq<SourceEvent>, events: seq<SourceEvent>, made': seq<SourceEvent>)
    requires Fed(emitted, made) && |made'| == |made| + |events| && made <= made'
    requires forall i :: 0 <= i < |events| ==> Variant(events[i], made'[|made| + i])
    ensures Fed(emitted + events, made')
  {
    hide Variant;
    forall i | 0 <= i < |made'| ensures Variant((emitted + events)[i], made'[i]) {
      if i >= |made| { assert Variant(events[i - |made|], made'[|made| + (i - |made|)]); }
    }
  }

  lemma NothingYet(sim: RideSimulator, s: Scene)
    requires s.trace == map[]
    ensures Traced(sim, s, []) && Fed([], [])
  {
  }

  lemma TracedGrows(sim: RideSimulator, before: Scene, after: Scene, made: seq<SourceEvent>, events: seq<SourceEvent>,
                    made': seq<SourceEvent>)
    requires Traced(sim, before, made) && sim.Grown(before, after, RideEventsIn(events))
    requires forall e :: e in RideEventsIn(events) ==> GeneratorBuilt(e)
    requires |made'| == |made| + |events| && made <= made'
    requires forall i :: 0 <= i < |events| ==> Variant(events[i], made'[|made| + i])
    ensures Traced(sim, after, made')
  {
    hide RideIdOf, GeneratorBuilt, StampsOf, RideEventsIn, Variant, RideSimulator.Grown, RideSimulator.KnownRide;
    var tail := made'[|made|..];
    assert made' == made + tail;
    assert forall i :: 0 <= i < |events| ==> tail[i] == made'[|made| + i];
    InConcat(made, tail);
    forall q | q in after.trace
      ensures StampsOf(RideEventsIn(made'), RideIdOf(sim.cfg.token, q)) == after.trace[q].events
    {
      var id := RideIdOf(sim.cfg.token, q);
      StampsOfConcat(RideEventsIn(made), RideEventsIn(tail), id);
      VariantsKeepStamps(events, tail, id);
      sim.GrownTrace(before, after, RideEventsIn(events), q);
      if q !in before.trace { sim.NoEarlierStamps(before, RideEventsIn(made), q); }
    }
    forall e | e in RideEventsIn(made') ensures GeneratorBuilt(e) && sim.KnownRide(after, e) {
      TracedEvent(sim, before, after, made, events, tail, e);
    }
  }

  lemma TracedEvent(sim: RideSimulator, before: Scene, after: Scene, made: seq<SourceEvent>, events: seq<SourceEvent>,
                    tail: seq<SourceEvent>, e: RideEvent)
    requires Traced(sim, before, made) && sim.Grown(before, after, RideEventsIn(events))
    requires forall x :: x in RideEventsIn(events) ==> GeneratorBuilt(x)
    requires |tail| == |events| && forall i :: 0 <= i < |events| ==> Variant(events[i], tail[i])
    requires e in RideEventsIn(made) || e in RideEventsIn(tail)
    ensures GeneratorBuilt(e) && sim.KnownRide(after, e)
  {
    hide RideIdOf, EventIdOf, StampsOf, RideEventsIn, Variant, RideSimulator.Grown, RideSimulator.KnownRide;
    if e in RideEventsIn(made) {
      sim.GrownKnows(before, after, RideEventsIn(events), e);
    } else {
      VariantsKeepIds(events, tail);
      var x :| x in RideEventsIn(events) && SameId(x, e);
      sim.GrownKnows(before, after, RideEventsIn(events), x);
      sim.SameIdKnown(after, e, x);
    }
  }

  lemma {:induction false} VariantsKeepStamps(events: seq<SourceEvent>, made: seq<SourceEvent>, id: string)
    requires |made| == |events| && forall i :: 0 <= i < |events| ==> Variant(events[i], made[i])
    ensures StampsOf(RideEventsIn(made), id) == StampsOf(RideEventsIn(events), id)
  {
    if events != [] {
      var n := |events| - 1;
      VariantsKeepStamps(events[..n], made[..n], id);
      assert Variant(events[n], made[n]);
      if events[n].RideSource? {
        StampsOfConcat(RideEventsIn(events[..n]), [events[n].event], id);
        StampsOfConcat(RideEventsIn(made[..n]), [made[n].event], id);
        assert [events[n].event][..0] == [] && [made[n].event][..0] == [];
      } else {
        assert RideEventsIn(events) == RideEventsIn(events[..n]) && RideEventsIn(made) == RideEventsIn(made[..n]);
      }
    }
  }

  predicate SameId(a: RideEvent, b: RideEvent) {
    a.rideId == b.rideId && a.eventId == b.eventId && a.kind == b.kind
  }

  lemma {:induction false} VariantsKeepIds(events: seq<SourceEvent>, made: seq<SourceEvent>)
    requires |made| == |events| && forall i :: 0 <= i < |events| ==> Variant(events[i], made[i])
    ensures forall e :: e in RideEventsIn(made) ==>
              exists x :: x in RideEventsIn(events) && SameId(x, e)
  {
    if events != [] {
      var n := |events| - 1;
      VariantsKeepIds(events[..n], made[..n]);
      assert Variant(events[n], made[n]);
      forall e | e in RideEventsIn(made)
        ensures exists x :: x in RideEventsIn(events) && SameId(x, e)
      {
        if e in RideEventsIn(made[..n]) {
          var x :| x in RideEventsIn(events[..n]) && SameId(x, e);
          assert x in RideEventsIn(events);
        } else {
          assert events[n].event in RideEventsIn(events);
        }
      }
    }
  }

  method Pipe(imp: Imperfector, events: seq<SourceEvent>, nowMs: int) returns (out: seq<SourceEvent>)
    requires imp.Valid() && forall e :: e in events ==> Plain(e) == e
    modifies imp
    ensures imp.Valid() && imp.log.sent == old(imp.log).sent + out
    ensures |imp.log.made| == |old(imp.log).made| + |events| && old(imp.log).made <= imp.log.made
    ensures forall i :: 0 <= i < |events| ==> Variant(events[i], imp.log.made[|old(imp.log).made| + i])
    ensures Perfect(imp.cfg) ==> out == events
  {
    hide Imperfector.Valid, Variant;
    out := [];
    ghost var n := |imp.log.made|;
    for i := 0 to |events|
      invariant imp.Valid() && imp.log.sent == old(imp.log).sent + out
      invariant |imp.log.made| == n + i && old(imp.log).made <= imp.log.made
      invariant forall j :: 0 <= j < i ==> Variant(events[j], imp.log.made[n + j])
      invariant Perfect(imp.cfg) ==> out == events[..i]
    {
      ghost var sent := imp.log.sent;
      var more := imp.Process(events[i], nowMs);
      assert imp.log.sent == sent + more;
      out := out + more;
    }
  }
}
