// The sessionizer object (src/processors/ride_sessionizer.py). Each method is
// proved to take the step that the functions of `Steps` describe.
module Sessionizer {

  import opened Wrappers
  import opened SessionFold
  import opened StateStore
  import opened Broker
  import opened Steps

  datatype Outcome = Done | Raised | ConsumerError | Exited

  class Sessionizer {
    const cfg: Config
    const store: StateStore
    const broker: Broker
    var accs: map<string, RideAccumulator>
    var accPartition: map<string, nat>
    var watermarks: map<nat, int>
    ghost var mem: Memory  // the three dictionaries above, as a value
    ghost var owned: set<RideAccumulator>

    constructor (cfg: Config, store: StateStore, broker: Broker)
      ensures Valid() && this.cfg == cfg && this.store == store && this.broker == broker
      ensures View() == Local(broker.state, store.View(), NO_MEMORY)
    {
      this.cfg, this.store, this.broker := cfg, store, broker;
      accs, accPartition, watermarks := map[], map[], map[];
      mem, owned := NO_MEMORY, {};
    }

    /** One accumulator object per ride, never shared. */
    ghost predicate Valid()
      reads this, owned
    {
      && mem.part == accPartition && mem.wm == watermarks
      && accs.Keys == accPartition.Keys == mem.accs.Keys
      && (forall r :: r in accs ==> accs[r] in owned && accs[r].rideId == r && accs[r].slots == mem.accs[r])
    }

    ghost function View(): Local
      reads this, store, broker
    {
      Local(broker.state, store.View(), mem)
    }

    // -------------------------------------------------------------- startup

    /** Recovery: the committed offsets decide; state at or beyond them is erased. */
    method OnAssign(partitions: seq<nat>)
      requires Valid()
      modifies this, store
      ensures Valid() && fresh(owned - old(owned))
      ensures View() == AssignAll(old(View()), partitions)
    {
      for i := 0 to |partitions|
        invariant Valid() && fresh(owned - old(owned))
        invariant View() == AssignAll(old(View()), partitions[..i])
      {
        assert partitions[..i + 1][..i] == partitions[..i];
        AssignPartition(partitions[i]);
      }
      assert partitions[..|partitions|] == partitions;
    }

    method AssignPartition(p: nat)
      requires Valid()
      modifies this, store
      ensures Valid() && fresh(owned - old(owned))
      ensures View() == AssignOne(old(View()), p)
    {
      hide Recovered, OpenRideMap, MaxTs;
      CleanStore(p);
      var open := store.OpenRides(p);
      LoadRides(p, open);
      var top := store.MaxJournalTs(p);
      SetWatermark(p, top.GetOr(0));
    }

    /** Drops what the partition's committed position does not cover, and what it no
        longer needs. */
    method CleanStore(p: nat)
      modifies store
      ensures store.View() == Recovered(old(store.View()), broker.state, p)
    {
      var resume := Resume(broker.state, p);
      var _, _ := store.RollbackFrom(p, resume);
      var _ := store.PurgeConfirmed(p, resume);
    }

    method SetWatermark(p: nat, ms: int)
      requires Valid()
      modifies this`watermarks, this`mem
      ensures Valid() && mem == old(mem).(wm := old(mem).wm[p := ms])
    {
      watermarks := watermarks[p := ms];
      mem := mem.(wm := watermarks);
    }

    method LoadRides(p: nat, open: map<string, seq<RideEvent>>)
      requires Valid()
      modifies this
      ensures Valid() && fresh(owned - old(owned))
      ensures mem == Load(old(mem), p, open)
    {
      var todo := open.Keys;
      ghost var folds, parts := map r | r in open :: Fold(open[r]), map r | r in open :: p;
      NoKeysAndAllKeys(mem.accs, folds);
      NoKeysAndAllKeys(mem.part, parts);
      assert folds.Keys == todo == parts.Keys;
      while todo != {}
        invariant todo <= open.Keys
        invariant Valid() && fresh(owned - old(owned))
        invariant mem == Memory(old(mem).accs + (folds - todo), old(mem).part + (parts - todo), old(mem).wm)
        decreases todo
      {
        var r :| r in todo;
        OneMoreKey(old(mem).accs, folds, todo, r);
        OneMoreKey(old(mem).part, parts, todo, r);
        LoadRide(p, r, open[r]);
        todo := todo - {r};
      }
    }

    method LoadRide(p: nat, r: string, events: seq<RideEvent>)
      requires Valid()
      modifies this
      ensures Valid() && fresh(owned - old(owned))
      ensures mem == Memory(old(mem).accs[r := Fold(events)], old(mem).part[r := p], old(mem).wm)
    {
      var acc := Refold(r, events);
      accs, accPartition, owned := accs[r := acc], accPartition[r := p], owned + {acc};
      mem := Memory(mem.accs[r := Fold(events)], mem.part[r := p], mem.wm);
    }

    method Refold(r: string, events: seq<RideEvent>) returns (acc: RideAccumulator)
      ensures fresh(acc) && acc.rideId == r && acc.slots == Fold(events)
    {
      acc := new RideAccumulator(r);
      for i := 0 to |events|
        invariant acc.slots == Fold(events[..i])
      {
        assert events[..i + 1][..i] == events[..i];
        acc.Add(events[i]);
      }
      assert events[..|events|] == events;
    }

    method OnRevoke(partitions: seq<nat>)
      requires Valid()
      modifies this
      ensures Valid() && owned == old(owned)
      ensures mem == RevokeAll(old(mem), partitions)
    {
      for i := 0 to |partitions|
        invariant Valid() && owned == old(owned)
        invariant mem == RevokeAll(old(mem), partitions[..i])
      {
        assert partitions[..i + 1][..i] == partitions[..i];
        RevokePartition(partitions[i]);
      }
      assert partitions[..|partitions|] == partitions;
    }

    method RevokePartition(p: nat)
      requires Valid()
      modifies this
      ensures Valid() && owned == old(owned)
      ensures mem == RevokeOne(old(mem), p)
    {
      accs := map r | r in accs && !(r in accPartition && accPartition[r] == p) :: accs[r];
      accPartition := map r | r in accPartition && accPartition[r] != p :: accPartition[r];
      watermarks := map q | q in watermarks && q != p :: watermarks[q];
      mem := RevokeOne(mem, p);
    }

    // ---------------------------------------------------------------- batch

    /** One batch: fold and journal it, commit the store, then transact. How the commit
        ends, whether the abort raises and which partitions' committed offsets cannot be
        read afterwards are the broker's choices. */
    method ProcessBatch(msgs: seq<Message>, fate: CommitFate, abortRaises: bool, unread: set<nat>)
      returns (outcome: Outcome, closes: seq<CloseRow>, ghost rolled: set<nat>)
      requires Valid()
      modifies this, owned, store, broker
      ensures outcome == ConsumerError <==> Failed in msgs
      ensures outcome == ConsumerError ==> store.View() == old(store.View()) && broker.state == old(broker.state)
      ensures outcome != ConsumerError ==>
                var w := ConsumeAll(old(store.closes), StartWork(old(mem)), msgs);
                && CloseList(cfg, w, closes)
                && (outcome == Exited <==> cfg.crashAfterStateCommit && closes != [])
                && (outcome == Exited ==> Durable(FinishBatch(old(View()), w, closes, DiesInGap)))
                && (outcome == Done ==> Valid() && fate == Acked)
                && (outcome == Done ==> View() == FinishBatch(old(View()), w, closes, Commits))
                && (outcome == Raised ==> fate != Acked)
                && (outcome == Raised ==>
                      && Durable(FinishBatch(old(View()), w, closes, Raises(fate == AppliedButRaised, rolled)))
                      && RolledBack(rolled, w.maxOff.Keys, abortRaises, unread))
    {
      closes, rolled := [], {};
      ghost var w := ConsumeAll(store.closes, StartWork(mem), msgs);
      var ok, batch := FoldMessages(msgs);
      if !ok {
        outcome := ConsumerError;
        return;
      }
      closes := CollectCloses(batch.maxOff, w);
      store.AppendBatch(batch.rows, closes);
      if cfg.crashAfterStateCommit && closes != [] {
        outcome := Exited;
        return;
      }
      ok, rolled := Transact(batch, closes, w, fate, abortRaises, unread);
      if !ok {
        outcome := Raised;
        return;
      }
      ForgetClosed(RidesIn(closes));
      outcome := Done;
    }

    method ForgetClosed(rides: set<string>)
      requires Valid()
      modifies this
      ensures Valid() && owned == old(owned) && mem == Forget(old(mem), rides)
    {
      accs, accPartition := accs - rides, accPartition - rides;
      mem := Forget(mem, rides);
    }

    /** The message loop: memory is updated in place, the rest is handed on. */
    method FoldMessages(msgs: seq<Message>) returns (ok: bool, batch: Batch)
      requires Valid()
      modifies this, owned
      ensures ok <==> Failed !in msgs
      ensures ok ==> Valid() && fresh(owned - old(owned))
      ensures ok ==> WorkOf(mem, batch) == ConsumeAll(store.closes, StartWork(old(mem)), msgs)
      ensures ok ==> batch.maxOff.Keys <= watermarks.Keys
    {
      batch := Batch([], map[], [], []);
      ghost var start := StartWork(mem);
      for i := 0 to |msgs|
        invariant Valid() && fresh(owned - old(owned))
        invariant Failed !in msgs[..i]
        invariant batch.maxOff.Keys <= watermarks.Keys
        invariant WorkOf(mem, batch) == ConsumeAll(store.closes, start, msgs[..i])
      {
        assert msgs[..i + 1][..i] == msgs[..i];
        match msgs[i] {
          case Eof(_) =>
          case Failed =>
            return false, batch;
          case Record(p, off, payload) =>
            batch := TakeRecord(p, off, payload, batch);
        }
      }
      assert msgs[..|msgs|] == msgs;
      ok := true;
    }

    method TakeRecord(p: nat, off: nat, payload: Payload, batch: Batch) returns (next: Batch)
      requires Valid()
      requires batch.maxOff.Keys <= watermarks.Keys
      modifies this, owned
      ensures Valid() && fresh(owned - old(owned))
      ensures WorkOf(mem, next) == Consume(store.closes, WorkOf(old(mem), batch), Record(p, off, payload))
      ensures next.maxOff.Keys <= watermarks.Keys
    {
      if p !in watermarks {
        watermarks := watermarks[p := 0];
      }
      next := batch.(maxOff := batch.maxOff[p := if p in batch.maxOff then Max(batch.maxOff[p], off) else off]);
      mem := mem.(wm := watermarks);
      match payload {
        case Poison(raw) =>
          next := next.(dead := next.dead + [Envelope(p, off, raw)]);
        case Good(e) =>
          next := next.(clean := next.clean + [e]);
          watermarks := watermarks[p := Max(watermarks[p], e.ts)];
          mem := mem.(wm := watermarks);
          if !store.IsClosed(e.rideId) {
            next := next.(rows := next.rows + [JournalRow(p, off, e.rideId, e)]);
            AddToRide(p, e);
          }
      }
    }

    method AddToRide(p: nat, e: RideEvent)
      requires Valid()
      modifies this, owned
      ensures Valid() && fresh(owned - old(owned))
      ensures mem == Memory(old(mem).accs[e.rideId := AddEvent(SlotsOf(old(mem), e.rideId), e)],
                            if e.rideId in old(mem).accs then old(mem).part else old(mem).part[e.rideId := p],
                            old(mem).wm)
    {
      var r := e.rideId;
      ghost var slots := SlotsOf(mem, r);
      if r !in accs {
        var acc := new RideAccumulator(r);
        accs, accPartition, owned := accs[r := acc], accPartition[r := p], owned + {acc};
      }
      accs[r].Add(e);
      mem := Memory(mem.accs[r := AddEvent(slots, e)], accPartition, mem.wm);
    }

    /** Closes every ride with a terminal event or past its timeout, on the
        partitions that had input. */
    method CollectCloses(maxOff: map<nat, nat>, ghost w: Work) returns (closes: seq<CloseRow>)
      requires Valid()
      requires mem == w.mem && maxOff == w.maxOff && maxOff.Keys <= watermarks.Keys
      ensures CloseList(cfg, w, closes)
      ensures forall r :: r in accs ==> (ToClose(r, maxOff) <==> r in RidesIn(closes))
    {
      closes := [];
      var todo := accs.Keys;
      while todo != {}
        invariant todo <= accs.Keys
        invariant forall c :: c in closes ==> c.rideId in accs.Keys - todo && CloseOf(cfg, w, c.rideId) == Some(c)
        invariant forall i, j :: 0 <= i < j < |closes| ==> closes[i].rideId != closes[j].rideId
        invariant forall r :: r in accs.Keys - todo && CloseOf(cfg, w, r) != None ==> CloseOf(cfg, w, r).value in closes
        decreases todo
      {
        var r :| r in todo;
        todo := todo - {r};
        var close := CloseRide(r, maxOff, w);
        if close != None {
          closes := closes + [close.value];
        }
      }
      forall r | r in accs ensures ToClose(r, maxOff) <==> r in RidesIn(closes) {
        ToCloseIsClosed(w, closes, r);
      }
    }

    /** Its partition has new input, and it has a terminal event or lies more than the
        timeout behind its partition's watermark. */
    ghost predicate ToClose(r: string, maxOff: map<nat, nat>)
      reads this, owned
      requires Valid() && r in accs && maxOff.Keys <= watermarks.Keys
    {
      accPartition[r] in maxOff &&
      var slots := accs[r].slots;
      slots != []
      && (TerminalOf(slots) != None || watermarks[accPartition[r]] - LastTs(slots) > cfg.sessionTimeoutMs)
    }

    lemma ToCloseIsClosed(w: Work, closes: seq<CloseRow>, r: string)
      requires Valid() && r in accs && mem == w.mem && w.maxOff.Keys <= watermarks.Keys && CloseList(cfg, w, closes)
      ensures ToClose(r, w.maxOff) <==> r in RidesIn(closes)
    {
      hide Read, Derive;
      assert CloseOf(cfg, w, r) != None ==> CloseOf(cfg, w, r).value.rideId == r;
    }

    method CloseRide(r: string, maxOff: map<nat, nat>, ghost w: Work) returns (close: Option<CloseRow>)
      requires Valid() && r in accs
      requires mem == w.mem && maxOff == w.maxOff && maxOff.Keys <= watermarks.Keys
      ensures close == CloseOf(cfg, w, r)
      ensures close != None ==> close.value.rideId == r
    {
      var p := accPartition[r];
      if p !in maxOff {
        return None;
      }
      var s := accs[r].slots;
      var session := None;
      if TerminalOf(s) != None {
        session := BuildSession(cfg.geo, r, s, false);
      } else if TimedOut(s, watermarks[p], cfg.sessionTimeoutMs) {
        session := BuildSession(cfg.geo, r, s, true);
      }
      close := if session == None then None else Some(CloseRow(r, p, maxOff[p], session.value));
    }

    /** Publishes sessions, mirror, dead letters and offsets as one transaction;
        when that raises, aborts and rolls the batch's partitions back. */
    method Transact(batch: Batch, closes: seq<CloseRow>, ghost w: Work, fate: CommitFate, abortRaises: bool,
                    unread: set<nat>)
      returns (ok: bool, ghost rolled: set<nat>)
      requires w == WorkOf(w.mem, batch)
      modifies store, broker
      ensures ok <==> fate == Acked
      ensures broker.state == if fate == NotApplied then old(broker.state) else Apply(old(broker.state),
                                                                                      TxnOf(w, closes))
      ensures store.View() ==
              if ok then old(store.View())
              else RollbackMany(old(store.View()), broker.state, rolled)
      ensures !ok ==> RolledBack(rolled, w.maxOff.Keys, abortRaises, unread)
    {
      broker.BeginTransaction();
      for i := 0 to |closes|
        invariant broker.state == old(broker.state) && store.View() == old(store.View())
        invariant broker.pending == Some(Txn(map[], SessionsIn(closes[..i]), [], []))
      {
        assert closes[..i + 1][..i] == closes[..i];
        broker.ProduceSession(closes[i].session);
      }
      assert closes[..|closes|] == closes;
      for i := 0 to |batch.clean|
        invariant broker.state == old(broker.state) && store.View() == old(store.View())
        invariant broker.pending == Some(Txn(map[], SessionsIn(closes), batch.clean[..i], []))
      {
        assert batch.clean[..i + 1] == batch.clean[..i] + [batch.clean[i]];
        broker.ProduceClean(batch.clean[i]);
      }
      assert batch.clean[..|batch.clean|] == batch.clean;
      for i := 0 to |batch.dead|
        invariant broker.state == old(broker.state) && store.View() == old(store.View())
        invariant broker.pending == Some(Txn(map[], SessionsIn(closes), batch.clean, batch.dead[..i]))
      {
        assert batch.dead[..i + 1] == batch.dead[..i] + [batch.dead[i]];
        broker.ProduceDead(batch.dead[i]);
      }
      assert batch.dead[..|batch.dead|] == batch.dead;
      broker.SendOffsets(NextOffsets(batch.maxOff));
      assert broker.pending == Some(TxnOf(w, closes)) by {
        assert map[] + NextOffsets(batch.maxOff) == NextOffsets(batch.maxOff);
      }
      ok := broker.CommitTransaction(fate);
      rolled := {};
      if !ok {
        var aborted := broker.AbortTransaction(abortRaises);
        assert RollbackMany(store.View(), broker.state, {}) == store.View();
        if aborted {
          rolled := RollBackPartitions(batch.maxOff.Keys, unread);
        }
      }
    }

    /** Rolls partitions back one by one, until a committed offset cannot be read. */
    method RollBackPartitions(partitions: set<nat>, unread: set<nat>) returns (ghost rolled: set<nat>)
      modifies store
      ensures store.View() == RollbackMany(old(store.View()), broker.state, rolled)
      ensures RolledBack(rolled, partitions, false, unread)
    {
      var todo := partitions;
      rolled := {};
      while todo != {}
        invariant todo <= partitions && rolled == partitions - todo && rolled !! unread
        invariant store.View() == RollbackMany(old(store.View()), broker.state, rolled)
        decreases todo
      {
        var p :| p in todo;
        if p in unread {
          return;
        }
        RollbackOneMore(old(store.View()), broker.state, rolled, p);
        todo, rolled := todo - {p}, rolled + {p};
        var _, _ := store.RollbackFrom(p, Resume(broker.state, p));
      }
    }

    /** What survives the process: the two commit domains. */
    ghost predicate Durable(s: Local)
      reads store, broker
    {
      store.View() == s.store && broker.state == s.broker
    }
  }

  /** The batch's part of the work, which the source keeps in local variables. */
  datatype Batch = Batch(rows: seq<JournalRow>, maxOff: map<nat, nat>, clean: seq<RideEvent>, dead: seq<Envelope>)

  ghost function WorkOf(m: Memory, batch: Batch): Work {
    Work(m, batch.rows, batch.maxOff, batch.clean, batch.dead)
  }

  /** The partitions rolled back after a failed commit: all of the batch's, unless the
      abort raised too or the read of some committed offset did. */
  ghost predicate RolledBack(rolled: set<nat>, partitions: set<nat>, abortRaises: bool, unread: set<nat>) {
    && rolled <= partitions - unread
    && (abortRaises ==> rolled == {})
    && (!abortRaises && partitions !! unread ==> rolled == partitions)
  }
}
