// Every step keeps the protocol's invariant.
module ProtocolProof {

  import opened Wrappers
  import opened Lifecycle
  import opened SessionFold
  import opened FoldLaws
  import opened StateStore
  import opened Broker
  import opened Steps
  import opened Protocol
  import opened LogLaws

  /** The part of the invariant that does not mention process memory. */
  ghost predicate DiskOk(st: Setting, w: World) {
    && LogOk(st, w.log)
    && (forall p :: OutputsOk(st, w, p))
    && JournalOk(w.log, w.local.store.journal)
    && ClosesOk(st, w.log, w.local.store.closes)
    && (forall r :: RideOk(st, w, r))
  }

  lemma NoMemoryOk(st: Setting, w: World)
    requires w.local.mem == NO_MEMORY
    ensures MemoryOk(st, w)
  {
  }

  // ------------------------------------------------------------------- produce

  lemma CloseStays(st: Setting, log: Log, p: nat, x: Payload, r: string, c: CloseRow)
    requires CloseOk(st, log, r, c)
    ensures CloseOk(st, log[p := Part(log, p) + [x]], r, c)
  {
    hide BuildSession, Fold;
    var l := Part(log, st.home(r));
    var last, timeout := LastTs(Fold(RideLog(l, r, c.offset + 1))), st.cfg.sessionTimeoutMs;
    if st.home(r) == p {
      PrefixesUnmoved(p, l, x, r, c.offset + 1);
      if Idle(l, c.offset, last, timeout) { IdleGrows(l, [x], c.offset, c.offset, last, timeout); }
    }
  }

  lemma IdleGrows(l: seq<Payload>, more: seq<Payload>, tag: nat, tag': nat, last: int, timeoutMs: int)
    requires Idle(l, tag, last, timeoutMs) && tag <= tag'
    ensures Idle(l + more, tag', last, timeoutMs)
  {
    if i :| 0 <= i <= tag && i < |l| && l[i].Good? && l[i].event.ts - last > timeoutMs {
      assert (l + more)[i] == l[i];
    }
  }

  lemma WatermarkGrows(l: seq<Payload>, more: seq<Payload>, n: nat, n': nat, wm: int)
    requires WatermarkOk(l, n, wm) && n <= n'
    ensures WatermarkOk(l + more, n', wm)
  {
    if i :| 0 <= i < n && i < |l| && l[i].Good? && l[i].event.ts == wm {
      assert (l + more)[i] == l[i];
    }
  }

  lemma LogStays(st: Setting, log: Log, p: nat, x: Payload)
    requires LogOk(st, log) && (x.Good? ==> st.home(x.event.rideId) == p)
    ensures LogOk(st, log[p := Part(log, p) + [x]])
  {
    var log' := log[p := Part(log, p) + [x]];
    forall q, i | 0 <= i < |Part(log', q)| && Part(log', q)[i].Good?
      ensures st.home(Part(log', q)[i].event.rideId) == q
    {
      if i < |Part(log, q)| { assert Part(log', q)[i] == Part(log, q)[i]; }
    }
  }

  lemma OutputsStay(st: Setting, w: World, p: nat, x: Payload, q: nat)
    requires OutputsOk(st, w, q)
    ensures OutputsOk(st, w.(log := w.log[p := Part(w.log, p) + [x]]), q)
  {
    PrefixesUnmoved(q, Part(w.log, q), x, "", Resume(w.local.broker, q));
  }

  lemma RideStays(st: Setting, w: World, p: nat, x: Payload, r: string)
    requires RideOk(st, w, r) && OutputsOk(st, w, st.home(r))
    ensures RideOk(st, w.(log := w.log[p := Part(w.log, p) + [x]]), r)
  {
  }

  lemma AccStays(st: Setting, log: Log, p: nat, x: Payload, closes: Closes, m: Memory, n: nat, r: string)
    requires AccOk(st, log, closes, m, n, r) && n <= |Part(log, st.home(r))|
    ensures AccOk(st, log[p := Part(log, p) + [x]], closes, m, n, r)
  {
    PrefixesUnmoved(p, Part(log, st.home(r)), x, r, n);
  }

  lemma MemoryStays(st: Setting, w: World, p: nat, x: Payload)
    requires MemoryOk(st, w) && forall q :: OutputsOk(st, w, q)
    ensures MemoryOk(st, w.(log := w.log[p := Part(w.log, p) + [x]]))
  {
    var w' := w.(log := w.log[p := Part(w.log, p) + [x]]);
    var b, m := w.local.broker, w.local.mem;
    forall r ensures AccOk(st, w'.log, w.local.store.closes, m, Resume(b, st.home(r)), r) {
      assert OutputsOk(st, w, st.home(r));
      AccStays(st, w.log, p, x, w.local.store.closes, m, Resume(b, st.home(r)), r);
    }
    forall q | q in m.wm ensures WatermarkOk(Part(w'.log, q), Resume(b, q), m.wm[q]) {
      WatermarkGrows(Part(w.log, q), [x], Resume(b, q), Resume(b, q), m.wm[q]);
    }
    assert forall r :: Confirmed(st, w, r) ==> Confirmed(st, w', r);
  }

  lemma DiskStays(st: Setting, w: World, p: nat, x: Payload)
    requires DiskOk(st, w) && Enabled(st, w, Produce(p, x))
    ensures DiskOk(st, w.(log := w.log[p := Part(w.log, p) + [x]]))
  {
    var w' := w.(log := w.log[p := Part(w.log, p) + [x]]);
    LogStays(st, w.log, p, x);
    forall q ensures OutputsOk(st, w', q) { OutputsStay(st, w, p, x, q); }
    forall k | k in w.local.store.journal ensures RowOk(w'.log, k, w.local.store.journal[k]) {
      assert RowOk(w.log, k, w.local.store.journal[k]);
    }
    forall r | r in w.local.store.closes ensures CloseOk(st, w'.log, r, w.local.store.closes[r]) {
      CloseStays(st, w.log, p, x, r, w.local.store.closes[r]);
    }
    forall r ensures RideOk(st, w', r) {
      assert OutputsOk(st, w, st.home(r));
      RideStays(st, w, p, x, r);
    }
  }

  lemma ProduceKeeps(st: Setting, w: World, p: nat, x: Payload)
    requires Inv(st, w) && Enabled(st, w, Produce(p, x))
    ensures Inv(st, Take(w, Produce(p, x)))
  {
    DiskStays(st, w, p, x);
    MemoryStays(st, w, p, x);
  }

  // ------------------------------------------------------- rollback and purge

  /** Deleting rows is harmless while confirmed closes stay, and with them every
      committed row of a ride that is not confirmed closed. */
  lemma ShrinkKeeps(st: Setting, w: World, s: Store)
    requires DiskOk(st, w)
    requires forall k :: k in s.journal ==> k in w.local.store.journal && s.journal[k] == w.local.store.journal[k]
    requires forall r :: r in s.closes ==> r in w.local.store.closes && s.closes[r] == w.local.store.closes[r]
    requires forall r :: Confirmed(st, w, r) ==> r in s.closes
    requires forall k :: k in w.local.store.journal && k !in s.journal ==>
               k.1 >= Resume(w.local.broker, k.0) || Confirmed(st, w, w.local.store.journal[k].rideId)
    ensures var w' := w.(local := Local(w.local.broker, s, NO_MEMORY));
            DiskOk(st, w') && (forall r :: Confirmed(st, w', r) <==> Confirmed(st, w, r))
  {
    var w' := w.(local := Local(w.local.broker, s, NO_MEMORY));
    forall p ensures OutputsOk(st, w', p) { assert OutputsOk(st, w, p); }
    forall r ensures RideOk(st, w', r) {
      assert RideOk(st, w, r);
      var p := st.home(r);
      forall i |
        !Confirmed(st, w, r) && 0 <= i < Resume(w.local.broker, p)
        && i < |Part(w.log, p)| && EventOf(Part(w.log, p)[i], r)
        ensures (p, i) in s.journal
      {
        var k: (nat, nat) := (p, i);
        assert k in w.local.store.journal;
        assert RowOk(w.log, k, w.local.store.journal[k]);
      }
    }
  }

  /** Rolling any set of partitions back to their committed positions. */
  lemma RollbackKeeps(st: Setting, w: World, ps: set<nat>)
    requires DiskOk(st, w)
    ensures var s := RollbackMany(w.local.store, w.local.broker, ps);
            var w' := w.(local := Local(w.local.broker, s, NO_MEMORY));
            DiskOk(st, w') && (forall r :: Confirmed(st, w', r) <==> Confirmed(st, w, r))
  {
    var s := RollbackMany(w.local.store, w.local.broker, ps);
    forall r | Confirmed(st, w, r) ensures r in s.closes {
      assert CloseOk(st, w.log, r, w.local.store.closes[r]);
    }
    ShrinkKeeps(st, w, s);
  }

  lemma RollbackIsMany(s: Store, b: BrokerState, p: nat)
    ensures Rollback(s, p, Resume(b, p)) == RollbackMany(s, b, {p})
  {
  }

  lemma PurgeKeeps(st: Setting, w: World, p: nat)
    requires DiskOk(st, w)
    ensures var s := Purge(w.local.store, p, Resume(w.local.broker, p));
            var w' := w.(local := Local(w.local.broker, s, NO_MEMORY));
            DiskOk(st, w') && (forall r :: Confirmed(st, w', r) <==> Confirmed(st, w, r))
  {
    var s := Purge(w.local.store, p, Resume(w.local.broker, p));
    forall k | k in w.local.store.journal && k !in s.journal ensures Confirmed(st, w, w.local.store.journal[k].rideId) {
      var r := w.local.store.journal[k].rideId;
      assert CloseOk(st, w.log, r, w.local.store.closes[r]);
    }
    ShrinkKeeps(st, w, s);
  }

  lemma RecoveredKeeps(st: Setting, w: World, p: nat)
    requires DiskOk(st, w)
    ensures var s := Recovered(w.local.store, w.local.broker, p);
            var w' := w.(local := Local(w.local.broker, s, NO_MEMORY));
            DiskOk(st, w') && (forall r :: Confirmed(st, w', r) <==> Confirmed(st, w, r))
  {
    RollbackKeeps(st, w, {p});
    RollbackIsMany(w.local.store, w.local.broker, p);
    PurgeKeeps(st,
               w.(local := Local(w.local.broker, Rollback(w.local.store, p, Resume(w.local.broker, p)), NO_MEMORY)), p);
  }

  lemma AssignDiesKeeps(st: Setting, w: World, p: nat, purged: bool)
    requires Inv(st, w)
    ensures Inv(st, Take(w, AssignDies(p, purged)))
  {
    RollbackKeeps(st, w, {p});
    RollbackIsMany(w.local.store, w.local.broker, p);
    RecoveredKeeps(st, w, p);
    NoMemoryOk(st, Take(w, AssignDies(p, purged)));
  }

  lemma CrashKeeps(st: Setting, w: World)
    requires Inv(st, w)
    ensures Inv(st, Take(w, Crash))
  {
    ShrinkKeeps(st, w, w.local.store);
    NoMemoryOk(st, Take(w, Crash));
  }

  lemma RevokeKeeps(st: Setting, w: World, p: nat)
    requires Inv(st, w)
    ensures Inv(st, Take(w, Revoke(p)))
  {
    var w' := Take(w, Revoke(p));
    var b, m := w.local.broker, w.local.mem;
    forall q ensures OutputsOk(st, w', q) { assert OutputsOk(st, w, q); }
    forall r
      ensures RideOk(st, w', r)
      ensures AccOk(st, w.log, w.local.store.closes, w'.local.mem, Resume(b, st.home(r)), r)
    {
      assert RideOk(st, w, r);
      assert AccOk(st, w.log, w.local.store.closes, m, Resume(b, st.home(r)), r);
    }
  }

  // -------------------------------------------------------------------- assign

  /** After recovery the open rides of `p` are exactly those with committed events
      and no close, and their rows fold to the slots their committed events fold to. */
  lemma RecoveredRides(st: Setting, w: World, p: nat, r: string)
    requires DiskOk(st, w) && st.home(r) == p
    ensures var s := Recovered(w.local.store, w.local.broker, p);
            var l, n := Part(w.log, p), Resume(w.local.broker, p);
            && n <= |l| && OffsetsBelow(s.journal, p, n)
            && (r in s.closes <==> Confirmed(st, w, r))
            && (r !in s.closes ==> RideRows(s.journal, p, r, n) == RideLog(l, r, n))
            && (IsOpen(s, p, r) <==> r !in s.closes && RideLog(l, r, n) != [])
  {
    hide BuildSession;
    var b := w.local.broker;
    var s := Recovered(w.local.store, b, p);
    var w' := w.(local := Local(b, s, NO_MEMORY));
    var l, n := Part(w.log, p), Resume(b, p);
    RecoveredKeeps(st, w, p);
    assert OutputsOk(st, w, p);
    assert r in w.local.store.closes ==> CloseOk(st, w.log, r, w.local.store.closes[r]);
    if r !in s.closes {
      assert RideOk(st, w', r) && !Confirmed(st, w', r);
      forall i | 0 <= i < n && (p, i) in s.journal
        ensures l[i] == Good(s.journal[(p, i)].value) && s.journal[(p, i)].rideId == s.journal[(p, i)].value.rideId
      {
        var k: (nat, nat) := (p, i);
        assert RowOk(w'.log, k, s.journal[k]);
      }
      RowsAreLog(s.journal, p, l, r, n);
      if RideRows(s.journal, p, r, n) != [] { RideRowsWitness(s.journal, p, r, n); }
      if IsOpen(s, p, r) {
        var k :| k in s.journal && k.0 == p && s.journal[k].rideId == r;
        RideRowsHas(s.journal, p, r, k.1, n);
      }
    }
  }

  /** A ride whose home is not `p` has nothing in `p`'s journal. */
  lemma ForeignRideNotOpen(st: Setting, w: World, s: Store, p: nat, r: string)
    requires LogOk(st, w.log) && JournalOk(w.log, s.journal)
    requires st.home(r) != p
    ensures !IsOpen(s, p, r)
  {
    forall k | k in s.journal && k.0 == p ensures s.journal[k].rideId != r {
      assert RowOk(w.log, k, s.journal[k]);
    }
  }

  lemma AssignAccHere(st: Setting, w: World, p: nat, r: string)
    requires Inv(st, w) && p !in w.local.mem.wm && st.home(r) == p
    ensures var s := Take(w, Assign(p)).local;
            AccOk(st, w.log, s.store.closes, s.mem, Resume(s.broker, p), r)
  {
    hide BuildSession, Fold, Recovered;
    assert AccOk(st, w.log, w.local.store.closes, w.local.mem, Resume(w.local.broker, p), r);
    RecoveredRides(st, w, p, r);
  }

  lemma AssignLeavesAcc(st: Setting, log: Log, s: Local, p: nat, n: nat, r: string)
    requires AccOk(st, log, s.store.closes, s.mem, n, r) && st.home(r) != p
    requires r in s.store.closes ==> s.store.closes[r].partition == st.home(r)
    requires !IsOpen(Recovered(s.store, s.broker, p), p, r)
    ensures AccOk(st, log, AssignOne(s, p).store.closes, AssignOne(s, p).mem, n, r)
  {
    hide Fold, RideLog, Resume;
    assert r !in OpenRideMap(Recovered(s.store, s.broker, p), p);
  }

  lemma AssignAccElsewhere(st: Setting, w: World, p: nat, r: string)
    requires Inv(st, w) && p !in w.local.mem.wm && st.home(r) != p
    ensures var s := Take(w, Assign(p)).local;
            AccOk(st, w.log, s.store.closes, s.mem, Resume(s.broker, st.home(r)), r)
  {
    hide AccOk, RideOk, OutputsOk, BuildSession;
    ForeignRideNotOpen(st, w, Take(w, Assign(p)).local.store, p, r);
    assert r in w.local.store.closes ==> CloseOk(st, w.log, r, w.local.store.closes[r]);
    AssignLeavesAcc(st, w.log, w.local, p, Resume(w.local.broker, st.home(r)), r);
  }

  lemma AssignMemoryOk(st: Setting, w: World, p: nat)
    requires Inv(st, w) && p !in w.local.mem.wm
    ensures MemoryOk(st, Take(w, Assign(p)))
  {
    hide BuildSession, Recovered, Load, Fold, RideLog;
    var w' := Take(w, Assign(p));
    var b, s, m := w.local.broker, w'.local.store, w'.local.mem;
    RecoveredKeeps(st, w, p);
    forall r ensures AccOk(st, w.log, s.closes, m, Resume(b, st.home(r)), r) {
      if st.home(r) == p { AssignAccHere(st, w, p, r); } else { AssignAccElsewhere(st, w, p, r); }
    }
    forall q | q in m.wm ensures WatermarkOk(Part(w.log, q), Resume(b, q), m.wm[q]) {
      if q == p {
        AssignWatermark(st, w, p);
      } else {
        assert WatermarkOk(Part(w.log, q), Resume(b, q), w.local.mem.wm[q]);
      }
    }
    AssignRows(st, w, p);
    forall r | r in s.closes && st.home(r) in m.wm ensures Confirmed(st, w', r) {
      AssignClose(st, w, p, r);
    }
  }

  lemma AssignRows(st: Setting, w: World, p: nat)
    requires Inv(st, w) && p !in w.local.mem.wm
    ensures var s := Take(w, Assign(p)).local;
            RowsCovered(s.store.journal, s.mem, s.broker, map[])
  {
    hide BuildSession, Load;
    var s := Take(w, Assign(p)).local;
    assert RowsCovered(w.local.store.journal, w.local.mem, w.local.broker, map[]);
  }

  lemma AssignClose(st: Setting, w: World, p: nat, r: string)
    requires Inv(st, w) && p !in w.local.mem.wm
    requires r in Take(w, Assign(p)).local.store.closes && st.home(r) in w.local.mem.wm.Keys + {p}
    ensures Confirmed(st, Take(w, Assign(p)), r)
  {
    hide BuildSession, Load, Fold, RideLog;
    assert r in w.local.store.closes;
    assert CloseOk(st, w.log, r, w.local.store.closes[r]);
  }

  lemma AssignKeeps(st: Setting, w: World, p: nat)
    requires Inv(st, w) && Enabled(st, w, Assign(p))
    ensures Inv(st, Take(w, Assign(p)))
  {
    hide BuildSession, Recovered, MemoryOk;
    var w' := Take(w, Assign(p));
    RecoveredKeeps(st, w, p);
    var bare := w.(local := Local(w.local.broker, w'.local.store, NO_MEMORY));
    forall q ensures OutputsOk(st, w', q) { assert OutputsOk(st, bare, q); }
    forall r ensures RideOk(st, w', r) { assert RideOk(st, bare, r); }
    AssignMemoryOk(st, w, p);
  }

  lemma AssignWatermark(st: Setting, w: World, p: nat)
    requires DiskOk(st, w)
    ensures var s := Recovered(w.local.store, w.local.broker, p);
            WatermarkOk(Part(w.log, p), Resume(w.local.broker, p), MaxTs(s.journal, p).GetOr(0))
  {
    var s := Recovered(w.local.store, w.local.broker, p);
    var top := MaxTs(s.journal, p);
    if top != None {
      var k :| k in s.journal && k.0 == p && s.journal[k].value.ts == top.value;
      assert RowOk(w.log, k, s.journal[k]);
    }
  }
}
