// What recovery restores and what no later step can undo.
module RecoveryGuarantees {

  import opened Wrappers
  import opened Lifecycle
  import opened SessionFold
  import opened StateStore
  import opened Broker
  import opened Steps
  import opened Protocol
  import opened LogLaws
  import opened ProtocolProof
  import opened BatchProof
  import opened Guarantees

  // --------------------------------------------------- what only ever grows

  /** From `a` to `b`: the log and the topics are appended to, committed offsets
      do not decrease, confirmed closes stay as they are, and a close is newly
      confirmed only by moving its partition's committed offset. */
  ghost predicate Later(st: Setting, a: World, b: World) {
    && (forall p :: Part(a.log, p) <= Part(b.log, p))
    && (forall p :: Resume(a.local.broker, p) <= Resume(b.local.broker, p))
    && a.local.broker.sessions <= b.local.broker.sessions
    && a.local.broker.clean <= b.local.broker.clean
    && a.local.broker.dead <= b.local.broker.dead
    && (forall r :: CloseLater(st, a, b, r))
  }

  ghost predicate CloseLater(st: Setting, a: World, b: World, r: string) {
    && (Confirmed(st, a, r) ==> Confirmed(st, b, r) && b.local.store.closes[r] == a.local.store.closes[r])
    && (Confirmed(st, b, r) && Resume(b.local.broker, st.home(r)) == Resume(a.local.broker, st.home(r)) ==>
          Confirmed(st, a, r))
  }

  lemma LaterTransitive(st: Setting, a: World, b: World, c: World)
    requires Later(st, a, b) && Later(st, b, c)
    ensures Later(st, a, c)
  {
    forall p ensures Part(a.log, p) <= Part(c.log, p) {
      assert Part(a.log, p) <= Part(b.log, p) && Part(b.log, p) <= Part(c.log, p);
    }
    forall r ensures CloseLater(st, a, c, r) {
      assert CloseLater(st, a, b, r) && CloseLater(st, b, c, r);
      assert Resume(a.local.broker, st.home(r)) <= Resume(b.local.broker, st.home(r));
      assert Resume(b.local.broker, st.home(r)) <= Resume(c.local.broker, st.home(r));
    }
  }

  /** Steps that leave the broker alone and confirm or unconfirm nothing. */
  lemma SameBrokerLater(st: Setting, a: World, b: World)
    requires b.local.broker == a.local.broker
    requires forall p :: Part(a.log, p) <= Part(b.log, p)
    requires forall r :: r in b.local.store.closes && r in a.local.store.closes ==>
               b.local.store.closes[r] == a.local.store.closes[r]
    requires forall r :: Confirmed(st, b, r) <==> Confirmed(st, a, r)
    ensures Later(st, a, b)
  {
    forall r ensures CloseLater(st, a, b, r) {
    }
  }

  lemma PublishedLater(st: Setting, w: World, k: Work, closes: seq<CloseRow>, m: Memory)
    requires BatchOk(st, w, k, closes)
    ensures Later(st, w, Published(w, k, closes, m))
  {
    hide BuildSession, CloseOf, Next, BatchOk;
    var w' := Published(w, k, closes, m);
    forall p ensures Resume(w.local.broker, p) <= Resume(w'.local.broker, p) {
      ResumeIsNext(w, k, closes, m, p);
      NextNotBefore(st, w, k, closes, p);
    }
    forall r ensures CloseLater(st, w, w', r) {
      PublishedConfirms(st, w, k, closes, m, r);
      ResumeIsNext(w, k, closes, m, st.home(r));
      if c :| c in closes && c.rideId == r {
        NewCloseMovesOffset(st, w, k, closes, c);
      }
    }
  }

  lemma NextNotBefore(st: Setting, w: World, k: Work, closes: seq<CloseRow>, p: nat)
    requires BatchOk(st, w, k, closes)
    ensures Resume(w.local.broker, p) <= Next(w.local.broker, k.maxOff, p)
  {
  }

  lemma NewCloseMovesOffset(st: Setting, w: World, k: Work, closes: seq<CloseRow>, c: CloseRow)
    requires BatchOk(st, w, k, closes) && c in closes
    ensures Resume(w.local.broker, st.home(c.rideId)) < Next(w.local.broker, k.maxOff, st.home(c.rideId))
  {
    NewCloseOk(st, w, k, closes, c);
  }

  lemma RollbackLater(st: Setting, w: World, ps: set<nat>)
    requires DiskOk(st, w)
    ensures Later(st, w, w.(local := Local(w.local.broker, RollbackMany(w.local.store, w.local.broker, ps), NO_MEMORY)))
  {
    RollbackKeeps(st, w, ps);
    SameBrokerLater(st, w,
                    w.(local := Local(w.local.broker, RollbackMany(w.local.store, w.local.broker, ps), NO_MEMORY)));
  }

  lemma GapLater(st: Setting, w: World, k: Work, closes: seq<CloseRow>)
    requires BatchOk(st, w, k, closes)
    ensures Later(st, w, InGap(w, k, closes))
  {
    hide BuildSession, CloseOf;
    GapOk(st, w, k, closes);
    ClosesInStore(st, w, k, closes);
    SameBrokerLater(st, w, InGap(w, k, closes));
  }

  lemma BatchLater(st: Setting, w: World, msgs: seq<Message>, closes: seq<CloseRow>, end: End)
    requires Inv(st, w) && Enabled(st, w, Step.Batch(msgs, closes, end))
    ensures Later(st, w, Take(w, Step.Batch(msgs, closes, end)))
  {
    hide Later, Inv, BuildSession, CloseOf;
    var k := WorkAfter(w, msgs);
    var w' := Take(w, Step.Batch(msgs, closes, end));
    MessagesKeep(st, w, msgs);
    match end
    case DiesInGap =>
      GapLater(st, w, k, closes);
    case Commits =>
      PublishedLater(st, w, k, closes, w'.local.mem);
    case Raises(applied, rolled) =>
      var mid := if applied then Published(w, k, closes, NO_MEMORY) else InGap(w, k, closes);
      if applied {
        PublishedOk(st, w, k, closes, NO_MEMORY);
        PublishedLater(st, w, k, closes, NO_MEMORY);
      } else {
        GapOk(st, w, k, closes);
        GapLater(st, w, k, closes);
      }
      RollbackLater(st, mid, rolled);
      LaterTransitive(st, w, mid, w');
  }

  lemma StepLater(st: Setting, w: World, s: Step)
    requires Inv(st, w) && Enabled(st, w, s)
    ensures Later(st, w, Take(w, s))
  {
    var w' := Take(w, s);
    match s
    case Batch(msgs, closes, end) =>
      BatchLater(st, w, msgs, closes, end);
    case Assign(p) =>
      RecoveredKeeps(st, w, p);
      SameBrokerLater(st, w, w.(local := Local(w.local.broker, w'.local.store, NO_MEMORY)));
      assert forall r :: CloseLater(st, w, w.(local := Local(w.local.broker, w'.local.store, NO_MEMORY)), r);
      forall r ensures Confirmed(st, w', r) <==> Confirmed(st, w, r) {
      }
      SameBrokerLater(st, w, w');
    case AssignDies(p, purged) =>
      RecoveredKeeps(st, w, p);
      RollbackKeeps(st, w, {p});
      RollbackIsMany(w.local.store, w.local.broker, p);
      SameBrokerLater(st, w, w');
    case _ =>
      SameBrokerLater(st, w, w');
  }

  lemma {:induction false} RunLater(st: Setting, ws: seq<World>, steps: seq<Step>, i: nat, j: nat)
    requires Run(st, ws, steps) && i <= j < |ws|
    requires Inv(st, ws[0])
    ensures Later(st, ws[i], ws[j])
  {
    hide Inv, Take, Enabled;
    if i == j {
      SameBrokerLater(st, ws[i], ws[i]);
    } else {
      RunLater(st, ws, steps, i, j - 1);
      RunKeeps(st, ws, steps, j - 1);
      StepLater(st, ws[j - 1], steps[j - 1]);
      assert ws[j - 1 + 1] == Take(ws[j - 1], steps[j - 1]);
      LaterTransitive(st, ws[i], ws[j - 1], ws[j]);
    }
  }

  // ---------------------------------------------------- purge is safe forever

  /** Committed offsets never decrease; a confirmed close stays as it is and its
      ride is never folded again, whatever is rolled back later; and a committed
      event whose row is gone belongs to a ride with a confirmed close. */
  lemma PurgeIsSafe(st: Setting, ws: seq<World>, steps: seq<Step>, i: nat, j: nat, r: string, k: (nat, nat))
    requires Run(st, ws, steps) && ws[0] == START && i <= j < |ws|
    ensures Resume(ws[i].local.broker, k.0) <= Resume(ws[j].local.broker, k.0)
    ensures Confirmed(st, ws[i], r) ==>
              && Confirmed(st, ws[j], r)
              && ws[j].local.store.closes[r] == ws[i].local.store.closes[r]
              && r !in ws[j].local.mem.accs
    ensures k in ws[i].local.store.journal && k.1 < Resume(ws[i].local.broker, k.0) ==>
              var row := ws[i].local.store.journal[k];
              || (k in ws[j].local.store.journal && ws[j].local.store.journal[k] == row)
              || Confirmed(st, ws[j], row.rideId)
  {
    hide Take, Enabled;
    StartInv(st);
    RunKeeps(st, ws, steps, i);
    RunKeeps(st, ws, steps, j);
    RunLater(st, ws, steps, i, j);
    var a, b := ws[i], ws[j];
    assert CloseLater(st, a, b, r);
    assert AccOk(st, b.log, b.local.store.closes, b.local.mem, Resume(b.local.broker, st.home(r)), r);
    if k in a.local.store.journal && k.1 < Resume(a.local.broker, k.0) {
      RowSurvives(st, a, b, k);
    }
  }

  lemma RowSurvives(st: Setting, a: World, b: World, k: (nat, nat))
    requires Inv(st, a) && Inv(st, b) && Later(st, a, b)
    requires k in a.local.store.journal && k.1 < Resume(a.local.broker, k.0)
    ensures var row := a.local.store.journal[k];
            (k in b.local.store.journal && b.local.store.journal[k] == row) || Confirmed(st, b, row.rideId)
  {
    hide BuildSession, MemoryOk;
    var row := a.local.store.journal[k];
    assert RowOk(a.log, k, row);
    assert Part(b.log, k.0)[k.1] == Part(a.log, k.0)[k.1];
    assert RideOk(st, b, row.rideId);
    if !Confirmed(st, b, row.rideId) {
      assert EventOf(Part(b.log, k.0)[k.1], row.rideId);
      assert k == (st.home(row.rideId), k.1);
      assert RowOk(b.log, k, b.local.store.journal[k]);
    }
  }

  // --------------------------------------------------------- recovery is exact

  /** What the process holds for partition `p`: closes, open rides' rows, slots. */
  ghost predicate SameOn(st: Setting, a: Local, b: Local, p: nat) {
    && (forall r :: st.home(r) == p ==> SameRide(a, b, r))
    && (forall k: (nat, nat) :: k.0 == p ==> SameOpenRow(a.store, b.store, k))
  }

  ghost predicate SameRide(a: Local, b: Local, r: string) {
    Lookup(a.store.closes, r) == Lookup(b.store.closes, r) && Lookup(a.mem.accs, r) == Lookup(b.mem.accs, r)
  }

  ghost function OpenRow(s: Store, k: (nat, nat)): Option<JournalRow> {
    if k in s.journal && s.journal[k].rideId !in s.closes then Some(s.journal[k]) else None
  }

  ghost predicate SameOpenRow(a: Store, b: Store, k: (nat, nat)) {
    OpenRow(a, k) == OpenRow(b, k)
  }

  /** On a held partition the closes are the confirmed ones and the slots are the
      fold of the committed events of the rides without one. */
  lemma HeldRide(st: Setting, w: World, r: string)
    requires Inv(st, w) && st.home(r) in w.local.mem.wm
    ensures var l, n := Part(w.log, st.home(r)), Resume(w.local.broker, st.home(r));
            && n <= |l|
            && (r in w.local.store.closes <==> Confirmed(st, w, r))
            && Lookup(w.local.mem.accs, r) ==
               (if !Confirmed(st, w, r) && RideLog(l, r, n) != [] then Some(Fold(RideLog(l, r, n))) else None)
  {
    hide BuildSession, Fold;
    assert AccOk(st, w.log, w.local.store.closes, w.local.mem, Resume(w.local.broker, st.home(r)), r);
  }

  /** On a held partition the open rides' rows are exactly the committed events of
      the rides without a confirmed close. */
  lemma HeldRow(st: Setting, w: World, k: (nat, nat))
    requires Inv(st, w) && k.0 in w.local.mem.wm
    ensures var l, n := Part(w.log, k.0), Resume(w.local.broker, k.0);
            && n <= |l|
            && OpenRow(w.local.store, k) ==
               (if k.1 < n && l[k.1].Good? && !Confirmed(st, w, l[k.1].event.rideId)
                then Some(JournalRow(k.0, k.1, l[k.1].event.rideId, l[k.1].event)) else None)
  {
    hide BuildSession, AccOk;
    var l, n := Part(w.log, k.0), Resume(w.local.broker, k.0);
    assert OutputsOk(st, w, k.0);
    if k in w.local.store.journal {
      assert RowOk(w.log, k, w.local.store.journal[k]);
    }
    if k.1 < n && l[k.1].Good? {
      var r := l[k.1].event.rideId;
      assert st.home(r) == k.0 && k == (st.home(r), k.1);
      assert RideOk(st, w, r) && EventOf(l[k.1], r);
      if k in w.local.store.journal { assert RowOk(w.log, k, w.local.store.journal[k]); }
    }
  }

  lemma {:induction false} RideLogOfPrefix(a: seq<Payload>, b: seq<Payload>, r: string, n: nat)
    requires a <= b && n <= |a|
    ensures RideLog(a, r, n) == RideLog(b, r, n)
  {
    if n > 0 {
      RideLogOfPrefix(a, b, r, n - 1);
    }
  }

  /** Whenever `p` is held at two points of a run with no transaction on it between,
      whatever else happened between (batches that died in the gap, aborts, crashes,
      interrupted recoveries), recovery has restored its closes, its open rides' rows
      and every accumulator slot for slot. */
  lemma RecoveryIsExact(st: Setting, ws: seq<World>, steps: seq<Step>, i: nat, j: nat, p: nat)
    requires Run(st, ws, steps) && ws[0] == START && i <= j < |ws|
    requires p in ws[i].local.mem.wm && p in ws[j].local.mem.wm
    requires Resume(ws[j].local.broker, p) == Resume(ws[i].local.broker, p)
    ensures SameOn(st, ws[i].local, ws[j].local, p)
  {
    hide Inv, Take, Enabled, Fold;
    StartInv(st);
    RunKeeps(st, ws, steps, i);
    RunKeeps(st, ws, steps, j);
    RunLater(st, ws, steps, i, j);
    var a, b, n := ws[i], ws[j], Resume(ws[i].local.broker, p);
    assert Part(a.log, p) <= Part(b.log, p);
    forall r | st.home(r) == p ensures SameRide(a.local, b.local, r) {
      HeldRide(st, a, r);
      HeldRide(st, b, r);
      assert CloseLater(st, a, b, r);
      RideLogOfPrefix(Part(a.log, p), Part(b.log, p), r, n);
    }
    forall k: (nat, nat) | k.0 == p ensures SameOpenRow(a.local.store, b.local.store, k) {
      HeldRow(st, a, k);
      HeldRow(st, b, k);
      if k.1 < n && Part(a.log, p)[k.1].Good? {
        HeldEvent(st, a, k);
        assert CloseLater(st, a, b, Part(a.log, p)[k.1].event.rideId);
      }
    }
  }

  lemma HeldEvent(st: Setting, w: World, k: (nat, nat))
    requires Inv(st, w) && k.1 < |Part(w.log, k.0)| && Part(w.log, k.0)[k.1].Good?
    ensures st.home(Part(w.log, k.0)[k.1].event.rideId) == k.0
  {
  }

  // ------------------------------------------------------ recovery is repeatable

  /** Recovering twice is recovering once: the store does not move again, nor does
      what the process holds for the partition, its watermark included. */
  lemma RecoveryIsRepeatable(st: Setting, w: World, p: nat)
    requires Reachable(st, w) && p !in w.local.mem.wm
    ensures var once := Take(w, Assign(p));
            var twice := Take(Take(once, Crash), Assign(p));
            && twice.local.store == once.local.store
            && twice.local.broker == once.local.broker
            && twice.local.mem.wm[p] == once.local.mem.wm[p]
            && SameOn(st, once.local, twice.local, p)
  {
    hide Recovered, Load, OpenRideMap, MaxTs, Reachable;
    var once := Take(w, Assign(p));
    var twice := Take(Take(once, Crash), Assign(p));
    RecoveredTwice(w.local.store, w.local.broker, p);
    assert twice.local.store == once.local.store;
    AssignRidesHere(st, w, p);
    forall r | st.home(r) == p ensures SameRide(once.local, twice.local, r) {
    }
  }

  lemma RecoveredTwice(s: Store, b: BrokerState, p: nat)
    ensures Recovered(Recovered(s, b, p), b, p) == Recovered(s, b, p)
  {
  }

  lemma AssignRidesHere(st: Setting, w: World, p: nat)
    requires Reachable(st, w) && p !in w.local.mem.wm
    ensures var once := Take(w, Assign(p)).local;
            var twice := AssignOne(once.(mem := NO_MEMORY), p);
            forall r :: st.home(r) == p ==> Lookup(once.mem.accs, r) == Lookup(twice.mem.accs, r)
  {
    hide Inv, AccOk, Fold, OpenRideMap, MaxTs;
    ReachableInv(st, w);
    RecoveredTwice(w.local.store, w.local.broker, p);
    forall r | st.home(r) == p ensures r !in w.local.mem.accs { NotHeldNoAcc(st, w, r); }
  }

  lemma NotHeldNoAcc(st: Setting, w: World, r: string)
    requires Inv(st, w) && st.home(r) !in w.local.mem.wm
    ensures r !in w.local.mem.accs
  {
    assert AccOk(st, w.log, w.local.store.closes, w.local.mem, Resume(w.local.broker, st.home(r)), r);
  }

  /** The watermark recovered after a crash is at most the one before it, except
      that a negative one comes back as 0 when no ride is open. */
  lemma WatermarkRecovers(st: Setting, w: World, p: nat)
    requires Reachable(st, w) && p in w.local.mem.wm
    ensures var before, after := w.local.mem.wm[p], Take(Take(w, Crash), Assign(p)).local;
            after.mem.wm[p] <= before <==> before >= 0 || exists k :: k in after.store.journal && k.0 == p
  {
    hide BuildSession, AccOk, Load;
    ReachableInv(st, w);
    assert RowsCovered(w.local.store.journal, w.local.mem, w.local.broker, map[]);
    var after := Take(Take(w, Crash), Assign(p)).local;
    assert IsMaxTs(after.store.journal, p, MaxTs(after.store.journal, p));
  }

  // ------------------------------------------------ what recovery leaves, exactly

  /** An event below the committed offset of `p` whose ride has no committed session. */
  ghost predicate StillOpen(w: World, p: nat, off: nat) {
    && off < Resume(w.local.broker, p) && off < |Part(w.log, p)| && Part(w.log, p)[off].Good?
    && SessionsFor(w.local.broker.sessions, Part(w.log, p)[off].event.rideId) == []
  }

  /** After recovery the journal of `p` holds the committed decodable events of the
      rides without a committed session, and no other row; the rows of the other
      partitions stay as they were. */
  lemma RecoveredJournal(st: Setting, w: World, p: nat, k: (nat, nat))
    requires Reachable(st, w) && p !in w.local.mem.wm
    ensures var after := Take(w, Assign(p)).local.store.journal;
            if k.0 != p then Lookup(after, k) == Lookup(w.local.store.journal, k)
            else if StillOpen(w, p, k.1) then
              Lookup(after, k) ==
              Some(JournalRow(p, k.1, Part(w.log, p)[k.1].event.rideId, Part(w.log, p)[k.1].event))
            else k !in after
  {
    hide BuildSession, AccOk, Fold, Reachable, Recovered, AssignMemory, ConfirmedBelow;
    ReachableInv(st, w);
    var before, l := w.local.store.journal, Part(w.log, p);
    RecoveredRow(w.local.store, w.local.broker, p, k);
    if k in before {
      assert RowOk(w.log, k, before[k]);
      if k.0 != p { ForeignRowKept(st, w, p, k); }
    }
    if k.0 == p && k.1 < |l| && l[k.1].Good? {
      HeldEvent(st, w, k);
      var r := l[k.1].event.rideId;
      assert EventOf(l[k.1], r) && k == (st.home(r), k.1);
      assert RideOk(st, w, r);
      ConfirmedIsBelow(st, w, r);
    }
  }

  lemma RecoveredRow(s: Store, b: BrokerState, p: nat, k: (nat, nat))
    ensures var kept := k in s.journal && !(k.0 == p && k.1 >= Resume(b, p))
                        && !ConfirmedBelow(s.closes, p, Resume(b, p), s.journal[k].rideId);
            Lookup(Recovered(s, b, p).journal, k) == if kept then Some(s.journal[k]) else None
  {
  }

  lemma ForeignRowKept(st: Setting, w: World, p: nat, k: (nat, nat))
    requires Inv(st, w) && k in w.local.store.journal && k.0 != p
    ensures !ConfirmedBelow(w.local.store.closes, p, Resume(w.local.broker, p), w.local.store.journal[k].rideId)
  {
    hide BuildSession, Fold, MemoryOk, RideOk, OutputsOk;
    var row := w.local.store.journal[k];
    assert RowOk(w.log, k, row);
    assert row.rideId in w.local.store.closes ==> CloseOk(st, w.log, row.rideId, w.local.store.closes[row.rideId]);
  }

  lemma ConfirmedIsBelow(st: Setting, w: World, r: string)
    requires Inv(st, w)
    ensures Confirmed(st, w, r) <==>
            ConfirmedBelow(w.local.store.closes, st.home(r), Resume(w.local.broker, st.home(r)), r)
    ensures Confirmed(st, w, r) <==> SessionsFor(w.local.broker.sessions, r) != []
  {
    hide BuildSession, Fold;
    assert RideOk(st, w, r);
    assert r in w.local.store.closes ==> CloseOk(st, w.log, r, w.local.store.closes[r]);
  }

  /** The recovered watermark is the highest time among those events, 0 with none. */
  lemma RecoveredWatermark(st: Setting, w: World, p: nat)
    requires Reachable(st, w) && p !in w.local.mem.wm
    ensures var wm := Take(w, Assign(p)).local.mem.wm;
            && p in wm
            && (forall off: nat :: StillOpen(w, p, off) ==> Part(w.log, p)[off].event.ts <= wm[p])
            && ((exists off: nat :: StillOpen(w, p, off) && Part(w.log, p)[off].event.ts == wm[p])
                || (wm[p] == 0 && forall off: nat :: !StillOpen(w, p, off)))
  {
    hide Recovered, Load, Reachable, Resume, SessionsFor;
    var after := Take(w, Assign(p)).local;
    var top := MaxTs(after.store.journal, p);
    assert IsMaxTs(after.store.journal, p, top);
    forall off: nat | StillOpen(w, p, off)
      ensures top != None && Part(w.log, p)[off].event.ts <= top.value
    {
      RecoveredJournal(st, w, p, (p, off));
    }
    if top != None {
      var k :| k in after.store.journal && k.0 == p && after.store.journal[k].value.ts == top.value;
      RecoveredJournal(st, w, p, k);
      assert k == (p, k.1) && StillOpen(w, p, k.1);
    }
  }

  /** What the process holds of another partition `q`: whether and at which watermark,
      the slots of its rides, its journal rows and its closes. */
  ghost predicate Untouched(st: Setting, a: Local, b: Local, q: nat) {
    && Lookup(a.mem.wm, q) == Lookup(b.mem.wm, q)
    && (forall r :: st.home(r) == q ==> SameRide(a, b, r))
    && (forall k: (nat, nat) :: k.0 == q ==> Lookup(a.store.journal, k) == Lookup(b.store.journal, k))
  }

  /** Assigning or revoking a partition touches nothing of another one. */
  lemma OthersUntouched(st: Setting, w: World, s: Step, q: nat)
    requires Reachable(st, w) && Enabled(st, w, s)
    requires (s.Assign? || s.Revoke?) && s.p != q
    ensures Untouched(st, w.local, Take(w, s).local, q)
  {
    hide Inv, Take, Reachable, Untouched;
    ReachableInv(st, w);
    match s
    case Assign(p) => AssignTouches(st, w, p, q);
    case Revoke(p) => RevokeTouches(st, w, p, q);
    case _ =>
  }

  lemma AssignTouches(st: Setting, w: World, p: nat, q: nat)
    requires Inv(st, w) && p !in w.local.mem.wm && p != q
    ensures Untouched(st, w.local, Take(w, Assign(p)).local, q)
  {
    hide Inv, OpenRideMap, MaxTs, Recovered;
    forall r | st.home(r) == q ensures SameRide(w.local, Take(w, Assign(p)).local, r) {
      AssignTouchesRide(st, w, p, r);
    }
    forall k: (nat, nat) | k.0 == q
      ensures Lookup(w.local.store.journal, k) == Lookup(Take(w, Assign(p)).local.store.journal, k)
    {
      RecoveredRow(w.local.store, w.local.broker, p, k);
      if k in w.local.store.journal { ForeignRowKept(st, w, p, k); }
    }
  }

  lemma AssignTouchesRide(st: Setting, w: World, p: nat, r: string)
    requires Inv(st, w) && p !in w.local.mem.wm && st.home(r) != p
    ensures SameRide(w.local, Take(w, Assign(p)).local, r)
  {
    hide Inv, AssignOne, Recovered;
    ClosesAreHome(st, w, r);
    RecoveredRowsOk(st, w, p);
    ForeignRideNotOpen(st, w, Recovered(w.local.store, w.local.broker, p), p, r);
    LoadLeavesRide(w.local, p, r);
  }

  lemma ClosesAreHome(st: Setting, w: World, r: string)
    requires Inv(st, w)
    ensures LogOk(st, w.log) && (r in w.local.store.closes ==> w.local.store.closes[r].partition == st.home(r))
  {
    hide BuildSession, Fold, MemoryOk, RideOk, OutputsOk;
    assert r in w.local.store.closes ==> CloseOk(st, w.log, r, w.local.store.closes[r]);
  }

  lemma RecoveredRowsOk(st: Setting, w: World, p: nat)
    requires Inv(st, w)
    ensures JournalOk(w.log, Recovered(w.local.store, w.local.broker, p).journal)
  {
    hide BuildSession, Fold, MemoryOk, RideOk, OutputsOk, CloseOk;
  }

  lemma LoadLeavesRide(s: Local, p: nat, r: string)
    requires r in s.store.closes ==> s.store.closes[r].partition != p
    requires !IsOpen(Recovered(s.store, s.broker, p), p, r)
    ensures SameRide(s, AssignOne(s, p), r)
  {
    hide Fold, Resume;
    assert r !in OpenRideMap(Recovered(s.store, s.broker, p), p);
  }

  lemma RevokeTouches(st: Setting, w: World, p: nat, q: nat)
    requires Inv(st, w) && p != q
    ensures Untouched(st, w.local, Take(w, Revoke(p)).local, q)
  {
    hide BuildSession, Fold;
    forall r | st.home(r) == q ensures SameRide(w.local, Take(w, Revoke(p)).local, r) {
      assert AccOk(st, w.log, w.local.store.closes, w.local.mem, Resume(w.local.broker, q), r);
    }
  }

  /** A revoked partition leaves nothing behind in memory, and the disk is left alone. */
  lemma RevokedIsForgotten(st: Setting, w: World, p: nat, r: string)
    requires Reachable(st, w) && Enabled(st, w, Revoke(p)) && st.home(r) == p
    ensures var after := Take(w, Revoke(p)).local;
            && p !in after.mem.wm && r !in after.mem.accs && r !in after.mem.part
            && after.store == w.local.store && after.broker == w.local.broker
  {
    hide BuildSession, Fold, RideLog, Reachable;
    ReachableInv(st, w);
    assert AccOk(st, w.log, w.local.store.closes, w.local.mem, Resume(w.local.broker, p), r);
  }
}
