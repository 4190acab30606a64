// Which rides a batch closes: every ride of the partitions it read that has a
// terminal event or has gone idle, and no other.
module ClosingGuarantees {

  import opened Wrappers
  import opened Lifecycle
  import opened SessionFold
  import opened FoldLaws
  import opened StateStore
  import opened Broker
  import opened Steps
  import opened Protocol
  import opened LogLaws
  import opened BatchProof
  import opened Guarantees

  /** The transaction is applied, whether or not the commit call raises. */
  ghost predicate Applied(end: End) {
    end == Commits || (end.Raises? && end.applied)
  }

  predicate Reads(m: Message, p: nat) {
    m.Record? && m.partition == p
  }

  predicate EventOn(m: Message, p: nat) {
    Reads(m, p) && m.payload.Good?
  }

  /** `wm` is the highest of the watermark before and the event times read since. */
  ghost predicate HighestOf(before: int, msgs: seq<Message>, p: nat, wm: int) {
    && before <= wm
    && (forall m :: m in msgs && EventOn(m, p) ==> m.payload.event.ts <= wm)
    && (wm == before || exists m :: m in msgs && EventOn(m, p) && m.payload.event.ts == wm)
  }

  /** What the message loop leaves for a held partition. */
  lemma {:induction false} MessagesRead(w: World, msgs: seq<Message>, p: nat)
    requires Delivered(w, msgs) && p in w.local.mem.wm
    ensures var k := WorkAfter(w, msgs);
            && k.mem.wm.Keys == w.local.mem.wm.Keys
            && HighestOf(w.local.mem.wm[p], msgs, p, k.mem.wm[p])
            && (p in k.maxOff <==> exists m :: m in msgs && Reads(m, p))
  {
    if msgs != [] {
      var front, m := msgs[..|msgs| - 1], msgs[|msgs| - 1];
      assert msgs == front + [m];
      MessagesRead(w, front, p);
      if m.Record? { OneMessageRead(w, WorkAfter(w, front), front, m, p); }
    }
  }

  lemma OneMessageRead(w: World, k: Work, front: seq<Message>, m: Message, p: nat)
    requires m.Record? && DeliveredNext(w, k, m) && p in w.local.mem.wm
    requires k.mem.wm.Keys == w.local.mem.wm.Keys && HighestOf(w.local.mem.wm[p], front, p, k.mem.wm[p])
    requires p in k.maxOff <==> exists x :: x in front && Reads(x, p)
    ensures var k' := Consume(w.local.store.closes, k, m);
            && k'.mem.wm.Keys == w.local.mem.wm.Keys
            && HighestOf(w.local.mem.wm[p], front + [m], p, k'.mem.wm[p])
            && (p in k'.maxOff <==> exists x :: x in front + [m] && Reads(x, p))
  {
    ConsumeShows(w, k, m);
    var k' := Consume(w.local.store.closes, k, m);
    assert p in k'.maxOff <==> p in k.maxOff || p == m.partition;
    hide Consume;
    assert m in front + [m];
    forall x | x in front ensures x in front + [m] {}
    var wm := k'.mem.wm[p];
    if wm != w.local.mem.wm[p] {
      if wm != k.mem.wm[p] {
        assert EventOn(m, p) && m.payload.event.ts == wm;
      } else {
        var x :| x in front && EventOn(x, p) && x.payload.event.ts == wm;
        assert x in front + [m];
      }
    }
  }

  // ------------------------------------------------------------ what is closed

  /** Ride `r`, last active at `last`, is more than the timeout behind the watermark
      of `p` or behind an event that the batch reads on it. */
  ghost predicate GoneIdle(w: World, msgs: seq<Message>, p: nat, last: int, timeoutMs: int)
    requires p in w.local.mem.wm
  {
    || w.local.mem.wm[p] - last > timeoutMs
    || exists m :: m in msgs && EventOn(m, p) && m.payload.event.ts - last > timeoutMs
  }

  ghost predicate HasTerminal(events: seq<RideEvent>) {
    HasKind(events, Completed) || HasKind(events, Cancelled)
  }

  lemma FoldTerminal(events: seq<RideEvent>)
    ensures TerminalOf(Fold(events)) != None <==> HasTerminal(events)
  {
    TerminalOfIsThere(Fold(events));
    KindInFold(events, Completed);
    KindInFold(events, Cancelled);
  }

  /** A batch that is applied and read something on `r`'s partition leaves `r` with
      one session exactly when it had one, or its events up to the new committed
      offset hold a terminal one, or it has gone idle; otherwise with none. */
  lemma ClosedExactly(st: Setting, w: World, msgs: seq<Message>, closes: seq<CloseRow>, end: End, r: string)
    requires Reachable(st, w) && Enabled(st, w, Step.Batch(msgs, closes, end)) && Applied(end)
    requires exists m :: m in msgs && Reads(m, st.home(r))
    ensures var after, l := Take(w, Step.Batch(msgs, closes, end)).local.broker, Part(w.log, st.home(r));
            var n := Resume(after, st.home(r));
            && n <= |l| && st.home(r) in w.local.mem.wm
            && var events := RideLog(l, r, n);
               |SessionsFor(after.sessions, r)| ==
               if || SessionsFor(w.local.broker.sessions, r) != []
                  || (events != [] &&
                      (HasTerminal(events)
                       || GoneIdle(w, msgs, st.home(r), LastTs(Fold(events)), st.cfg.sessionTimeoutMs)))
               then 1 else 0
  {
    hide BuildSession, Fold, CloseOf, Inv, Reachable, Delivered;
    var p, k := st.home(r), WorkAfter(w, msgs);
    ReachableInv(st, w);
    MessagesKeep(st, w, msgs);
    ReadIsHeld(w, msgs, p);
    MessagesRead(w, msgs, p);
    ResumeIsNext(w, k, closes, NO_MEMORY, p);
    PublishedSessions(st, w, k, closes, NO_MEMORY, r);
    PublishedConfirms(st, w, k, closes, NO_MEMORY, r);
    assert AccAt(st, w, k, r);
    OpenOrClosed(st, w, r);
    CloseMade(st, w, msgs, closes, r);
  }

  lemma {:induction false} ReadIsHeld(w: World, msgs: seq<Message>, p: nat)
    requires Delivered(w, msgs) && exists m :: m in msgs && Reads(m, p)
    ensures p in w.local.mem.wm
  {
    var front, m := msgs[..|msgs| - 1], msgs[|msgs| - 1];
    assert msgs == front + [m];
    if x :| x in front && Reads(x, p) { ReadIsHeld(w, front, p); }
  }

  /** On a held partition the closed rides are those with a committed session. */
  lemma OpenOrClosed(st: Setting, w: World, r: string)
    requires Inv(st, w) && st.home(r) in w.local.mem.wm
    ensures r in w.local.store.closes <==> Confirmed(st, w, r)
    ensures r in w.local.store.closes <==> SessionsFor(w.local.broker.sessions, r) != []
  {
    assert RideOk(st, w, r);
  }

  /** The batch makes a close for `r` exactly when its fold has a terminal kind or lies
      more than the timeout behind the watermark reached. */
  lemma CloseMade(st: Setting, w: World, msgs: seq<Message>, closes: seq<CloseRow>, r: string)
    requires var k := WorkAfter(w, msgs);
             BatchOk(st, w, k, closes) && st.home(r) in w.local.mem.wm && st.home(r) in k.maxOff
             && st.home(r) in k.mem.wm && HighestOf(w.local.mem.wm[st.home(r)], msgs, st.home(r), k.mem.wm[st.home(r)])
    ensures var k, l := WorkAfter(w, msgs), Part(w.log, st.home(r));
            var n := Next(w.local.broker, k.maxOff, st.home(r));
            && n <= |l|
            && var events := RideLog(l, r, n);
               (exists c :: c in closes && c.rideId == r) <==>
               r !in w.local.store.closes && events != []
               && (HasTerminal(events)
                   || GoneIdle(w, msgs, st.home(r), LastTs(Fold(events)), st.cfg.sessionTimeoutMs))
  {
    hide BuildSession, Fold, Inv, Delivered, Consume;
    var p, k := st.home(r), WorkAfter(w, msgs);
    assert AccAt(st, w, k, r);
    var events := RideLog(Part(w.log, p), r, Next(w.local.broker, k.maxOff, p));
    FoldEmpty(events);
    FoldTerminal(events);
    if r in k.mem.accs {
      CloseDecided(st.cfg, k, r);
      assert CloseOf(st.cfg, k, r) != None <==> exists c :: c in closes && c.rideId == r;
    }
  }

  lemma CloseDecided(cfg: Config, k: Work, r: string)
    requires r in k.mem.accs && r in k.mem.part && k.mem.part[r] in k.maxOff && k.mem.part[r] in k.mem.wm
    requires k.mem.accs[r] != []
    ensures CloseOf(cfg, k, r) != None <==>
            TerminalOf(k.mem.accs[r]) != None
            || k.mem.wm[k.mem.part[r]] - LastTs(k.mem.accs[r]) > cfg.sessionTimeoutMs
    ensures CloseOf(cfg, k, r) != None ==> CloseOf(cfg, k, r).value.rideId == r
  {
    hide Read, Derive;
  }

  /** An idle ride is abandoned: when an applied batch reads an event lying more than
      the timeout after the ride's last one, the ride has its session afterwards. */
  lemma IdleRideIsClosed(st: Setting, w: World, msgs: seq<Message>, closes: seq<CloseRow>, end: End, r: string,
                         m: Message)
    requires Reachable(st, w) && Enabled(st, w, Step.Batch(msgs, closes, end)) && Applied(end)
    requires m in msgs && EventOn(m, st.home(r))
    requires var n := Resume(Take(w, Step.Batch(msgs, closes, end)).local.broker, st.home(r));
             n <= |Part(w.log, st.home(r))|
             && RideLog(Part(w.log, st.home(r)), r, n) != []
             && m.payload.event.ts - LastTs(Fold(RideLog(Part(w.log, st.home(r)), r, n))) > st.cfg.sessionTimeoutMs
    ensures |SessionsFor(Take(w, Step.Batch(msgs, closes, end)).local.broker.sessions, r)| == 1
  {
    hide Enabled, Take, Fold, SessionsFor, Reachable;
    assert Reads(m, st.home(r));
    ClosedExactly(st, w, msgs, closes, end, r);
  }

  // -------------------------------------------------- what else a batch keeps

  /** After a committed batch the process holds the same partitions, each with the
      highest time seen on it, and every offset read is committed. */
  lemma CommitHolds(st: Setting, w: World, msgs: seq<Message>, closes: seq<CloseRow>, p: nat)
    requires Reachable(st, w) && Enabled(st, w, Step.Batch(msgs, closes, Commits)) && p in w.local.mem.wm
    ensures var after := Take(w, Step.Batch(msgs, closes, Commits)).local;
            && after.mem.wm.Keys == w.local.mem.wm.Keys
            && HighestOf(w.local.mem.wm[p], msgs, p, after.mem.wm[p])
            && (forall m :: m in msgs && Reads(m, p) ==> m.offset < Resume(after.broker, p))
  {
    hide HighestOf, Reachable;
    MessagesRead(w, msgs, p);
    OffsetsCovered(w, msgs, p);
    ResumeIsNext(w, WorkAfter(w, msgs), closes, NO_MEMORY, p);
  }

  lemma {:induction false} OffsetsCovered(w: World, msgs: seq<Message>, p: nat)
    requires Delivered(w, msgs) && p in w.local.mem.wm
    ensures forall m :: m in msgs && Reads(m, p) ==> m.offset < Next(w.local.broker, WorkAfter(w, msgs).maxOff, p)
  {
    if msgs != [] {
      var front, m := msgs[..|msgs| - 1], msgs[|msgs| - 1];
      assert msgs == front + [m];
      OffsetsCovered(w, front, p);
      MessagesRead(w, front, p);
      if m.Record? { ConsumeShows(w, WorkAfter(w, front), m); }
    }
  }
}
