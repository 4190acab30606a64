// What the sessionizer guarantees over every run: exactly-once outputs, correct
// sessions, safe purging, exact recovery, justified abandonment.
module Guarantees {

  import opened Wrappers
  import opened Lifecycle
  import opened SessionFold
  import opened FoldLaws
  import opened StateStore
  import opened Broker
  import opened Steps
  import opened Protocol
  import opened LogLaws
  import opened ProtocolProof
  import opened BatchProof

  // ------------------------------------------------------------ every run

  lemma StepKeeps(st: Setting, w: World, s: Step)
    requires Inv(st, w) && Enabled(st, w, s)
    ensures Inv(st, Take(w, s))
  {
    hide Inv, Take, Enabled;
    match s
    case Produce(p, x) => ProduceKeeps(st, w, p, x);
    case Assign(p) => AssignKeeps(st, w, p);
    case AssignDies(p, purged) => AssignDiesKeeps(st, w, p, purged);
    case Revoke(p) => RevokeKeeps(st, w, p);
    case Crash => CrashKeeps(st, w);
    case Batch(msgs, closes, end) => BatchKeeps(st, w, msgs, closes, end);
  }

  lemma {:induction false} RunKeeps(st: Setting, ws: seq<World>, steps: seq<Step>, i: nat)
    requires Run(st, ws, steps) && i < |ws|
    requires Inv(st, ws[0])
    ensures Inv(st, ws[i])
  {
    hide Inv, Take, Enabled;
    if i > 0 {
      RunKeeps(st, ws, steps, i - 1);
      StepKeeps(st, ws[i - 1], steps[i - 1]);
      assert ws[i - 1 + 1] == Take(ws[i - 1], steps[i - 1]);
    }
  }

  lemma StartInv(st: Setting)
    ensures Inv(st, START)
  {
  }

  lemma ReachableInv(st: Setting, w: World)
    requires Reachable(st, w)
    ensures Inv(st, w)
  {
    hide Inv;
    var ws, steps :| Run(st, ws, steps) && ws[0] == START && ws[|ws| - 1] == w;
    StartInv(st);
    RunKeeps(st, ws, steps, |ws| - 1);
  }

  // ------------------------------------------------------------ exactly once

  /** However batches, commits, ambiguous commits, aborts, crashes and restarts
      interleave: each partition's mirror is its decodable events below the
      committed offset in order, its dead letters are the poison ones, and a ride
      has at most one committed session. */
  lemma ExactlyOnce(st: Setting, w: World, p: nat, r: string)
    requires Reachable(st, w)
    ensures var b, l, n := w.local.broker, Part(w.log, p), Resume(w.local.broker, p);
            && n <= |l|
            && MirrorOf(st.home, b.clean, p) == Decoded(l, n)
            && DeadOn(b.dead, p) == DeadLetters(p, l, n)
            && |MirrorOf(st.home, b.clean, p)| + |DeadOn(b.dead, p)| == n
            && |SessionsFor(b.sessions, r)| <= 1
  {
    ReachableInv(st, w);
    assert OutputsOk(st, w, p) && RideOk(st, w, r);
    EachMessageOnce(p, Part(w.log, p), Resume(w.local.broker, p));
  }

  lemma {:induction false} EachMessageOnce(p: nat, l: seq<Payload>, n: nat)
    requires n <= |l|
    ensures |Decoded(l, n)| + |DeadLetters(p, l, n)| == n
  {
    if n > 0 {
      EachMessageOnce(p, l, n - 1);
    }
  }

  /** A ride with a terminal event below the committed offset has its one session. */
  lemma TerminalHasSession(st: Setting, w: World, r: string, i: nat)
    requires Reachable(st, w)
    requires i < Resume(w.local.broker, st.home(r)) && i < |Part(w.log, st.home(r))|
    requires EventOf(Part(w.log, st.home(r))[i], r) && TerminalKind(Part(w.log, st.home(r))[i].event.kind)
    ensures |SessionsFor(w.local.broker.sessions, r)| == 1
  {
    ReachableInv(st, w);
    assert RideOk(st, w, r);
  }

  lemma {:induction false} SessionIsFor(sessions: seq<Session>, s: Session)
    requires s in sessions
    ensures s in SessionsFor(sessions, s.rideId)
  {
    var front, last := sessions[..|sessions| - 1], sessions[|sessions| - 1];
    if s != last {
      assert sessions == front + [last];
      SessionIsFor(front, s);
    }
  }

  /** `s` is what the ride's events up to offset `tag` derive. */
  ghost predicate DerivedAt(st: Setting, w: World, s: Session, tag: nat) {
    var l := Part(w.log, st.home(s.rideId));
    && tag < Resume(w.local.broker, st.home(s.rideId)) && tag < |l|
    && var slots := Fold(RideLog(l, s.rideId, tag + 1));
       && slots != []
       && BuildSession(st.cfg.geo, s.rideId, slots, TerminalOf(slots) == None) == Some(s)
       && (TerminalOf(slots) == None ==> Idle(l, tag, LastTs(slots), st.cfg.sessionTimeoutMs))
  }

  /** Every committed session is the derivation of all its ride's decodable events
      up to its close tag, crashes or not; without a terminal event the ride was idle. */
  lemma SessionsAreDerived(st: Setting, w: World, s: Session)
    requires Reachable(st, w) && s in w.local.broker.sessions
    ensures exists tag: nat :: DerivedAt(st, w, s, tag)
  {
    hide BuildSession;
    ReachableInv(st, w);
    SessionIsFor(w.local.broker.sessions, s);
    assert RideOk(st, w, s.rideId);
    var c := w.local.store.closes[s.rideId];
    assert CloseOk(st, w.log, s.rideId, c);
    assert DerivedAt(st, w, s, c.offset);
  }

  // ---------------------------------------------------------- abandonment

  ghost predicate OutlivedAt(l: seq<Payload>, i: nat, tag: nat, last: int, timeoutMs: int) {
    i <= tag && i < |l| && l[i].Good? && l[i].event.ts - last > timeoutMs
  }

  ghost predicate SomeOutlives(l: seq<Payload>, tag: nat, last: int, timeoutMs: int) {
    exists i: nat :: OutlivedAt(l, i, tag, last, timeoutMs)
  }

  /** The latest time among the events that session `s`, closed at `tag`, folds. */
  ghost function LastActivity(st: Setting, w: World, s: Session, tag: nat): int
    requires DerivedAt(st, w, s, tag)
  {
    LastTs(Fold(RideLog(Part(w.log, st.home(s.rideId)), s.rideId, tag + 1)))
  }

  /** Some event of the partition, at an offset up to the tag, lies more than the
      timeout after the ride's last activity. */
  ghost predicate Outlived(st: Setting, w: World, s: Session, tag: nat)
    requires DerivedAt(st, w, s, tag)
  {
    SomeOutlives(Part(w.log, st.home(s.rideId)), tag, LastActivity(st, w, s, tag), st.cfg.sessionTimeoutMs)
  }

  /** An abandoned session was outlived, unless its ride's last activity lies more than
      the timeout before the epoch, where a partition's watermark starts. */
  lemma AbandonmentJustified(st: Setting, w: World, s: Session, tag: nat)
    requires Reachable(st, w) && s in w.local.broker.sessions && s.terminalState == AsAbandoned
    requires DerivedAt(st, w, s, tag)
    requires st.cfg.sessionTimeoutMs < 0 || LastActivity(st, w, s, tag) >= -st.cfg.sessionTimeoutMs
    ensures Outlived(st, w, s, tag)
  {
    hide BuildSession;
    var l := Part(w.log, st.home(s.rideId));
    var events := RideLog(l, s.rideId, tag + 1);
    var slots := Fold(events);
    AbandonedHasNoTerminal(st.cfg.geo, s.rideId, slots);
    if st.cfg.sessionTimeoutMs < 0 {
      LastTsIsMax(slots);
      var e :| e in slots && e.ts == LastTs(slots);
      FoldHolds(events, e);
      RideLogHolds(l, s.rideId, tag + 1, e);
      var i :| 0 <= i < tag + 1 && EventOf(l[i], s.rideId) && l[i].event == e;
      assert OutlivedAt(l, i, tag, LastTs(slots), st.cfg.sessionTimeoutMs);
    } else {
      var i: nat :| i <= tag && i < |l| && l[i].Good? && l[i].event.ts - LastTs(slots) > st.cfg.sessionTimeoutMs;
      assert OutlivedAt(l, i, tag, LastTs(slots), st.cfg.sessionTimeoutMs);
    }
  }

  lemma AbandonedHasNoTerminal(geo: Haversine, r: string, slots: Slots)
    ensures var b := BuildSession(geo, r, slots, TerminalOf(slots) == None);
            b != None && (b.value.terminalState == AsAbandoned <==> TerminalOf(slots) == None)
  {
    hide First, TsOf, FareOf, EndedTs, LastTs;
    TerminalOfIsThere(slots);
  }

  // --------------------------------------------- exactly when it is justified

  /** In every run, every abandoned session whose ride was last active at `last` was
      outlived by an event. */
  ghost predicate AlwaysOutlived(st: Setting, last: int) {
    forall w, s, tag: nat ::
      Reachable(st, w) && s in w.local.broker.sessions && s.terminalState == AsAbandoned
      && DerivedAt(st, w, s, tag) && LastActivity(st, w, s, tag) == last
      ==> Outlived(st, w, s, tag)
  }

  /** The exact condition: abandonment at a last activity is always justified if and
      only if that is not more than the timeout before the epoch (a negative timeout
      is always exceeded by the ride's own last event). */
  lemma AbandonmentJustifiedIff(st: Setting, last: int)
    ensures AlwaysOutlived(st, last) <==> st.cfg.sessionTimeoutMs < 0 || last >= -st.cfg.sessionTimeoutMs
  {
    if st.cfg.sessionTimeoutMs < 0 || last >= -st.cfg.sessionTimeoutMs {
      forall w, s, tag: nat |
        Reachable(st, w) && s in w.local.broker.sessions && s.terminalState == AsAbandoned
        && DerivedAt(st, w, s, tag) && LastActivity(st, w, s, tag) == last
        ensures Outlived(st, w, s, tag)
      {
        AbandonmentJustified(st, w, s, tag);
      }
    } else {
      var w, s := EarlyRideAbandoned(st, EarlyEvent(last));
      assert !Outlived(st, w, s, 0);
    }
  }

  /** A lone request at a given time. */
  function EarlyEvent(ts: int): RideEvent {
    RideEvent("r.1", "r", Requested, ts, "u", None, 0, 0.0, 0.0, None, None, None, 1.0, 1, None)
  }

  /** Memory and log when partition `p` was assigned before anything else happened. */
  ghost function Assigned(p: nat, log: Log): World {
    World(log, Local(EMPTY_BROKER, EMPTY_STORE, Memory(map[], map[], map[p := 0])))
  }

  lemma FirstAssignment(p: nat, log: Log)
    ensures Take(START.(log := log), Assign(p)) == Assigned(p, log)
  {
    assert Recovered(EMPTY_STORE, EMPTY_BROKER, p) == EMPTY_STORE;
    assert OpenRidesOf(EMPTY_STORE, p, OpenRideMap(EMPTY_STORE, p));
    assert OpenRideMap(EMPTY_STORE, p) == map[];
    assert IsMaxTs(EMPTY_STORE.journal, p, MaxTs(EMPTY_STORE.journal, p));
  }

  /** What one event leaves to be done on a freshly assigned partition. */
  ghost function WorkOfOne(p: nat, e: RideEvent): Work {
    Work(Memory(map[e.rideId := [e]], map[e.rideId := p], map[p := Max(0, e.ts)]),
         [JournalRow(p, 0, e.rideId, e)], map[p := 0], [e], [])
  }

  lemma OneEventWork(p: nat, e: RideEvent, log: Log)
    ensures WorkAfter(Assigned(p, log), [Record(p, 0, Good(e))]) == WorkOfOne(p, e)
  {
    var m := Record(p, 0, Good(e));
    var start := StartWork(Memory(map[], map[], map[p := 0]));
    assert [m][..|[m]| - 1] == [];
    assert ConsumeAll(map[], start, [m]) == Consume(map[], start, m);
    var k, done := Consume(map[], start, m), WorkOfOne(p, e);
    assert AddEvent([], e) == [e];
    assert k.mem.accs == done.mem.accs && k.mem.part == done.mem.part && k.mem.wm == done.mem.wm;
    assert k.rows == done.rows && k.maxOff == done.maxOff && k.clean == done.clean && k.dead == done.dead;
  }

  lemma LoneSlot(e: RideEvent)
    requires !TerminalKind(e.kind)
    ensures TerminalOf([e]) == None && LastTs([e]) == e.ts
  {
    assert [e][1..] == [];
    assert |[e]| == 1 && [e][0] == e;
  }

  lemma EarlyEventCloses(cfg: Config, p: nat, e: RideEvent) returns (close: CloseRow)
    requires !TerminalKind(e.kind) && 0 <= cfg.sessionTimeoutMs && e.ts < -cfg.sessionTimeoutMs
    ensures CloseList(cfg, WorkOfOne(p, e), [close])
    ensures close.rideId == e.rideId && close.session.rideId == e.rideId
    ensures BuildSession(cfg.geo, e.rideId, [e], true) == Some(close.session)
    ensures TerminalOf([e]) == None && LastTs([e]) == e.ts && close.session.terminalState == AsAbandoned
  {
    hide Read;
    LoneSlot(e);
    AbandonedHasNoTerminal(cfg.geo, e.rideId, [e]);
    close := CloseOf(cfg, WorkOfOne(p, e), e.rideId).value;
  }

  lemma LoneEventLog(e: RideEvent)
    ensures Fold(RideLog([Good(e)], e.rideId, 1)) == [e]
  {
    assert RideLog([Good(e)], e.rideId, 0) == [];
    assert RideLog([Good(e)], e.rideId, 1) == [e];
    assert [e][..0] == [] && Fold([e][..0]) == [];
  }

  /** A reachable world in which a ride whose only event lies more than the timeout
      before the epoch has a committed abandoned session that no event outlives. */
  lemma EarlyRideAbandoned(st: Setting, e: RideEvent) returns (w: World, s: Session)
    requires !TerminalKind(e.kind) && 0 <= st.cfg.sessionTimeoutMs && e.ts < -st.cfg.sessionTimeoutMs
    ensures Reachable(st, w) && s in w.local.broker.sessions && s.terminalState == AsAbandoned
    ensures DerivedAt(st, w, s, 0) && LastActivity(st, w, s, 0) == e.ts
    ensures !Outlived(st, w, s, 0)
  {
    hide BuildSession, Fold, WorkOfOne, CloseList;
    var p := st.home(e.rideId);
    var log: Log := map[p := [Good(e)]];
    var close := EarlyEventCloses(st.cfg, p, e);
    s := close.session;
    w := EarlyWorld(st, p, e, close);
    LoneEventLog(e);
    assert Part(w.log, p) == [Good(e)];
    assert !OutlivedAt([Good(e)], 0, 0, e.ts, st.cfg.sessionTimeoutMs);
  }

  /** The run: the event is produced, its partition assigned, its batch committed. */
  lemma EarlyWorld(st: Setting, p: nat, e: RideEvent, close: CloseRow) returns (w: World)
    requires st.home(e.rideId) == p && CloseList(st.cfg, WorkOfOne(p, e), [close])
    ensures Reachable(st, w) && w.log == map[p := [Good(e)]]
    ensures w.local.broker.sessions == [close.session] && Resume(w.local.broker, p) == 1
  {
    hide CloseList;
    var log: Log := map[p := [Good(e)]];
    var m := Record(p, 0, Good(e));
    var batch := Step.Batch([m], [close], Commits);
    var w1, w2 := START.(log := log), Assigned(p, log);
    FirstAssignment(p, log);
    OneEventWork(p, e, log);
    FirstDelivery(w2, p, e);
    w := Take(w2, batch);
    assert [close][..|[close]| - 1] == [] && SessionsIn([close]) == [close.session];
    assert Part(START.log, p) + [Good(e)] == [Good(e)] && START.log[p := [Good(e)]] == log;
    ThreeSteps(st, Produce(p, Good(e)), Assign(p), batch, w1, w2, w);
  }

  lemma FirstDelivery(w: World, p: nat, e: RideEvent)
    requires w == Assigned(p, map[p := [Good(e)]])
    ensures Delivered(w, [Record(p, 0, Good(e))])
  {
    var m := Record(p, 0, Good(e));
    assert [m][..|[m]| - 1] == [];
    assert Delivered(w, []);
    assert DeliveredNext(w, WorkAfter(w, []), m);
  }

  lemma ThreeSteps(st: Setting, a: Step, b: Step, c: Step, w1: World, w2: World, w3: World)
    requires Enabled(st, START, a) && Take(START, a) == w1
    requires Enabled(st, w1, b) && Take(w1, b) == w2
    requires Enabled(st, w2, c) && Take(w2, c) == w3
    ensures Reachable(st, w3)
  {
    hide Enabled, Take;
    var ws, steps := [START, w1, w2, w3], [a, b, c];
    assert Run(st, ws, steps);
    assert ws[0] == START && ws[|ws| - 1] == w3;
  }
}
