// A batch keeps the protocol's invariant, however it ends: first the message
// loop, one record at a time, then the closes, then each end.
module BatchProof {

  import opened Wrappers
  import opened Lifecycle
  import opened SessionFold
  import opened FoldLaws
  import opened StateStore
  import opened Broker
  import opened Steps
  import opened Protocol
  import opened LogLaws
  import opened ProtocolProof

  // ---------------------------------------------------------- the message loop

  /** Mirror and envelopes once this work is published. */
  ghost predicate OutputsAt(st: Setting, w: World, k: Work, p: nat) {
    var l, n, b := Part(w.log, p), Next(w.local.broker, k.maxOff, p), w.local.broker;
    && n <= |l|
    && MirrorOf(st.home, b.clean + k.clean, p) == Decoded(l, n)
    && DeadOn(b.dead + k.dead, p) == DeadLetters(p, l, n)
  }

  ghost predicate AccAt(st: Setting, w: World, k: Work, r: string) {
    AccOk(st, w.log, w.local.store.closes, k.mem, Next(w.local.broker, k.maxOff, st.home(r)), r)
  }

  ghost predicate WatermarkAt(w: World, k: Work, p: nat) {
    p in k.mem.wm ==> WatermarkOk(Part(w.log, p), Next(w.local.broker, k.maxOff, p), k.mem.wm[p])
  }

  /** Every event read in this batch is journalled, unless its ride is closed. */
  ghost predicate ReadAreRows(w: World, k: Work) {
    forall p: nat, i: nat ::
      Resume(w.local.broker, p) <= i < Next(w.local.broker, k.maxOff, p) && Unclosed(w, p, i) ==>
      (p, i) in InsertIgnore(w.local.store.journal, k.rows)
  }

  ghost predicate Unclosed(w: World, p: nat, i: nat) {
    i < |Part(w.log, p)| && Part(w.log, p)[i].Good? && Part(w.log, p)[i].event.rideId !in w.local.store.closes
  }

  ghost predicate RowsAt(w: World, k: Work) {
    var j := InsertIgnore(w.local.store.journal, k.rows);
    JournalOk(w.log, j) && RowsCovered(j, k.mem, w.local.broker, k.maxOff) && ReadAreRows(w, k)
  }

  ghost predicate WorkOk(st: Setting, w: World, k: Work) {
    && k.mem.wm.Keys == w.local.mem.wm.Keys
    && (forall p :: p in k.maxOff ==> p in k.mem.wm && Resume(w.local.broker, p) <= k.maxOff[p])
    && (forall p :: OutputsAt(st, w, k, p))
    && (forall r :: AccAt(st, w, k, r))
    && (forall p :: WatermarkAt(w, k, p))
    && RowsAt(w, k)
  }

  lemma StartOk(st: Setting, w: World)
    requires Inv(st, w)
    ensures WorkOk(st, w, StartWork(w.local.mem))
  {
    var k := StartWork(w.local.mem);
    forall p ensures OutputsAt(st, w, k, p) && WatermarkAt(w, k, p) {
      assert OutputsOk(st, w, p);
      assert w.local.broker.clean + k.clean == w.local.broker.clean;
      assert w.local.broker.dead + k.dead == w.local.broker.dead;
    }
    forall r ensures AccAt(st, w, k, r) {
      assert AccOk(st, w.log, w.local.store.closes, w.local.mem, Resume(w.local.broker, st.home(r)), r);
    }
  }

  /** What one delivered record does to the work, apart from the accumulators. */
  lemma ConsumeShows(w: World, k: Work, m: Message)
    requires m.Record? && DeliveredNext(w, k, m)
    requires k.mem.wm.Keys == w.local.mem.wm.Keys
    ensures var k', b := Consume(w.local.store.closes, k, m), w.local.broker;
            && k'.mem.wm.Keys == k.mem.wm.Keys
            && (forall p :: Next(b, k'.maxOff, p) == Next(b, k.maxOff, p) + (if p == m.partition then 1 else 0))
            && (forall p :: p in k'.maxOff ==> p in k.maxOff || p == m.partition)
            && (forall p :: p in k.mem.wm ==>
                  k'.mem.wm[p] ==
                   if p == m.partition && m.payload.Good? then Max(k.mem.wm[p], m.payload.event.ts) else k.mem.wm[p])
            && k'.clean == k.clean + (if m.payload.Good? then [m.payload.event] else [])
            && k'.dead == k.dead + (if m.payload.Poison? then [Envelope(m.partition, m.offset, m.payload.raw)] else [])
            && k'.rows == k.rows + (if Unclosed(w, m.partition, m.offset)
                                    then [JournalRow(m.partition, m.offset, m.payload.event.rideId, m.payload.event)]
                                     else [])
  {
  }

  lemma OneMoreRead(p: nat, l: seq<Payload>, n: nat)
    requires n < |l|
    ensures Decoded(l, n + 1) == Decoded(l, n) + (match l[n] case Good(e) => [e] case Poison(_) => [])
    ensures DeadLetters(p, l, n + 1) ==
            DeadLetters(p, l, n) + (match l[n] case Good(_) => [] case Poison(raw) => [Envelope(p, n, raw)])
  {
  }

  lemma OutputsStep(st: Setting, w: World, k: Work, m: Message, p: nat)
    requires m.Record? && DeliveredNext(w, k, m) && LogOk(st, w.log)
    requires k.mem.wm.Keys == w.local.mem.wm.Keys
    requires OutputsAt(st, w, k, p)
    ensures OutputsAt(st, w, Consume(w.local.store.closes, k, m), p)
  {
    hide Consume, Next, MirrorOf, DeadOn, Decoded, DeadLetters;
    ConsumeShows(w, k, m);
    var k', b := Consume(w.local.store.closes, k, m), w.local.broker;
    assert Part(w.log, m.partition)[m.offset] == m.payload;
    if p == m.partition { OneMoreRead(p, Part(w.log, p), m.offset); }
    match m.payload
    case Poison(raw) =>
      assert b.clean + k'.clean == b.clean + k.clean;
      assert b.dead + k'.dead == (b.dead + k.dead) + [Envelope(m.partition, m.offset, raw)];
      DeadOneMore(b.dead + k.dead, Envelope(m.partition, m.offset, raw), p);
    case Good(e) =>
      assert b.dead + k'.dead == b.dead + k.dead;
      assert b.clean + k'.clean == (b.clean + k.clean) + [e];
      MirrorOneMore(st.home, b.clean + k.clean, e, p);
  }

  lemma AccStepOwn(st: Setting, w: World, k: Work, m: Message, r: string)
    requires m.Record? && DeliveredNext(w, k, m) && LogOk(st, w.log)
    requires EventOf(m.payload, r) && r !in w.local.store.closes
    requires k.mem.wm.Keys == w.local.mem.wm.Keys
    requires AccAt(st, w, k, r)
    ensures AccAt(st, w, Consume(w.local.store.closes, k, m), r)
  {
    var l, n := Part(w.log, st.home(r)), Next(w.local.broker, k.maxOff, st.home(r));
    assert Part(w.log, m.partition)[m.offset] == m.payload;
    FoldOneMore(RideLog(l, r, n), m.payload.event);
  }

  lemma AccStepOther(st: Setting, w: World, k: Work, m: Message, r: string)
    requires m.Record? && DeliveredNext(w, k, m)
    requires !EventOf(m.payload, r) || r in w.local.store.closes
    requires k.mem.wm.Keys == w.local.mem.wm.Keys
    requires AccAt(st, w, k, r)
    ensures AccAt(st, w, Consume(w.local.store.closes, k, m), r)
  {
    ConsumeElsewhere(w.local.store.closes, k, m, r);
    var l, n := Part(w.log, st.home(r)), Next(w.local.broker, k.maxOff, st.home(r));
    if st.home(r) == m.partition {
      assert l[n] == m.payload;
      assert !EventOf(l[n], r) ==> RideLog(l, r, n + 1) == RideLog(l, r, n);
      assert Next(w.local.broker, Consume(w.local.store.closes, k, m).maxOff, st.home(r)) == n + 1;
    } else {
      assert Next(w.local.broker, Consume(w.local.store.closes, k, m).maxOff, st.home(r)) == n;
    }
  }

  /** A record that is not an event of the open ride `r` leaves its accumulator alone. */
  lemma ConsumeElsewhere(closes: Closes, k: Work, m: Message, r: string)
    requires m.Record?
    ensures var k' := Consume(closes, k, m);
            && k'.mem.wm.Keys == k.mem.wm.Keys + {m.partition}
            && (!EventOf(m.payload, r) || r in closes ==>
                  && (r in k'.mem.accs <==> r in k.mem.accs)
                  && (r in k'.mem.part <==> r in k.mem.part)
                  && (r in k.mem.accs ==> k'.mem.accs[r] == k.mem.accs[r])
                  && (r in k.mem.part ==> k'.mem.part[r] == k.mem.part[r]))
  {
  }

  lemma WatermarkStep(w: World, k: Work, m: Message, p: nat)
    requires m.Record? && DeliveredNext(w, k, m)
    requires k.mem.wm.Keys == w.local.mem.wm.Keys
    requires WatermarkAt(w, k, p)
    ensures WatermarkAt(w, Consume(w.local.store.closes, k, m), p)
  {
    hide Consume, Next;
    ConsumeShows(w, k, m);
    assert Part(w.log, m.partition)[m.offset] == m.payload;
  }

  /** What one record adds to the journal: its row, unless there is nothing to add. */
  lemma RowsInsert(w: World, k: Work, m: Message)
    requires m.Record? && DeliveredNext(w, k, m)
    requires k.mem.wm.Keys == w.local.mem.wm.Keys
    requires RowsCovered(InsertIgnore(w.local.store.journal, k.rows), k.mem, w.local.broker, k.maxOff)
    ensures var k' := Consume(w.local.store.closes, k, m);
            var j := InsertIgnore(w.local.store.journal, k.rows);
            InsertIgnore(w.local.store.journal, k'.rows) ==
            if Unclosed(w, m.partition, m.offset)
            then j[(m.partition, m.offset) := JournalRow(m.partition, m.offset, m.payload.event.rideId,
                                                         m.payload.event)]
            else j
  {
    hide Consume, Next;
    ConsumeShows(w, k, m);
    var k' := Consume(w.local.store.closes, k, m);
    assert (m.partition, m.offset) !in InsertIgnore(w.local.store.journal, k.rows);
    if Unclosed(w, m.partition, m.offset) {
      assert k'.rows[..|k.rows|] == k.rows;
    } else {
      assert k'.rows == k.rows;
    }
  }

  lemma RowsStep(st: Setting, w: World, k: Work, m: Message)
    requires m.Record? && DeliveredNext(w, k, m)
    requires k.mem.wm.Keys == w.local.mem.wm.Keys
    requires RowsAt(w, k)
    ensures RowsAt(w, Consume(w.local.store.closes, k, m))
  {
    hide Consume, Next, InsertIgnore;
    ConsumeShows(w, k, m);
    RowsInsert(w, k, m);
    var k' := Consume(w.local.store.closes, k, m);
    forall p: nat, i: nat | Resume(w.local.broker, p) <= i < Next(w.local.broker, k'.maxOff, p) && Unclosed(w, p, i)
      ensures (p, i) in InsertIgnore(w.local.store.journal, k'.rows)
    {
      if p != m.partition || i != m.offset { assert i < Next(w.local.broker, k.maxOff, p); }
    }
  }

  lemma ConsumeKeepsAccs(st: Setting, w: World, k: Work, m: Message)
    requires m.Record? && DeliveredNext(w, k, m) && LogOk(st, w.log)
    requires k.mem.wm.Keys == w.local.mem.wm.Keys
    requires forall r :: AccAt(st, w, k, r)
    ensures forall r :: AccAt(st, w, Consume(w.local.store.closes, k, m), r)
  {
    hide Consume;
    forall r ensures AccAt(st, w, Consume(w.local.store.closes, k, m), r) {
      assert AccAt(st, w, k, r);
      if EventOf(m.payload, r) && r !in w.local.store.closes {
        AccStepOwn(st, w, k, m, r);
      } else {
        AccStepOther(st, w, k, m, r);
      }
    }
  }

  lemma ConsumeKeepsParts(st: Setting, w: World, k: Work, m: Message)
    requires m.Record? && DeliveredNext(w, k, m) && LogOk(st, w.log)
    requires k.mem.wm.Keys == w.local.mem.wm.Keys
    requires forall p :: OutputsAt(st, w, k, p) && WatermarkAt(w, k, p)
    ensures forall p :: OutputsAt(st, w, Consume(w.local.store.closes, k, m), p)
    ensures forall p :: WatermarkAt(w, Consume(w.local.store.closes, k, m), p)
  {
    hide Consume;
    forall p ensures OutputsAt(st, w, Consume(w.local.store.closes, k, m), p) {
      assert OutputsAt(st, w, k, p);
      OutputsStep(st, w, k, m, p);
    }
    forall p ensures WatermarkAt(w, Consume(w.local.store.closes, k, m), p) {
      assert WatermarkAt(w, k, p);
      WatermarkStep(w, k, m, p);
    }
  }

  lemma ConsumeKeeps(st: Setting, w: World, k: Work, m: Message)
    requires LogOk(st, w.log) && WorkOk(st, w, k) && DeliveredNext(w, k, m) && m.Record?
    ensures WorkOk(st, w, Consume(w.local.store.closes, k, m))
  {
    hide Consume, AccAt, RowsAt;
    ConsumeShows(w, k, m);
    var k', b := Consume(w.local.store.closes, k, m), w.local.broker;
    forall p | p in k'.maxOff ensures p in k'.mem.wm && Resume(b, p) <= k'.maxOff[p] {
      assert Next(b, k'.maxOff, p) == k'.maxOff[p] + 1;
    }
    ConsumeKeepsParts(st, w, k, m);
    ConsumeKeepsAccs(st, w, k, m);
    RowsStep(st, w, k, m);
  }

  lemma {:induction false} MessagesKeep(st: Setting, w: World, msgs: seq<Message>)
    requires Inv(st, w) && Delivered(w, msgs)
    ensures WorkOk(st, w, WorkAfter(w, msgs))
  {
    if msgs == [] {
      StartOk(st, w);
    } else {
      MessagesKeep(st, w, msgs[..|msgs| - 1]);
      if msgs[|msgs| - 1].Record? {
        ConsumeKeeps(st, w, WorkAfter(w, msgs[..|msgs| - 1]), msgs[|msgs| - 1]);
      }
    }
  }

  // ---------------------------------------------------------------- the closes

  /** A batch's work once every message is read, with the closes it makes. */
  ghost predicate BatchOk(st: Setting, w: World, k: Work, closes: seq<CloseRow>) {
    Inv(st, w) && WorkOk(st, w, k) && CloseList(st.cfg, k, closes)
  }

  lemma IdleByWatermark(l: seq<Payload>, tag: nat, last: int, timeoutMs: int, wm: int)
    requires WatermarkOk(l, tag + 1, wm) && wm - last > timeoutMs
    ensures Idle(l, tag, last, timeoutMs)
  {
  }

  lemma CloseFromAcc(st: Setting, w: World, k: Work, r: string, c: CloseRow)
    requires AccAt(st, w, k, r) && WatermarkAt(w, k, st.home(r))
    requires r in k.mem.accs && CloseOf(st.cfg, k, r) == Some(c)
    ensures CloseOk(st, w.log, r, c)
  {
    hide BuildSession;
    var l := Part(w.log, st.home(r));
    var slots := k.mem.accs[r];
    FoldEmpty(RideLog(l, r, c.offset + 1));
    if TerminalOf(slots) == None {
      IdleByWatermark(l, c.offset, LastTs(slots), st.cfg.sessionTimeoutMs, k.mem.wm[st.home(r)]);
    }
  }

  /** A close is tagged with the last offset read on its ride's partition, and
      records the session of all the ride's events up to there. */
  lemma NewCloseOk(st: Setting, w: World, k: Work, closes: seq<CloseRow>, c: CloseRow)
    requires BatchOk(st, w, k, closes) && c in closes
    ensures CloseOk(st, w.log, c.rideId, c)
    ensures c.rideId !in w.local.store.closes
    ensures st.home(c.rideId) in k.maxOff && c.offset == k.maxOff[st.home(c.rideId)]
    ensures c.session.rideId == c.rideId
  {
    assert AccAt(st, w, k, c.rideId) && WatermarkAt(w, k, st.home(c.rideId));
    CloseFromAcc(st, w, k, c.rideId, c);
  }

  lemma ClosesInStore(st: Setting, w: World, k: Work, closes: seq<CloseRow>)
    requires BatchOk(st, w, k, closes)
    ensures var c' := InsertReplace(w.local.store.closes, closes);
            && ClosesOk(st, w.log, c')
            && (forall r :: r in w.local.store.closes ==> r in c' && c'[r] == w.local.store.closes[r])
            && (forall r :: r in c' && r !in w.local.store.closes ==> c'[r] in closes && c'[r].rideId == r)
            && (forall c :: c in closes ==> c.rideId in c' && c'[c.rideId] == c)
  {
    hide BuildSession, CloseOf;
    var c' := InsertReplace(w.local.store.closes, closes);
    InsertReplaceIs(w.local.store.closes, closes);
    forall c | c in closes ensures CloseOk(st, w.log, c.rideId, c) && c.rideId !in w.local.store.closes {
      NewCloseOk(st, w, k, closes, c);
    }
  }

  /** A ride this batch leaves open on a partition it read has no terminal event there. */
  lemma OpenHasNoTerminal(st: Setting, w: World, k: Work, closes: seq<CloseRow>, r: string, i: nat)
    requires BatchOk(st, w, k, closes)
    requires r !in w.local.store.closes && (forall c :: c in closes ==> c.rideId != r)
    requires st.home(r) in k.maxOff
    requires i < Next(w.local.broker, k.maxOff, st.home(r)) && i < |Part(w.log, st.home(r))|
    requires EventOf(Part(w.log, st.home(r))[i], r)
    ensures !TerminalKind(Part(w.log, st.home(r))[i].event.kind)
  {
    var l, n := Part(w.log, st.home(r)), Next(w.local.broker, k.maxOff, st.home(r));
    assert AccAt(st, w, k, r);
    RideLogHas(l, r, n, i);
    var slots := k.mem.accs[r];
    assert CloseOf(st.cfg, k, r) == None;
    assert TerminalOf(slots) == None;
    FoldHasKind(RideLog(l, r, n), l[i].event);
    TerminalOfIsThere(slots);
  }

  lemma FoldHasKind(events: seq<RideEvent>, e: RideEvent)
    requires e in events
    ensures exists x :: x in Fold(events) && x.kind == e.kind
  {
    FoldSlot(events, e.kind);
    LastOfKindIsThere(events, e.kind);
    var i := IndexOf(Fold(events), e.kind);
    assert Fold(events)[i] in Fold(events);
  }

  // -------------------------------------------------- the store has the batch

  ghost function Stored(w: World, k: Work, closes: seq<CloseRow>): Store {
    Append(w.local.store, k.rows, closes)
  }

  /** The world in the two-store gap: the store has the batch, the broker has not. */
  ghost function InGap(w: World, k: Work, closes: seq<CloseRow>): World {
    w.(local := Local(w.local.broker, Stored(w, k, closes), NO_MEMORY))
  }

  lemma GapOk(st: Setting, w: World, k: Work, closes: seq<CloseRow>)
    requires BatchOk(st, w, k, closes)
    ensures DiskOk(st, InGap(w, k, closes))
    ensures forall r :: Confirmed(st, InGap(w, k, closes), r) <==> Confirmed(st, w, r)
  {
    hide BuildSession, Fold, CloseOk, AccOk;
    var g := InGap(w, k, closes);
    ClosesInStore(st, w, k, closes);
    InsertIgnoreIs(w.local.store.journal, k.rows);
    forall p ensures OutputsOk(st, g, p) { assert OutputsOk(st, w, p); }
    forall r ensures RideOk(st, g, r) && (Confirmed(st, g, r) <==> Confirmed(st, w, r)) {
      assert RideOk(st, w, r);
      if r in g.local.store.closes && r !in w.local.store.closes {
        NewCloseOk(st, w, k, closes, g.local.store.closes[r]);
      }
    }
  }

  // --------------------------------------------------------- the commit lands

  /** The world once the transaction is applied. */
  ghost function Published(w: World, k: Work, closes: seq<CloseRow>, m: Memory): World {
    w.(local := Local(Apply(w.local.broker, TxnOf(k, closes)), Stored(w, k, closes), m))
  }

  lemma ResumeIsNext(w: World, k: Work, closes: seq<CloseRow>, m: Memory, p: nat)
    ensures Resume(Published(w, k, closes, m).local.broker, p) == Next(w.local.broker, k.maxOff, p)
  {
  }

  lemma PublishedConfirms(st: Setting, w: World, k: Work, closes: seq<CloseRow>, m: Memory, r: string)
    requires BatchOk(st, w, k, closes)
    ensures Confirmed(st, Published(w, k, closes, m), r) <==>
            Confirmed(st, w, r) || exists c :: c in closes && c.rideId == r
    ensures Confirmed(st, w, r) ==> Stored(w, k, closes).closes[r] == w.local.store.closes[r]
  {
    ClosesInStore(st, w, k, closes);
    ResumeIsNext(w, k, closes, m, st.home(r));
    if c :| c in closes && c.rideId == r {
      NewCloseOk(st, w, k, closes, c);
    } else if r in w.local.store.closes && st.home(r) in k.maxOff {
      assert r in w.local.store.closes && st.home(r) in w.local.mem.wm;
    }
  }

  lemma PublishedSessions(st: Setting, w: World, k: Work, closes: seq<CloseRow>, m: Memory, r: string)
    requires BatchOk(st, w, k, closes)
    ensures var w' := Published(w, k, closes, m);
            SessionsFor(w'.local.broker.sessions, r) ==
            if Confirmed(st, w', r) then [w'.local.store.closes[r].session] else []
  {
    assert RideOk(st, w, r);
    ClosesInStore(st, w, k, closes);
    PublishedConfirms(st, w, k, closes, m, r);
    SessionsForConcat(w.local.broker.sessions, SessionsIn(closes), r);
    forall c | c in closes ensures c.session.rideId == c.rideId && c.rideId !in w.local.store.closes {
      NewCloseOk(st, w, k, closes, c);
    }
    SessionsInIs(closes, r);
  }

  lemma PublishedRows(st: Setting, w: World, k: Work, closes: seq<CloseRow>, m: Memory, r: string, i: nat)
    requires BatchOk(st, w, k, closes)
    requires !Confirmed(st, Published(w, k, closes, m), r)
    requires i < Next(w.local.broker, k.maxOff, st.home(r)) && i < |Part(w.log, st.home(r))|
    requires EventOf(Part(w.log, st.home(r))[i], r)
    ensures (st.home(r), i) in Stored(w, k, closes).journal
    ensures !TerminalKind(Part(w.log, st.home(r))[i].event.kind)
  {
    var p := st.home(r);
    assert RideOk(st, w, r);
    PublishedConfirms(st, w, k, closes, m, r);
    InsertIgnoreIs(w.local.store.journal, k.rows);
    if p in k.maxOff {
      assert r !in w.local.store.closes;
      OpenHasNoTerminal(st, w, k, closes, r, i);
      if i >= Resume(w.local.broker, p) { assert Unclosed(w, p, i); }
    }
  }

  lemma PublishedOk(st: Setting, w: World, k: Work, closes: seq<CloseRow>, m: Memory)
    requires BatchOk(st, w, k, closes)
    ensures DiskOk(st, Published(w, k, closes, m))
  {
    var w' := Published(w, k, closes, m);
    GapOk(st, w, k, closes);
    forall p ensures OutputsOk(st, w', p) {
      ResumeIsNext(w, k, closes, m, p);
      assert OutputsAt(st, w, k, p);
    }
    forall r ensures RideOk(st, w', r) {
      ResumeIsNext(w, k, closes, m, st.home(r));
      PublishedSessions(st, w, k, closes, m, r);
      forall i | !Confirmed(st, w', r) && 0 <= i < Resume(w'.local.broker, st.home(r)) && i < |Part(w.log, st.home(r))|
        && EventOf(Part(w.log, st.home(r))[i], r)
        ensures (st.home(r), i) in w'.local.store.journal && !TerminalKind(Part(w.log, st.home(r))[i].event.kind)
      {
        PublishedRows(st, w, k, closes, m, r, i);
      }
    }
  }

  lemma CommittedAcc(st: Setting, w: World, k: Work, closes: seq<CloseRow>, r: string)
    requires BatchOk(st, w, k, closes)
    ensures var m := Forget(k.mem, RidesIn(closes));
            AccOk(st, w.log, Stored(w, k, closes).closes, m, Next(w.local.broker, k.maxOff, st.home(r)), r)
  {
    assert AccAt(st, w, k, r);
    ClosesInStore(st, w, k, closes);
  }

  lemma CommittedRows(st: Setting, w: World, k: Work, closes: seq<CloseRow>)
    requires BatchOk(st, w, k, closes)
    ensures var m := Forget(k.mem, RidesIn(closes));
            var w' := Published(w, k, closes, m);
            RowsCovered(w'.local.store.journal, m, w'.local.broker, map[])
  {
    hide BuildSession, CloseOf;
    var m := Forget(k.mem, RidesIn(closes));
    assert RowsCovered(InsertIgnore(w.local.store.journal, k.rows), k.mem, w.local.broker, k.maxOff);
    forall key | key in Stored(w, k, closes).journal && key.0 in m.wm
      ensures key.1 < Next(w.local.broker, k.maxOff, key.0)
    {
    }
    forall p { ResumeIsNext(w, k, closes, m, p); }
  }

  lemma CommittedClose(st: Setting, w: World, k: Work, closes: seq<CloseRow>, r: string)
    requires BatchOk(st, w, k, closes)
    requires r in Stored(w, k, closes).closes && st.home(r) in k.mem.wm
    ensures Confirmed(st, Published(w, k, closes, Forget(k.mem, RidesIn(closes))), r)
  {
    hide BuildSession, CloseOf;
    ClosesInStore(st, w, k, closes);
    PublishedConfirms(st, w, k, closes, Forget(k.mem, RidesIn(closes)), r);
    if r in w.local.store.closes {
      assert st.home(r) in w.local.mem.wm;
    } else {
      assert Stored(w, k, closes).closes[r] in closes;
    }
  }

  lemma CommittedMemory(st: Setting, w: World, k: Work, closes: seq<CloseRow>)
    requires BatchOk(st, w, k, closes)
    ensures MemoryOk(st, Published(w, k, closes, Forget(k.mem, RidesIn(closes))))
  {
    hide BuildSession, CloseOf, Append;
    var m := Forget(k.mem, RidesIn(closes));
    var w' := Published(w, k, closes, m);
    forall r ensures AccOk(st, w.log, w'.local.store.closes, m, Resume(w'.local.broker, st.home(r)), r) {
      ResumeIsNext(w, k, closes, m, st.home(r));
      CommittedAcc(st, w, k, closes, r);
    }
    forall p | p in m.wm ensures WatermarkOk(Part(w.log, p), Resume(w'.local.broker, p), m.wm[p]) {
      ResumeIsNext(w, k, closes, m, p);
      assert WatermarkAt(w, k, p);
    }
    CommittedRows(st, w, k, closes);
    forall r | r in w'.local.store.closes && st.home(r) in m.wm ensures Confirmed(st, w', r) {
      CommittedClose(st, w, k, closes, r);
    }
  }

  lemma BatchKeeps(st: Setting, w: World, msgs: seq<Message>, closes: seq<CloseRow>, end: End)
    requires Inv(st, w) && Enabled(st, w, Step.Batch(msgs, closes, end))
    ensures Inv(st, Take(w, Step.Batch(msgs, closes, end)))
  {
    var k := WorkAfter(w, msgs);
    var w' := Take(w, Step.Batch(msgs, closes, end));
    MessagesKeep(st, w, msgs);
    match end
    case DiesInGap =>
      GapOk(st, w, k, closes);
      NoMemoryOk(st, w');
    case Commits =>
      PublishedOk(st, w, k, closes, w'.local.mem);
      CommittedMemory(st, w, k, closes);
    case Raises(applied, rolled) =>
      if applied {
        PublishedOk(st, w, k, closes, NO_MEMORY);
        RollbackKeeps(st, Published(w, k, closes, NO_MEMORY), rolled);
      } else {
        GapOk(st, w, k, closes);
        RollbackKeeps(st, InGap(w, k, closes), rolled);
      }
      NoMemoryOk(st, w');
  }
}
