// The sessionizer and its broker as a state machine: a growing partitioned log,
// two commit domains, and a process that can die at any point. The steps are the
// functions of `Steps`, which the methods of `Sessionizer` are proved against.
module Protocol {

  import opened Wrappers
  import opened Lifecycle
  import opened SessionFold
  import opened StateStore
  import opened Broker
  import opened Steps

  /** `home` is the keyed partitioner: all events of a ride share a partition. */
  datatype Setting = Setting(cfg: Config, home: string -> nat)

  type Log = map<nat, seq<Payload>>

  datatype World = World(log: Log, local: Local)

  function Part(log: Log, p: nat): seq<Payload> {
    if p in log then log[p] else []
  }

  const START := World(map[], Local(EMPTY_BROKER, EMPTY_STORE, NO_MEMORY))

  // ----------------------------------------------------------------- the steps

  datatype Step =
    | Produce(p: nat, payload: Payload)
    | Assign(p: nat)
    | AssignDies(p: nat, purged: bool)
    | Revoke(p: nat)
    | Crash
    | Batch(msgs: seq<Message>, closes: seq<CloseRow>, end: End)

  /** The next offset to read on `p`, after the offsets seen so far. */
  function Next(b: BrokerState, maxOff: map<nat, nat>, p: nat): nat {
    if p in maxOff then maxOff[p] + 1 else Resume(b, p)
  }

  ghost function WorkAfter(w: World, msgs: seq<Message>): Work {
    ConsumeAll(w.local.store.closes, StartWork(w.local.mem), msgs)
  }

  /** Messages come from assigned partitions, each in log order from the resume position. */
  ghost predicate Delivered(w: World, msgs: seq<Message>) {
    msgs == [] ||
    (var front := msgs[..|msgs| - 1];
     && Delivered(w, front)
     && DeliveredNext(w, WorkAfter(w, front), msgs[|msgs| - 1]))
  }

  ghost predicate DeliveredNext(w: World, k: Work, m: Message) {
    match m
    case Eof(_) => true
    case Failed => false
    case Record(p, off, payload) =>
      && p in w.local.mem.wm
      && off == Next(w.local.broker, k.maxOff, p)
      && off < |Part(w.log, p)| && Part(w.log, p)[off] == payload
  }

  ghost predicate Enabled(st: Setting, w: World, s: Step) {
    match s
    case Produce(p, Good(e)) => st.home(e.rideId) == p
    case Produce(_, Poison(_)) => true
    case Assign(p) => p !in w.local.mem.wm
    case AssignDies(p, _) => p !in w.local.mem.wm
    case Revoke(p) => p in w.local.mem.wm
    case Crash => true
    case Batch(msgs, closes, end) =>
      && Delivered(w, msgs)
      && CloseList(st.cfg, WorkAfter(w, msgs), closes)
      && (end.Raises? ==> end.rolled <= WorkAfter(w, msgs).maxOff.Keys)
  }

  ghost function Take(w: World, s: Step): World {
    match s
    case Produce(p, payload) => w.(log := w.log[p := Part(w.log, p) + [payload]])
    case Assign(p) => w.(local := AssignOne(w.local, p))
    case AssignDies(p, purged) =>
      var store := Rollback(w.local.store, p, Resume(w.local.broker, p));
      w.(local := Local(w.local.broker, if purged then Recovered(w.local.store, w.local.broker, p) else store,
                        NO_MEMORY))
    case Revoke(p) => w.(local := w.local.(mem := RevokeOne(w.local.mem, p)))
    case Crash => w.(local := w.local.(mem := NO_MEMORY))
    case Batch(msgs, closes, end) => w.(local := FinishBatch(w.local, WorkAfter(w, msgs), closes, end))
  }

  /** `ws` is a run: each world is an enabled step after the one before. */
  ghost predicate Run(st: Setting, ws: seq<World>, steps: seq<Step>) {
    && |ws| == |steps| + 1
    && (forall i :: 0 <= i < |steps| ==> Enabled(st, ws[i], steps[i]) && ws[i + 1] == Take(ws[i], steps[i]))
  }

  ghost predicate Reachable(st: Setting, w: World) {
    exists ws, steps :: Run(st, ws, steps) && ws[0] == START && ws[|ws| - 1] == w
  }

  // ------------------------------------- what a prefix of the log stands for

  /** The decodable events below `n`, in order. */
  function Decoded(l: seq<Payload>, n: nat): seq<RideEvent>
    requires n <= |l|
  {
    if n == 0 then []
    else Decoded(l, n - 1) + (match l[n - 1] case Good(e) => [e] case Poison(_) => [])
  }

  /** The envelopes of the poison messages below `n`, in order. */
  function DeadLetters(p: nat, l: seq<Payload>, n: nat): seq<Envelope>
    requires n <= |l|
  {
    if n == 0 then []
    else DeadLetters(p, l, n - 1) +
         (match l[n - 1] case Good(_) => [] case Poison(raw) => [Envelope(p, n - 1, raw)])
  }

  predicate EventOf(x: Payload, r: string) {
    x.Good? && x.event.rideId == r
  }

  /** Ride `r`'s decodable events below `n`, in order. */
  function RideLog(l: seq<Payload>, r: string, n: nat): seq<RideEvent>
    requires n <= |l|
  {
    if n == 0 then []
    else RideLog(l, r, n - 1) + (if EventOf(l[n - 1], r) then [l[n - 1].event] else [])
  }

  // --------------------------------------------- what the output topics hold

  /** The mirror's records that came from partition `p`. */
  function MirrorOf(home: string -> nat, clean: seq<RideEvent>, p: nat): seq<RideEvent> {
    if clean == [] then []
    else
      var e := clean[|clean| - 1];
      MirrorOf(home, clean[..|clean| - 1], p) + (if home(e.rideId) == p then [e] else [])
  }

  function DeadOn(dead: seq<Envelope>, p: nat): seq<Envelope> {
    if dead == [] then []
    else
      var x := dead[|dead| - 1];
      DeadOn(dead[..|dead| - 1], p) + (if x.partition == p then [x] else [])
  }

  function SessionsFor(sessions: seq<Session>, r: string): seq<Session> {
    if sessions == [] then []
    else
      var x := sessions[|sessions| - 1];
      SessionsFor(sessions[..|sessions| - 1], r) + (if x.rideId == r then [x] else [])
  }

  // ------------------------------------------------------------ the invariant

  /** A close whose tag is below the committed position of its partition. */
  ghost predicate Confirmed(st: Setting, w: World, r: string) {
    r in w.local.store.closes && w.local.store.closes[r].offset < Resume(w.local.broker, st.home(r))
  }

  ghost predicate LogOk(st: Setting, log: Log) {
    forall p, i :: 0 <= i < |Part(log, p)| && Part(log, p)[i].Good? ==> st.home(Part(log, p)[i].event.rideId) == p
  }

  /** Mirror and dead letters are those of the committed prefix, and no others. */
  ghost predicate OutputsOk(st: Setting, w: World, p: nat) {
    var l, n, b := Part(w.log, p), Resume(w.local.broker, p), w.local.broker;
    && n <= |l|
    && MirrorOf(st.home, b.clean, p) == Decoded(l, n)
    && DeadOn(b.dead, p) == DeadLetters(p, l, n)
  }

  ghost predicate RowOk(log: Log, k: (nat, nat), row: JournalRow) {
    && row.partition == k.0 && row.offset == k.1
    && k.1 < |Part(log, k.0)| && Part(log, k.0)[k.1] == Good(row.value)
    && row.rideId == row.value.rideId
  }

  ghost predicate JournalOk(log: Log, j: Journal) {
    forall k :: k in j ==> RowOk(log, k, j[k])
  }

  /** Some event up to offset `tag` lies more than the timeout after `last`; with
      none, the watermark of 0 that a partition starts from does. */
  ghost predicate Idle(l: seq<Payload>, tag: nat, last: int, timeoutMs: int) {
    || (exists i :: 0 <= i <= tag && i < |l| && l[i].Good? && l[i].event.ts - last > timeoutMs)
    || 0 - last > timeoutMs
  }

  /** The session is the one its ride's events up to the tag derive, and if they
      hold no terminal event then the ride had gone idle. */
  ghost predicate CloseOk(st: Setting, log: Log, r: string, c: CloseRow) {
    var l := Part(log, st.home(r));
    && c.rideId == r && c.partition == st.home(r) && c.offset < |l|
    && var slots := Fold(RideLog(l, r, c.offset + 1));
       && slots != []
       && BuildSession(st.cfg.geo, r, slots, TerminalOf(slots) == None) == Some(c.session)
       && (TerminalOf(slots) == None ==> Idle(l, c.offset, LastTs(slots), st.cfg.sessionTimeoutMs))
  }

  ghost predicate ClosesOk(st: Setting, log: Log, closes: Closes) {
    forall r :: r in closes ==> CloseOk(st, log, r, closes[r])
  }

  /** A ride has one committed session if its close is confirmed and none if not;
      until then its committed events are journalled and none is terminal. */
  ghost predicate RideOk(st: Setting, w: World, r: string) {
    var p, n := st.home(r), Resume(w.local.broker, st.home(r));
    && SessionsFor(w.local.broker.sessions, r) ==
       (if Confirmed(st, w, r) then [w.local.store.closes[r].session] else [])
    && (!Confirmed(st, w, r) ==>
          forall i :: 0 <= i < n && i < |Part(w.log, p)| && EventOf(Part(w.log, p)[i], r) ==>
            (p, i) in w.local.store.journal && !TerminalKind(Part(w.log, p)[i].event.kind))
  }

  /** The accumulator of `r`, when its partition is held and read up to `n`. */
  ghost predicate AccOk(st: Setting, log: Log, closes: Closes, m: Memory, n: nat, r: string) {
    var l := Part(log, st.home(r));
    && (r in m.accs <==> r in m.part)
    && (r in m.accs ==> m.part[r] == st.home(r) && st.home(r) in m.wm)
    && (st.home(r) in m.wm ==>
          && n <= |l|
          && (r in m.accs <==> r !in closes && RideLog(l, r, n) != [])
          && (r in m.accs ==> m.accs[r] == Fold(RideLog(l, r, n))))
  }

  /** The watermark of a held partition is 0 or the time of an event read on it. */
  ghost predicate WatermarkOk(l: seq<Payload>, n: nat, wm: int) {
    wm == 0 || exists i :: 0 <= i < n && i < |l| && l[i].Good? && l[i].event.ts == wm
  }

  /** On held partitions nothing is journalled beyond the position read, and the
      watermark covers every journalled event. */
  ghost predicate RowsCovered(j: Journal, m: Memory, b: BrokerState, maxOff: map<nat, nat>) {
    forall k :: k in j && k.0 in m.wm ==> k.1 < Next(b, maxOff, k.0) && j[k].value.ts <= m.wm[k.0]
  }

  ghost predicate MemoryOk(st: Setting, w: World) {
    var b, m := w.local.broker, w.local.mem;
    && (forall r :: AccOk(st, w.log, w.local.store.closes, m, Resume(b, st.home(r)), r))
    && (forall p :: p in m.wm ==> WatermarkOk(Part(w.log, p), Resume(b, p), m.wm[p]))
    && RowsCovered(w.local.store.journal, m, b, map[])
    && (forall r :: r in w.local.store.closes && st.home(r) in m.wm ==> Confirmed(st, w, r))
  }

  ghost predicate Inv(st: Setting, w: World) {
    && LogOk(st, w.log)
    && (forall p :: OutputsOk(st, w, p))
    && JournalOk(w.log, w.local.store.journal)
    && ClosesOk(st, w.log, w.local.store.closes)
    && (forall r :: RideOk(st, w, r))
    && MemoryOk(st, w)
  }
}
