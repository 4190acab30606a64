// The sessionizer's steps as functions on values: recovery, revocation, and a
// batch with each way it can end (src/processors/ride_sessionizer.py).
module Steps {

  import opened Wrappers
  import opened SessionFold
  import opened StateStore
  import opened Broker

  datatype Config = Config(sessionTimeoutMs: int, geo: Haversine, crashAfterStateCommit: bool)

  /** Process memory: lost whenever the process dies. `wm` has a watermark for
      each partition the process holds. */
  datatype Memory = Memory(accs: map<string, Slots>, part: map<string, nat>, wm: map<nat, int>)

  const NO_MEMORY := Memory(map[], map[], map[])

  /** Both commit domains and the memory of the one live process. */
  datatype Local = Local(broker: BrokerState, store: Store, mem: Memory)

  datatype Message = Eof(eofPartition: nat) | Failed | Record(partition: nat, offset: nat, payload: Payload)

  // ---------------------------------------------------------------- recovery

  function Recovered(s: Store, b: BrokerState, p: nat): Store {
    Purge(Rollback(s, p, Resume(b, p)), p, Resume(b, p))
  }

  /** Memory once the open rides of `p` are refolded. */
  function Load(m: Memory, p: nat, open: map<string, seq<RideEvent>>): Memory {
    Memory(m.accs + (map r | r in open :: Fold(open[r])), m.part + (map r | r in open :: p), m.wm)
  }

  lemma OneMoreKey<V>(m: map<string, V>, all: map<string, V>, todo: set<string>, r: string)
    requires r in todo && todo <= all.Keys
    ensures m + (all - (todo - {r})) == (m + (all - todo))[r := all[r]]
  {
  }

  lemma NoKeysAndAllKeys<V>(m: map<string, V>, all: map<string, V>)
    ensures m + (all - all.Keys) == m
    ensures all - {} == all
  {
  }

  ghost function AssignMemory(m: Memory, s: Store, p: nat): Memory {
    Load(m, p, OpenRideMap(s, p)).(wm := m.wm[p := MaxTs(s.journal, p).GetOr(0)])
  }

  ghost function AssignOne(s: Local, p: nat): Local {
    var store := Recovered(s.store, s.broker, p);
    Local(s.broker, store, AssignMemory(s.mem, store, p))
  }

  ghost function AssignAll(s: Local, ps: seq<nat>): Local {
    if ps == [] then s else AssignOne(AssignAll(s, ps[..|ps| - 1]), ps[|ps| - 1])
  }

  function RevokeOne(m: Memory, p: nat): Memory {
    Memory(map r | r in m.accs && !(r in m.part && m.part[r] == p) :: m.accs[r],
           map r | r in m.part && m.part[r] != p :: m.part[r],
           map q | q in m.wm && q != p :: m.wm[q])
  }

  function RevokeAll(m: Memory, ps: seq<nat>): Memory {
    if ps == [] then m else RevokeOne(RevokeAll(m, ps[..|ps| - 1]), ps[|ps| - 1])
  }

  // ------------------------------------------------------------------- batch

  /** The batch so far: memory, rows to journal, the highest offset seen on each
      partition, events to mirror and envelopes for the dead-letter topic. */
  datatype Work = Work(
    mem: Memory,
    rows: seq<JournalRow>,
    maxOff: map<nat, nat>,
    clean: seq<RideEvent>,
    dead: seq<Envelope>)

  function StartWork(m: Memory): Work {
    Work(m, [], map[], [], [])
  }

  function Touch(w: Work, p: nat, off: nat): Work {
    w.(mem := w.mem.(wm := if p in w.mem.wm then w.mem.wm else w.mem.wm[p := 0]),
       maxOff := w.maxOff[p := if p in w.maxOff then Max(w.maxOff[p], off) else off])
  }

  function SlotsOf(m: Memory, r: string): Slots {
    if r in m.accs then m.accs[r] else []
  }

  function Observe(closes: Closes, w: Work, p: nat, off: nat, e: RideEvent): Work
    requires p in w.mem.wm
  {
    var wm := w.mem.wm[p := Max(w.mem.wm[p], e.ts)];
    if e.rideId in closes then w.(mem := w.mem.(wm := wm), clean := w.clean + [e])
    else w.(mem := Memory(w.mem.accs[e.rideId := AddEvent(SlotsOf(w.mem, e.rideId), e)],
                          if e.rideId in w.mem.accs then w.mem.part else w.mem.part[e.rideId := p],
                          wm),
            rows := w.rows + [JournalRow(p, off, e.rideId, e)],
            clean := w.clean + [e])
  }

  function Consume(closes: Closes, w: Work, m: Message): Work {
    match m
    case Eof(_) => w
    case Failed => w
    case Record(p, off, Poison(raw)) =>
      var t := Touch(w, p, off);
      t.(dead := t.dead + [Envelope(p, off, raw)])
    case Record(p, off, Good(e)) => Observe(closes, Touch(w, p, off), p, off, e)
  }

  function ConsumeAll(closes: Closes, w: Work, msgs: seq<Message>): Work {
    if msgs == [] then w
    else Consume(closes, ConsumeAll(closes, w, msgs[..|msgs| - 1]), msgs[|msgs| - 1])
  }

  /** The close of ride `r` that this batch makes, if it makes one: only on a
      partition with new input, tagged with that partition's highest offset. */
  function CloseOf(cfg: Config, w: Work, r: string): Option<CloseRow>
    requires r in w.mem.accs
  {
    if r !in w.mem.part || w.mem.part[r] !in w.maxOff || w.mem.part[r] !in w.mem.wm then None else
    var p, s := w.mem.part[r], w.mem.accs[r];
    var session :=
      if TerminalOf(s) != None then BuildSession(cfg.geo, r, s, false)
      else if TimedOut(s, w.mem.wm[p], cfg.sessionTimeoutMs) then BuildSession(cfg.geo, r, s, true)
      else None;
    match session
    case None => None
    case Some(x) => Some(CloseRow(r, p, w.maxOff[p], x))
  }

  /** Every close the batch makes, each ride once, in any order. */
  ghost predicate CloseList(cfg: Config, w: Work, closes: seq<CloseRow>) {
    && (forall i :: 0 <= i < |closes| ==>
          closes[i].rideId in w.mem.accs && CloseOf(cfg, w, closes[i].rideId) == Some(closes[i]))
    && (forall i, j :: 0 <= i < j < |closes| ==> closes[i].rideId != closes[j].rideId)
    && (forall r :: r in w.mem.accs && CloseOf(cfg, w, r) != None ==> CloseOf(cfg, w, r).value in closes)
  }

  function SessionsIn(closes: seq<CloseRow>): seq<Session> {
    if closes == [] then [] else SessionsIn(closes[..|closes| - 1]) + [closes[|closes| - 1].session]
  }

  function RidesIn(closes: seq<CloseRow>): set<string> {
    set c | c in closes :: c.rideId
  }

  function NextOffsets(maxOff: map<nat, nat>): map<nat, nat> {
    map p | p in maxOff :: maxOff[p] + 1
  }

  function TxnOf(w: Work, closes: seq<CloseRow>): Txn {
    Txn(NextOffsets(w.maxOff), SessionsIn(closes), w.clean, w.dead)
  }

  function Forget(m: Memory, rides: set<string>): Memory {
    Memory(m.accs - rides, m.part - rides, m.wm)
  }

  /** `rollback_from` at the committed position on each partition of `ps`. */
  function RollbackMany(s: Store, b: BrokerState, ps: set<nat>): Store {
    Store(map k | k in s.journal && !(k.0 in ps && k.1 >= Resume(b, k.0)) :: s.journal[k],
          map r | r in s.closes && !(s.closes[r].partition in ps && s.closes[r].offset >= Resume(b,
                                                                                                 s.closes[r].partition))
              :: s.closes[r])
  }

  lemma RollbackOneMore(s: Store, b: BrokerState, ps: set<nat>, p: nat)
    ensures RollbackMany(s, b, ps + {p}) == Rollback(RollbackMany(s, b, ps), p, Resume(b, p))
  {
  }

  /** How a batch ends once the store has it: the process dies in the two-store
      gap, the transaction commits, or the commit call raises after it was or
      was not applied and some partitions are rolled back before the process ends. */
  datatype End =
    | DiesInGap
    | Commits
    | Raises(applied: bool, rolled: set<nat>)

  function FinishBatch(s: Local, w: Work, closes: seq<CloseRow>, end: End): Local {
    var store := Append(s.store, w.rows, closes);
    var after := Apply(s.broker, TxnOf(w, closes));
    match end
    case DiesInGap => Local(s.broker, store, NO_MEMORY)
    case Commits => Local(after, store, Forget(w.mem, RidesIn(closes)))
    case Raises(applied, rolled) =>
      var b := if applied then after else s.broker;
      Local(b, RollbackMany(store, b, rolled), NO_MEMORY)
  }
}
