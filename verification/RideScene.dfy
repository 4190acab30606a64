// Rides and drivers together, as values: what holds of the active rides, of the
// rides that left, and of who drives whom, and how each lifecycle event keeps it.
module RideScene {

  import opened Wrappers
  import opened Lifecycle
  import opened Fleet

  /** What the simulation depends on in an active ride. */
  datatype RideState = RideState(
    state: Option<Kind>, driver: Option<DriverId>, nextEvent: Option<Kind>, nextAtMs: int, stopAfter: Option<Kind>)

  datatype Stamp = Stamp(kind: Kind, ts: int)

  /** The events a ride has emitted, and where in the ledger its grant is. */
  datatype Trace = Trace(events: seq<Stamp>, grant: Option<nat>)

  datatype Scene = Scene(
    rides: map<nat, RideState>,
    trace: map<nat, Trace>,
    states: map<DriverId, DriverState>,
    holder: map<DriverId, nat>,
    ledger: seq<Move>)

  // -------------------------------------------------------------- legal paths

  function LastStamp(events: seq<Stamp>): Stamp
    requires events != []
  {
    events[|events| - 1]
  }

  /** Starts with a request, follows legal edges, and time does not go back. */
  ghost predicate LegalPath(events: seq<Stamp>) {
    events != [] &&
    if |events| == 1 then events[0].kind == Requested
    else
      var front := events[..|events| - 1];
      && LegalPath(front) && LegalEdge(LastStamp(front).kind, LastStamp(events).kind)
      && LastStamp(front).ts <= LastStamp(events).ts
  }

  lemma PathGrows(events: seq<Stamp>, s: Stamp)
    requires LegalPath(events) && LegalEdge(LastStamp(events).kind, s.kind) && LastStamp(events).ts <= s.ts
    ensures LegalPath(events + [s]) && LastStamp(events + [s]) == s
  {
    assert (events + [s])[..|events|] == events;
  }

  const HAPPY: seq<Kind> := [Requested, Matched, DriverArrived, Started, Completed]

  /** Some way along the happy path; or up to its fourth kind, and then cancelled. */
  ghost predicate Follows(events: seq<Stamp>) {
    var n := |events|;
    && 0 < n <= 5
    && (forall i :: 0 <= i < n - 1 ==> events[i].kind == HAPPY[i])
    && (events[n - 1].kind == HAPPY[n - 1] || (n > 1 && events[n - 1].kind == Cancelled))
    && (forall i, j :: 0 <= i <= j < n ==> events[i].ts <= events[j].ts)
  }

  /** The legal paths are exactly those. */
  lemma {:induction false} LegalPathsAre(events: seq<Stamp>)
    ensures LegalPath(events) <==> Follows(events)
  {
    if |events| > 1 {
      var n, front := |events| - 1, events[..|events| - 1];
      LegalPathsAre(front);
      if LegalPath(events) {
        assert front[n - 1] == events[n - 1];
        forall i, j | 0 <= i <= j < |events| ensures events[i].ts <= events[j].ts {
          if j < n { assert front[i].ts <= front[j].ts; } else if i < n { assert front[i].ts <= front[n - 1].ts; }
        }
      }
      if Follows(events) {
        assert events[n - 1].kind == HAPPY[n - 1];
        assert forall i, j :: 0 <= i <= j < n ==> front[i] == events[i] && front[j] == events[j];
      }
    }
  }

  /** The measure bounds what is still to come, so no ride emits more than five
      events, and no event kind twice. */
  lemma {:induction false} PathIsShort(events: seq<Stamp>)
    requires LegalPath(events)
    ensures |events| + Remaining(Some(LastStamp(events).kind)) <= 5
    ensures forall i :: 0 <= i < |events| - 1 ==> EventSeq(events[i].kind) < EventSeq(LastStamp(events).kind)
    ensures forall i :: 0 <= i < |events| ==> events[i].ts <= LastStamp(events).ts
  {
    if |events| > 1 {
      PathIsShort(events[..|events| - 1]);
    }
  }

  // ---------------------------------------------------------------- the scene

  /** The grant is the driver's last move. */
  ghost predicate OpenGrant(ledger: seq<Move>, driver: Option<DriverId>, grant: Option<nat>) {
    match driver
    case None => grant == None
    case Some(d) =>
      && grant != None && grant.value < |ledger| && ledger[grant.value] == Grant(d)
      && QuietSince(ledger, d, grant.value)
  }

  ghost predicate QuietSince(ledger: seq<Move>, d: DriverId, i: nat) {
    forall j :: i < j < |ledger| ==> ledger[j].driver != d
  }

  /** The grant at `i` was answered at `j` by the driver's very next move. */
  ghost predicate AnsweredAt(ledger: seq<Move>, i: nat, j: nat) {
    && i < j < |ledger| && ledger[i].Grant? && ledger[j] == Return(ledger[i].driver)
    && forall k :: i < k < j ==> ledger[k].driver != ledger[i].driver
  }

  ghost predicate Answered(ledger: seq<Move>, i: nat) {
    exists j: nat :: AnsweredAt(ledger, i, j)
  }

  ghost predicate Scheduled(v: RideState, at: int) {
    && v.state != None && v.nextEvent != None && LegalEdge(v.state.value, v.nextEvent.value)
    && at <= v.nextAtMs
    && (v.stopAfter == None
        || ((v.stopAfter == Some(Matched) || v.stopAfter == Some(DriverArrived))
            && EventSeq(v.state.value) < EventSeq(v.stopAfter.value)))
  }

  /** An active ride has a legal history and a legal event ahead of it. */
  ghost predicate RideOk(v: RideState, t: Trace, ledger: seq<Move>) {
    && LegalPath(t.events) && v.state == Some(LastStamp(t.events).kind)
    && Scheduled(v, LastStamp(t.events).ts)
    && (v.driver == None <==> v.state == Some(Requested))
    && OpenGrant(ledger, v.driver, t.grant)
  }

  /** A ride that left was finished or abandoned, and gave its driver back. */
  ghost predicate GoneOk(t: Trace, ledger: seq<Move>) {
    && LegalPath(t.events)
    && (var k := LastStamp(t.events).kind; TerminalKind(k) || k == Matched || k == DriverArrived)
    && (t.grant == None ==> LastStamp(t.events).kind == Cancelled && |t.events| == 2)
    && (t.grant != None ==> Answered(ledger, t.grant.value))
  }

  ghost predicate RidesOk(s: Scene) {
    forall r :: r in s.rides ==> r in s.trace && RideOk(s.rides[r], s.trace[r], s.ledger)
  }

  ghost predicate AllGoneOk(s: Scene) {
    forall r :: r in s.trace && r !in s.rides ==> GoneOk(s.trace[r], s.ledger)
  }

  function JobStatus(v: RideState): Status {
    if v.state == Some(Started) then OnTrip else EnRoute
  }

  ghost predicate Drives(s: Scene, r: nat, d: DriverId) {
    && r in s.rides && s.rides[r].driver == Some(d)
    && d in s.states && s.states[d].status == JobStatus(s.rides[r])
  }

  /** `holder` is exactly the relation between busy drivers and active rides. */
  ghost predicate HoldersOk(s: Scene) {
    && (forall r :: r in s.rides && s.rides[r].driver != None ==>
          s.rides[r].driver.value in s.holder && s.holder[s.rides[r].driver.value] == r)
    && (forall d :: d in s.holder ==> Drives(s, s.holder[d], d))
    && (forall d :: d in s.states && Busy(s.states[d].status) ==> d in s.holder)
  }

  ghost predicate LedgerOk(s: Scene) {
    Alternates(s.ledger) && forall d :: Out(s.ledger, d) <==> d in s.holder
  }

  ghost predicate SceneOk(s: Scene) {
    RidesOk(s) && AllGoneOk(s) && HoldersOk(s) && LedgerOk(s)
  }

  // --------------------------------------------------------- what it promises

  /** The active rides' drivers are pairwise distinct, and they are exactly the
      drivers en route or on a trip, each with the status its ride calls for. */
  lemma DriversAreExclusive(s: Scene)
    requires SceneOk(s)
    ensures forall a, b :: a in s.rides && b in s.rides && a != b && s.rides[a].driver != None ==>
              s.rides[a].driver != s.rides[b].driver
    ensures forall d ::
              (d in s.states && Busy(s.states[d].status)) <==>
              exists r :: r in s.rides && s.rides[r].driver == Some(d)
    ensures forall r, d :: r in s.rides && s.rides[r].driver == Some(d) ==>
              d in s.states && s.states[d].status == if s.rides[r].state == Some(Started) then OnTrip else EnRoute
  {
    forall d
      ensures (d in s.states && Busy(s.states[d].status)) <==> exists r :: r in s.rides && s.rides[r].driver == Some(d)
    {
      if d in s.holder { assert Drives(s, s.holder[d], d); }
    }
    forall r, d | r in s.rides && s.rides[r].driver == Some(d)
      ensures d in s.states && s.states[d].status == if s.rides[r].state == Some(Started) then OnTrip else EnRoute
    {
      assert Drives(s, s.holder[d], d);
    }
  }

  /** An active ride is never stuck: it has a planned event, legal from its state,
      not before its last one, and its driver is in the fleet. */
  lemma NeverStuck(s: Scene, r: nat)
    requires SceneOk(s) && r in s.rides
    ensures r in s.trace && s.rides[r].state != None && s.rides[r].nextEvent != None
    ensures LegalNext(s.rides[r].state, s.rides[r].nextEvent.value)
    ensures LegalPath(s.trace[r].events) && Scheduled(s.rides[r], LastStamp(s.trace[r].events).ts)
    ensures s.rides[r].driver == None <==> s.rides[r].state == Some(Requested)
    ensures s.rides[r].driver != None ==>
              var d := s.rides[r].driver.value; d in s.states && d in s.holder && s.holder[d] == r
    ensures s.rides[r].driver != None ==> s.states[s.rides[r].driver.value].status == JobStatus(s.rides[r])
  {
    assert RideOk(s.rides[r], s.trace[r], s.ledger);
    assert s.rides[r].driver != None ==> Drives(s, r, s.rides[r].driver.value);
  }

  /** Every ride, active or gone, has a legal history with times in order, of at
      most five events. */
  lemma TraceIsLegal(s: Scene, q: nat)
    requires SceneOk(s) && q in s.trace
    ensures LegalPath(s.trace[q].events) && |s.trace[q].events| <= 5
  {
    hide LegalPath;
    if q in s.rides {
      assert RideOk(s.rides[q], s.trace[q], s.ledger);
    } else {
      assert GoneOk(s.trace[q], s.ledger);
    }
    PathIsShort(s.trace[q].events);
  }

  /** `m` is a return of the driver granted at `i`. */
  ghost predicate ReturnOf(ledger: seq<Move>, i: nat, j: nat) {
    i < j < |ledger| && i < |ledger| && ledger[j] == Return(ledger[i].driver)
  }

  /** Two returns of one driver have a grant of that driver between them. */
  lemma {:induction false} GrantBetweenReturns(ledger: seq<Move>, j: nat, k: nat)
    requires Alternates(ledger) && j < k < |ledger| && ledger[j].Return? && ledger[k] == ledger[j]
    ensures exists g :: j < g < k && ledger[g] == Grant(ledger[j].driver)
  {
    var n := |ledger| - 1;
    var front := ledger[..n];
    if k < n {
      GrantBetweenReturns(front, j, k);
      var g :| j < g < k && front[g] == Grant(front[j].driver);
      assert ledger[g] == Grant(ledger[j].driver);
    } else {
      LastMoveIsGrant(front, ledger[j].driver, j);
      var g :| j < g < |front| && front[g] == Grant(ledger[j].driver);
      assert ledger[g] == Grant(ledger[j].driver);
    }
  }

  lemma {:induction false} LastMoveIsGrant(ledger: seq<Move>, d: DriverId, j: nat)
    requires Out(ledger, d) && j < |ledger| && ledger[j] == Return(d)
    ensures exists g :: j < g < |ledger| && ledger[g] == Grant(d)
  {
    var n := |ledger| - 1;
    if ledger[n].driver != d {
      LastMoveIsGrant(ledger[..n], d, j);
      var g :| j < g < n && ledger[..n][g] == Grant(d);
      assert ledger[g] == Grant(d);
    }
  }

  /** A ride that was assigned a driver and left the active set gave it back
      exactly once before the driver was granted again. */
  lemma ReleasedExactlyOnce(s: Scene, r: nat)
    requires SceneOk(s) && r in s.trace && r !in s.rides && s.trace[r].grant != None
    ensures exists j: nat :: AnsweredAt(s.ledger, s.trace[r].grant.value, j)
              && forall k: nat :: ReturnOf(s.ledger, s.trace[r].grant.value, k) && k != j ==>
                   exists g :: j < g < k && s.ledger[g] == Grant(s.ledger[j].driver)
  {
    assert GoneOk(s.trace[r], s.ledger);
    var i := s.trace[r].grant.value;
    var j: nat :| AnsweredAt(s.ledger, i, j);
    forall k: nat | ReturnOf(s.ledger, i, k) && k != j
      ensures exists g :: j < g < k && s.ledger[g] == Grant(s.ledger[j].driver)
    {
      assert k > j;
      GrantBetweenReturns(s.ledger, j, k);
    }
  }

  // --------------------------------------------------- the ledger only grows

  lemma QuietGrows(ledger: seq<Move>, driver: Option<DriverId>, grant: Option<nat>, m: Move)
    requires OpenGrant(ledger, driver, grant) && driver != Some(m.driver)
    ensures OpenGrant(ledger + [m], driver, grant)
  {
  }

  lemma AnsweredStays(ledger: seq<Move>, i: nat, m: Move)
    requires Answered(ledger, i)
    ensures Answered(ledger + [m], i)
  {
    var j: nat :| AnsweredAt(ledger, i, j);
    assert AnsweredAt(ledger + [m], i, j);
  }

  lemma GoneStays(t: Trace, ledger: seq<Move>, m: Move)
    requires GoneOk(t, ledger)
    ensures GoneOk(t, ledger + [m])
  {
    if t.grant != None { AnsweredStays(ledger, t.grant.value, m); }
  }

  lemma LedgerGrows(s: Scene, m: Move)
    requires LedgerOk(s) && (m.Grant? <==> m.driver !in s.holder)
    ensures Alternates(s.ledger + [m])
    ensures forall d :: Out(s.ledger + [m], d) <==> (if d == m.driver then m.Grant? else d in s.holder)
  {
    assert (s.ledger + [m])[..|s.ledger|] == s.ledger;
  }

  /** Everything about rides other than `r` survives a move of `r`'s driver. */
  lemma OthersKeep(s: Scene, s': Scene, r: nat, m: Move)
    requires RidesOk(s) && AllGoneOk(s) && HoldersOk(s)
    requires s'.ledger == s.ledger + [m]
    requires m.driver in s.holder ==> s.holder[m.driver] == r
    requires forall q :: q != r ==> (q in s'.rides <==> q in s.rides) && (q in s'.trace <==> q in s.trace)
    requires forall q :: q != r && q in s.rides ==> s'.rides[q] == s.rides[q]
    requires forall q :: q != r && q in s.trace ==> s'.trace[q] == s.trace[q]
    ensures forall q :: q != r && q in s'.rides ==> q in s'.trace && RideOk(s'.rides[q], s'.trace[q], s'.ledger)
    ensures forall q :: q != r && q in s'.trace && q !in s'.rides ==> GoneOk(s'.trace[q], s'.ledger)
  {
    forall q | q != r && q in s'.rides ensures q in s'.trace && RideOk(s'.rides[q], s'.trace[q], s'.ledger) {
      assert RideOk(s.rides[q], s.trace[q], s.ledger);
      QuietGrows(s.ledger, s.rides[q].driver, s.trace[q].grant, m);
    }
    forall q | q != r && q in s'.trace && q !in s'.rides ensures GoneOk(s'.trace[q], s'.ledger) {
      GoneStays(s.trace[q], s.ledger, m);
    }
  }

  // -------------------------------------------------------- the event's effect

  /** `r` fires its planned event: its trace is extended. */
  function Stamped(t: Trace, v: RideState): Trace
    requires v.nextEvent != None
  {
    t.(events := t.events + [Stamp(v.nextEvent.value, v.nextAtMs)])
  }

  lemma StampedPath(t: Trace, v: RideState, ledger: seq<Move>)
    requires RideOk(v, t, ledger)
    ensures LegalPath(Stamped(t, v).events)
    ensures LastStamp(Stamped(t, v).events) == Stamp(v.nextEvent.value, v.nextAtMs)
    ensures |Stamped(t, v).events| == |t.events| + 1
  {
    PathGrows(t.events, Stamp(v.nextEvent.value, v.nextAtMs));
  }

  /** Ride `r` emits its planned event and continues as `v`, with the driver it
      had, whose state becomes `x`. */
  ghost predicate Continues(s: Scene, r: nat, v: RideState, states: map<DriverId, DriverState>) {
    && r in s.rides && s.rides[r].nextEvent != None
    && v.state == s.rides[r].nextEvent && v.driver == s.rides[r].driver && v.driver != None
    && Scheduled(v, s.rides[r].nextAtMs)
    && states.Keys == s.states.Keys
    && (forall d :: d in s.states && Some(d) != v.driver ==> states[d] == s.states[d])
    && (v.driver.value in states ==> states[v.driver.value].status == JobStatus(v))
  }

  lemma ContinueKeeps(s: Scene, r: nat, v: RideState, states: map<DriverId, DriverState>)
    requires SceneOk(s) && Continues(s, r, v, states)
    ensures SceneOk(Scene(s.rides[r := v], s.trace[r := Stamped(s.trace[r], s.rides[r])], states, s.holder, s.ledger))
  {
    hide LegalPath, Out, Alternates, RideOk, GoneOk, HoldersOk;
    var s' := Scene(s.rides[r := v], s.trace[r := Stamped(s.trace[r], s.rides[r])], states, s.holder, s.ledger);
    ContinuerIsOk(s.rides[r], v, s.trace[r], s.ledger);
    ContinueHolders(s, s', r, v);
  }

  lemma ContinuerIsOk(u: RideState, v: RideState, t: Trace, ledger: seq<Move>)
    requires RideOk(u, t, ledger) && u.nextEvent != None
    requires v.state == u.nextEvent && v.driver == u.driver && v.driver != None && Scheduled(v, u.nextAtMs)
    ensures RideOk(v, Stamped(t, u), ledger)
  {
    hide LegalPath, OpenGrant;
    StampedPath(t, u, ledger);
  }

  lemma ContinueHolders(s: Scene, s': Scene, r: nat, v: RideState)
    requires HoldersOk(s) && Continues(s, r, v, s'.states)
    requires s'.rides == s.rides[r := v] && s'.holder == s.holder
    ensures HoldersOk(s')
  {
    forall d | d in s'.holder ensures Drives(s', s'.holder[d], d) {
      assert Drives(s, s.holder[d], d);
    }
    assert Drives(s, r, v.driver.value);
  }

  /** Driver `d`, idle or new, is granted to the requested ride `r`. */
  ghost predicate Grants(s: Scene, r: nat, d: DriverId, v: RideState, states: map<DriverId, DriverState>) {
    && r in s.rides && s.rides[r].nextEvent == Some(Matched)
    && v.state == Some(Matched) && v.driver == Some(d) && Scheduled(v, s.rides[r].nextAtMs)
    && (d in s.states ==> !Busy(s.states[d].status))
    && d in states && states == s.states[d := states[d]] && states[d].status == EnRoute
  }

  lemma GrantKeeps(s: Scene, r: nat, d: DriverId, v: RideState, states: map<DriverId, DriverState>)
    requires SceneOk(s) && Grants(s, r, d, v, states)
    ensures SceneOk(Scene(s.rides[r := v], s.trace[r := Stamped(s.trace[r], s.rides[r]).(grant := Some(|s.ledger|))],
                          states, s.holder[d := r], s.ledger + [Grant(d)]))
  {
    hide LegalPath, Out, Alternates, RideOk, GoneOk, HoldersOk;
    var t := Stamped(s.trace[r], s.rides[r]).(grant := Some(|s.ledger|));
    var s' := Scene(s.rides[r := v], s.trace[r := t], states, s.holder[d := r], s.ledger + [Grant(d)]);
    NotHeld(s, d);
    GrantedIsOk(s.rides[r], v, s.trace[r], s.ledger, d);
    LedgerGrows(s, Grant(d));
    OthersKeep(s, s', r, Grant(d));
    GrantHolders(s, s', r, d);
  }

  lemma GrantedIsOk(u: RideState, v: RideState, t: Trace, ledger: seq<Move>, d: DriverId)
    requires RideOk(u, t, ledger) && u.nextEvent == Some(Matched)
    requires v.state == Some(Matched) && v.driver == Some(d) && Scheduled(v, u.nextAtMs)
    ensures RideOk(v, Stamped(t, u).(grant := Some(|ledger|)), ledger + [Grant(d)])
    ensures u.driver == None
  {
    hide LegalPath;
    StampedPath(t, u, ledger);
  }

  lemma NotHeld(s: Scene, d: DriverId)
    requires HoldersOk(s) && (d in s.states ==> !Busy(s.states[d].status))
    ensures d !in s.holder
  {
    assert d in s.holder ==> Drives(s, s.holder[d], d);
  }

  lemma GrantHolders(s: Scene, s': Scene, r: nat, d: DriverId)
    requires HoldersOk(s) && d !in s.holder && r in s.rides && s.rides[r].driver == None
    requires r in s'.rides && s'.rides == s.rides[r := s'.rides[r]] && s'.rides[r].driver == Some(d)
    requires s'.rides[r].state == Some(Matched)
    requires d in s'.states && s'.states == s.states[d := s'.states[d]] && s'.states[d].status == EnRoute
    requires s'.holder == s.holder[d := r]
    ensures HoldersOk(s')
  {
    forall e | e in s'.holder ensures Drives(s', s'.holder[e], e) {
      if e != d { assert Drives(s, s.holder[e], e); }
    }
  }

  /** Ride `r` emits its planned event and leaves, giving its driver back. */
  ghost predicate Leaves(s: Scene, r: nat, d: DriverId, states: map<DriverId, DriverState>) {
    && r in s.rides && s.rides[r].nextEvent != None && s.rides[r].driver == Some(d)
    && (var k := s.rides[r].nextEvent.value; TerminalKind(k) || k == DriverArrived)
    && d in states && states == s.states[d := states[d]] && !Busy(states[d].status)
  }

  lemma LeaveKeeps(s: Scene, r: nat, d: DriverId, states: map<DriverId, DriverState>)
    requires SceneOk(s) && Leaves(s, r, d, states)
    ensures SceneOk(Scene(s.rides - {r}, s.trace[r := Stamped(s.trace[r], s.rides[r])], states, s.holder - {d},
                          s.ledger + [Return(d)]))
  {
    hide LegalPath, Out, Alternates, GoneOk, RideOk, HoldersOk;
    var s' := Scene(s.rides - {r}, s.trace[r := Stamped(s.trace[r], s.rides[r])], states, s.holder - {d},
                    s.ledger + [Return(d)]);
    LeaverIsGone(s, r, d);
    LeaveHolders(s, s', r, d);
    LedgerGrows(s, Return(d));
    OthersKeep(s, s', r, Return(d));
  }

  lemma LeaverIsGone(s: Scene, r: nat, d: DriverId)
    requires RidesOk(s) && r in s.rides && s.rides[r].nextEvent != None && s.rides[r].driver == Some(d)
    requires var k := s.rides[r].nextEvent.value; TerminalKind(k) || k == DriverArrived
    ensures GoneOk(Stamped(s.trace[r], s.rides[r]), s.ledger + [Return(d)])
  {
    hide LegalPath;
    assert RideOk(s.rides[r], s.trace[r], s.ledger);
    StampedPath(s.trace[r], s.rides[r], s.ledger);
    assert AnsweredAt(s.ledger + [Return(d)], s.trace[r].grant.value, |s.ledger|);
  }

  lemma LeaveHolders(s: Scene, s': Scene, r: nat, d: DriverId)
    requires HoldersOk(s) && r in s.rides && s.rides[r].driver == Some(d)
    requires s'.rides == s.rides - {r} && s'.holder == s.holder - {d}
    requires d in s'.states && s'.states == s.states[d := s'.states[d]] && !Busy(s'.states[d].status)
    ensures HoldersOk(s') && s.holder[d] == r && d in s.holder
  {
    forall e | e in s'.holder ensures Drives(s', s'.holder[e], e) {
      assert Drives(s, s.holder[e], e);
    }
  }

  /** Ride `r` is cancelled before it had a driver. */
  lemma LeaveUnmatchedKeeps(s: Scene, r: nat)
    requires SceneOk(s) && r in s.rides && s.rides[r].driver == None && s.rides[r].nextEvent == Some(Cancelled)
    ensures SceneOk(Scene(s.rides - {r}, s.trace[r := Stamped(s.trace[r], s.rides[r])], s.states, s.holder, s.ledger))
  {
    hide LegalPath, Out, Alternates, RideOk, GoneOk, HoldersOk;
    var s' := Scene(s.rides - {r}, s.trace[r := Stamped(s.trace[r], s.rides[r])], s.states, s.holder, s.ledger);
    UnmatchedIsGone(s.rides[r], s.trace[r], s.ledger);
    BriefHolders(s, s', r);
  }

  lemma UnmatchedIsGone(u: RideState, t: Trace, ledger: seq<Move>)
    requires RideOk(u, t, ledger) && u.driver == None && u.nextEvent == Some(Cancelled)
    ensures GoneOk(Stamped(t, u), ledger)
  {
    hide LegalPath;
    StampedPath(t, u, ledger);
    RequestedIsFirst(t.events);
  }

  /** A ride without a driver leaves the holders as they are. */
  lemma BriefHolders(s: Scene, s': Scene, r: nat)
    requires HoldersOk(s) && r in s.rides && s.rides[r].driver == None
    requires s'.rides == s.rides - {r} && s'.holder == s.holder
    requires s'.states.Keys >= s.states.Keys
    requires forall d :: d in s'.states ==>
               (d in s.states && s'.states[d] == s.states[d]) || (d !in s.holder && !Busy(s'.states[d].status))
    ensures HoldersOk(s')
  {
    forall e | e in s'.holder ensures Drives(s', s'.holder[e], e) {
      assert Drives(s, s.holder[e], e);
    }
  }

  lemma RequestedIsFirst(events: seq<Stamp>)
    requires LegalPath(events) && LastStamp(events).kind == Requested
    ensures |events| == 1
  {
  }

  /** Ride `r` is matched and abandoned at once: granted and given back. */
  lemma GrantAndReturnKeeps(s: Scene, r: nat, d: DriverId, states: map<DriverId, DriverState>)
    requires SceneOk(s) && r in s.rides && s.rides[r].nextEvent == Some(Matched)
    requires d in s.states ==> !Busy(s.states[d].status)
    requires d in states && states == s.states[d := states[d]] && !Busy(states[d].status)
    ensures SceneOk(Scene(s.rides - {r}, s.trace[r := Stamped(s.trace[r], s.rides[r]).(grant := Some(|s.ledger|))],
                          states, s.holder, s.ledger + [Grant(d)] + [Return(d)]))
  {
    hide LegalPath, Out, Alternates, GoneOk, RideOk, HoldersOk;
    var trace := s.trace[r := Stamped(s.trace[r], s.rides[r]).(grant := Some(|s.ledger|))];
    var mid := Scene(s.rides - {r}, trace, states, s.holder[d := r], s.ledger + [Grant(d)]);
    var s' := Scene(s.rides - {r}, trace, states, s.holder, s.ledger + [Grant(d)] + [Return(d)]);
    NotHeld(s, d);
    LedgerGrows(s, Grant(d));
    LedgerGrows(mid, Return(d));
    OthersKeep(s, mid, r, Grant(d));
    NobodyHas(s, d);
    OthersKeepAgain(mid, s', r, Return(d));
    BriefRideIsGone(s, r, d);
    BriefHolders(s, s', r);
  }

  lemma NobodyHas(s: Scene, d: DriverId)
    requires HoldersOk(s) && d !in s.holder
    ensures forall q :: q in s.rides ==> s.rides[q].driver != Some(d)
  {
  }

  lemma BriefRideIsGone(s: Scene, r: nat, d: DriverId)
    requires RidesOk(s) && r in s.rides && s.rides[r].nextEvent == Some(Matched)
    ensures GoneOk(Stamped(s.trace[r], s.rides[r]).(grant := Some(|s.ledger|)), s.ledger + [Grant(d)] + [Return(d)])
    ensures s.rides[r].driver == None
  {
    hide LegalPath;
    assert RideOk(s.rides[r], s.trace[r], s.ledger);
    StampedPath(s.trace[r], s.rides[r], s.ledger);
    assert AnsweredAt(s.ledger + [Grant(d)] + [Return(d)], |s.ledger|, |s.ledger| + 1);
  }

  lemma OthersKeepAgain(s: Scene, s': Scene, r: nat, m: Move)
    requires r !in s.rides && s'.rides == s.rides && s'.trace == s.trace && s'.ledger == s.ledger + [m]
    requires forall q :: q in s.rides ==>
               q in s.trace && RideOk(s.rides[q], s.trace[q], s.ledger) && s.rides[q].driver != Some(m.driver)
    requires forall q :: q != r && q in s.trace && q !in s.rides ==> GoneOk(s.trace[q], s.ledger)
    ensures RidesOk(s')
    ensures forall q :: q != r && q in s'.trace && q !in s'.rides ==> GoneOk(s'.trace[q], s'.ledger)
  {
    forall q | q in s'.rides ensures RideOk(s'.rides[q], s'.trace[q], s'.ledger) {
      QuietGrows(s.ledger, s.rides[q].driver, s.trace[q].grant, m);
    }
    forall q | q != r && q in s'.trace && q !in s'.rides ensures GoneOk(s'.trace[q], s'.ledger) {
      GoneStays(s.trace[q], s.ledger, m);
    }
  }

  // -------------------------------------------------------- spawning, ticking

  /** A new ride with its request emitted. */
  lemma SpawnKeeps(s: Scene, r: nat, v: RideState, at: int)
    requires SceneOk(s) && r !in s.trace && r !in s.rides
    requires v.state == Some(Requested) && v.driver == None && Scheduled(v, at)
    ensures SceneOk(s.(rides := s.rides[r := v], trace := s.trace[r := Trace([Stamp(Requested, at)], None)]))
  {
    hide LegalPath, Out, Alternates, GoneOk, RideOk, HoldersOk;
    NewRideOk(v, at, s.ledger);
    NewRideHolders(s, s.(rides := s.rides[r := v], trace := s.trace[r := Trace([Stamp(Requested, at)], None)]), r, v);
  }

  lemma NewRideOk(v: RideState, at: int, ledger: seq<Move>)
    requires v.state == Some(Requested) && v.driver == None && Scheduled(v, at)
    ensures RideOk(v, Trace([Stamp(Requested, at)], None), ledger)
  {
  }

  lemma NewRideHolders(s: Scene, s': Scene, r: nat, v: RideState)
    requires HoldersOk(s) && r !in s.rides && v.driver == None
    requires s'.rides == s.rides[r := v] && s'.states == s.states && s'.holder == s.holder
    ensures HoldersOk(s')
  {
    forall d | d in s'.holder ensures Drives(s', s'.holder[d], d) {
      assert Drives(s, s.holder[d], d);
    }
  }

  /** A fleet tick moves no driver into or out of a job. */
  lemma FleetTickKeeps(s: Scene, states: map<DriverId, DriverState>)
    requires SceneOk(s) && states.Keys == s.states.Keys
    requires forall d :: d in states ==>
               (Busy(s.states[d].status) ==> states[d].status == s.states[d].status)
               && (!Busy(s.states[d].status) ==> !Busy(states[d].status))
    ensures SceneOk(s.(states := states))
  {
    forall d | d in s.holder ensures Drives(s.(states := states), s.holder[d], d) {
      assert Drives(s, s.holder[d], d);
    }
  }

  lemma TickedKeeps(s: Scene, states: map<DriverId, DriverState>, pings: seq<Ping>, interval: int, nowMs: int)
    requires SceneOk(s) && states.Keys == s.states.Keys && interval > 0
    requires forall d :: d in states ==> Ticked(s.states[d], states[d], PingsOf(pings, d), interval, nowMs)
    ensures SceneOk(s.(states := states))
  {
    hide SceneOk, PingsOf, Beats;
    forall d | d in states
      ensures (Busy(s.states[d].status) ==> states[d].status == s.states[d].status)
              && (!Busy(s.states[d].status) ==> !Busy(states[d].status))
    {
      assert Ticked(s.states[d], states[d], PingsOf(pings, d), interval, nowMs);
    }
    FleetTickKeeps(s, states);
  }

  // ------------------------------------------------- the effect of an event

  /** `v` is `w` with `event` or a cancellation planned, not before `w`'s event. */
  ghost predicate Planned(w: RideState, v: RideState, event: Kind) {
    && v == w.(nextEvent := v.nextEvent, nextAtMs := v.nextAtMs)
    && (v.nextEvent == Some(event) || v.nextEvent == Some(Cancelled))
    && v.nextAtMs >= w.nextAtMs
  }

  ghost predicate Released(states: map<DriverId, DriverState>, states': map<DriverId, DriverState>,
                           ledger: seq<Move>, ledger': seq<Move>, d: DriverId) {
    && d in states' && states' == states[d := states'[d]] && states'[d].status == Idle
    && ledger' == ledger + [Return(d)]
  }

  /** What firing the planned event of `u` does to the ride and to the fleet. */
  ghost predicate Effect(u: RideState, v: RideState,
                         states: map<DriverId, DriverState>, states': map<DriverId, DriverState>,
                         ledger: seq<Move>, ledger': seq<Move>)
    requires u.nextEvent != None
  {
    EffectOf(u.nextEvent.value, u.(state := u.nextEvent, nextEvent := None), v, states, states', ledger, ledger')
  }

  /** What `event` does once the machine of ride `w` has taken it. */
  ghost predicate EffectOf(event: Kind, w: RideState, v: RideState, states: map<DriverId, DriverState>,
                           states': map<DriverId, DriverState>, ledger: seq<Move>, ledger': seq<Move>) {
    match event
    case Requested => false
    case Matched =>
      && v.driver != None && var d := v.driver.value;
      && (d in states ==> states[d].status == Idle)
      && d in states' && states' == states[d := states'[d]]
      && if w.stopAfter == Some(Matched) then
           v == w.(driver := Some(d)) && states'[d].status == Idle && ledger' == ledger + [Grant(d)] + [Return(d)]
         else
           && Planned(w.(driver := Some(d)), v, DriverArrived)
           && states'[d].status == EnRoute && ledger' == ledger + [Grant(d)]
    case DriverArrived =>
      if w.stopAfter == Some(DriverArrived) then
        v == w && w.driver != None && Released(states, states', ledger, ledger', w.driver.value)
      else Planned(w, v, Started) && states' == states && ledger' == ledger
    case Started =>
      && w.driver != None && w.driver.value in states && Planned(w, v, Completed) && ledger' == ledger
      && states' == states[w.driver.value := states[w.driver.value].(status := OnTrip)]
    case _ =>
      v == w && if w.driver == None then states' == states && ledger' == ledger
                else Released(states, states', ledger, ledger', w.driver.value)
  }

  /** The scene after ride `r` fired and became `v`; with no plan it has left. */
  function NextScene(s: Scene, r: nat, v: RideState, states: map<DriverId, DriverState>, ledger: seq<Move>): Scene
    requires r in s.rides && r in s.trace && s.rides[r].nextEvent != None
  {
    var t := Stamped(s.trace[r], s.rides[r]);
    var left := v.nextEvent == None;
    Scene(
      if left then s.rides - {r} else s.rides[r := v],
      s.trace[r := if s.rides[r].driver == None && v.driver != None then t.(grant := Some(|s.ledger|)) else t],
      states,
      if v.driver == None then s.holder
      else if left then s.holder - {v.driver.value} else s.holder[v.driver.value := r],
      ledger)
  }

  /** The event is in the trace, and the ride goes on with a later plan unless the
      event ended it. */
  ghost predicate Fired(before: Scene, after: Scene, r: nat) {
    && r in before.rides && before.rides[r].nextEvent != None && r in before.trace && r in after.trace
    && after.rides == (if r in after.rides then before.rides[r := after.rides[r]] else before.rides - {r})
    && after.trace == before.trace[r := after.trace[r]]
    && after.trace[r].events == Stamped(before.trace[r], before.rides[r]).events
    && (r in after.rides ==>
          && after.rides[r].nextAtMs >= before.rides[r].nextAtMs
          && Remaining(after.rides[r].state) < Remaining(before.rides[r].state))
    && (r !in after.rides <==>
          TerminalKind(before.rides[r].nextEvent.value) || before.rides[r].stopAfter == before.rides[r].nextEvent)
  }

  /** Every event the simulator fires keeps the scene. */
  lemma EffectKeeps(s: Scene, r: nat, v: RideState, states: map<DriverId, DriverState>, ledger: seq<Move>)
    requires SceneOk(s) && r in s.rides && s.rides[r].nextEvent != None && r in s.trace
    requires Effect(s.rides[r], v, s.states, states, s.ledger, ledger)
    ensures SceneOk(NextScene(s, r, v, states, ledger))
    ensures Fired(s, NextScene(s, r, v, states, ledger), r)
  {
    hide SceneOk;
    NeverStuck(s, r);
    EffectFires(s, r, v, states, ledger);
    var u := s.rides[r];
    match u.nextEvent.value
    case Matched =>
      var d := v.driver.value;
      FreeDriver(s, d);
      if u.stopAfter == Some(Matched) {
        GrantAndReturnKeeps(s, r, d, states);
        assert s.holder - {d} == s.holder;
      } else {
        GrantKeeps(s, r, d, v, states);
      }
    case DriverArrived =>
      if u.stopAfter == Some(DriverArrived) {
        LeaveKeeps(s, r, u.driver.value, states);
      } else {
        ContinueKeeps(s, r, v, states);
        assert s.holder[u.driver.value := r] == s.holder;
      }
    case Started =>
      ContinueKeeps(s, r, v, states);
      assert s.holder[u.driver.value := r] == s.holder;
    case Completed => LeaveKeeps(s, r, u.driver.value, states);
    case Cancelled =>
      if u.driver == None {
        LeaveUnmatchedKeeps(s, r);
      } else {
        LeaveKeeps(s, r, u.driver.value, states);
      }
  }

  lemma EffectFires(s: Scene, r: nat, v: RideState, states: map<DriverId, DriverState>, ledger: seq<Move>)
    requires r in s.rides && s.rides[r].state != None && s.rides[r].nextEvent != None && r in s.trace
    requires LegalEdge(s.rides[r].state.value, s.rides[r].nextEvent.value)
    requires s.rides[r].stopAfter in {None, Some(Matched), Some(DriverArrived)}
    requires Effect(s.rides[r], v, s.states, states, s.ledger, ledger)
    ensures Fired(s, NextScene(s, r, v, states, ledger), r)
  {
  }

  lemma FreeDriver(s: Scene, d: DriverId)
    requires SceneOk(s) && (d in s.states ==> s.states[d].status == Idle)
    ensures d !in s.holder
  {
    NotHeld(s, d);
  }
}
