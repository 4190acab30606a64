// What the session fold promises: it holds the last event of each kind, its
// order of arrival shows only through which terminal kind came first, and
// duplicates change nothing.
module FoldLaws {

  import opened Wrappers
  import opened Lifecycle
  import opened SessionFold

  // ------------------------------------------------------------ single slots

  lemma IndexOfUnique(s: Slots, k: Kind, i: nat)
    requires DistinctKinds(s)
    requires i < |s| && s[i].kind == k
    ensures IndexOf(s, k) == i
  {
  }

  lemma AddKeepsDistinct(s: Slots, e: RideEvent)
    requires DistinctKinds(s)
    ensures DistinctKinds(AddEvent(s, e))
  {
  }

  lemma AddSlot(s: Slots, e: RideEvent, k: Kind)
    requires DistinctKinds(s)
    ensures Slot(AddEvent(s, e), k) == if k == e.kind then Some(e) else Slot(s, k)
  {
    var t, i := AddEvent(s, e), IndexOf(s, k);
    AddKeepsDistinct(s, e);
    if k == e.kind || i < |s| {
      assert t[i].kind == k;
      IndexOfUnique(t, k, i);
    } else {
      assert forall j :: 0 <= j < |t| ==> t[j].kind != k;
    }
  }

  /** The last event of kind `k`, the one whose content the slot shows. */
  ghost function LastOfKind(events: seq<RideEvent>, k: Kind): Option<RideEvent> {
    if events == [] then None
    else
      var e := events[|events| - 1];
      if e.kind == k then Some(e) else LastOfKind(events[..|events| - 1], k)
  }

  lemma {:induction false} FoldSlot(events: seq<RideEvent>, k: Kind)
    ensures DistinctKinds(Fold(events))
    ensures Slot(Fold(events), k) == LastOfKind(events, k)
  {
    if events != [] {
      var front := events[..|events| - 1];
      FoldSlot(front, k);
      AddKeepsDistinct(Fold(front), events[|events| - 1]);
      AddSlot(Fold(front), events[|events| - 1], k);
    }
  }

  lemma {:induction false} LastOfKindIsThere(events: seq<RideEvent>, k: Kind)
    ensures match LastOfKind(events, k)
            case Some(e) => e in events && e.kind == k
            case None => forall e :: e in events ==> e.kind != k
  {
    if events != [] {
      var front, last := events[..|events| - 1], events[|events| - 1];
      assert events == front + [last];
      LastOfKindIsThere(front, k);
    }
  }

  lemma FoldHolds(events: seq<RideEvent>, e: RideEvent)
    requires e in Fold(events)
    ensures e in events
  {
    var s := Fold(events);
    var i :| 0 <= i < |s| && s[i] == e;
    FoldSlot(events, e.kind);
    IndexOfUnique(s, e.kind, i);
    LastOfKindIsThere(events, e.kind);
  }

  lemma FoldEmpty(events: seq<RideEvent>)
    ensures Fold(events) == [] <==> events == []
  {
  }

  // ---------------------------------------------------- what a session reads

  /** Two slot dictionaries that hold the same event for every kind. */
  ghost predicate SameSlots(s: Slots, t: Slots) {
    forall k: Kind :: Slot(s, k) == Slot(t, k)
  }

  lemma SlotPresent(s: Slots, e: RideEvent)
    requires DistinctKinds(s) && e in s
    ensures Slot(s, e.kind) == Some(e)
  {
    var i :| 0 <= i < |s| && s[i] == e;
    IndexOfUnique(s, e.kind, i);
  }

  lemma SameSlotsSameEvents(s: Slots, t: Slots)
    requires DistinctKinds(s) && DistinctKinds(t) && SameSlots(s, t)
    ensures forall e :: e in s <==> e in t
  {
    forall e | e in s ensures e in t { SlotPresent(s, e); assert Slot(t, e.kind) == Some(e); }
    forall e | e in t ensures e in s { SlotPresent(t, e); assert Slot(s, e.kind) == Some(e); }
  }

  lemma {:induction false} LastTsIsMax(s: Slots)
    requires s != []
    ensures exists e :: e in s && e.ts == LastTs(s)
    ensures forall e :: e in s ==> e.ts <= LastTs(s)
  {
    if |s| == 1 {
      assert s[0] in s;
    } else {
      LastTsIsMax(s[1..]);
      assert s == [s[0]] + s[1..];
      if s[0].ts < LastTs(s[1..]) {
        var e :| e in s[1..] && e.ts == LastTs(s[1..]);
        assert e in s;
      } else {
        assert s[0] in s;
      }
    }
  }

  ghost function EventSet(s: Slots): set<RideEvent> {
    set e | e in s
  }

  lemma {:induction false} DistinctCount(s: Slots)
    requires DistinctKinds(s)
    ensures |EventSet(s)| == |s|
  {
    if s != [] {
      var front, last := s[..|s| - 1], s[|s| - 1];
      DistinctCount(front);
      assert last !in front;
      assert EventSet(s) == EventSet(front) + {last} by {
        assert s == front + [last];
      }
    }
  }

  lemma SameSlotsSameLength(s: Slots, t: Slots)
    requires DistinctKinds(s) && DistinctKinds(t) && SameSlots(s, t)
    ensures |s| == |t|
  {
    SameSlotsSameEvents(s, t);
    DistinctCount(s);
    DistinctCount(t);
    assert EventSet(s) == EventSet(t);
  }

  lemma SameSlotsSameLastTs(s: Slots, t: Slots)
    requires DistinctKinds(s) && DistinctKinds(t) && SameSlots(s, t)
    ensures LastTs(s) == LastTs(t)
  {
    SameSlotsSameLength(s, t);
    SameSlotsSameEvents(s, t);
    if s != [] {
      LastTsIsMax(s);
      LastTsIsMax(t);
    }
  }

  lemma {:induction false} SameSlotsSameFirst<T>(s: Slots, t: Slots, field: RideEvent -> Option<T>, i: nat)
    requires i <= |KINDS| && SameSlots(s, t)
    ensures FirstFrom(s, field, i) == FirstFrom(t, field, i)
    decreases |KINDS| - i
  {
    if i < |KINDS| {
      SameSlotsSameFirst(s, t, field, i + 1);
      assert Slot(s, KINDS[i]) == Slot(t, KINDS[i]);
    }
  }

  /** A session reads only the slot contents and which terminal kind came first. */
  lemma SameSlotsSameSession(geo: Haversine, r: string, s: Slots, t: Slots, timeout: bool)
    requires DistinctKinds(s) && DistinctKinds(t) && SameSlots(s, t)
    requires TerminalOf(s) == TerminalOf(t)
    ensures Read(s) == Read(t)
    ensures BuildSession(geo, r, s, timeout) == BuildSession(geo, r, t, timeout)
  {
    SameSlotsSameLength(s, t);
    SameSlotsSameLastTs(s, t);
    SameSlotsSameFirst(s, t, RiderIdOf, 0);
    SameSlotsSameFirst(s, t, DriverIdOf, 0);
    SameSlotsSameFirst(s, t, CityIdOf, 0);
    SameSlotsSameFirst(s, t, PickupLatOf, 0);
    SameSlotsSameFirst(s, t, PickupLonOf, 0);
    SameSlotsSameFirst(s, t, DropoffLatOf, 0);
    SameSlotsSameFirst(s, t, DropoffLonOf, 0);
    SameSlotsSameFirst(s, t, SurgeOf, 0);
    SameSlotsSameFirst(s, t, PromoOf, 0);
    assert forall k :: TsOf(s, k) == TsOf(t, k) by {
      forall k ensures TsOf(s, k) == TsOf(t, k) { assert Slot(s, k) == Slot(t, k); }
    }
    assert Slot(s, Completed) == Slot(t, Completed);
  }

  // -------------------------------------------- order and duplicates are moot

  lemma {:induction false} TerminalOfIsThere(s: Slots)
    ensures match TerminalOf(s)
            case Some(k) => TerminalKind(k) && exists e :: e in s && e.kind == k
            case None => forall e :: e in s ==> !TerminalKind(e.kind)
  {
    if s != [] {
      TerminalOfIsThere(s[1..]);
      assert s == [s[0]] + s[1..];
      assert s[0] in s;
      match TerminalOf(s[1..])
      case None =>
      case Some(k) =>
        var e :| e in s[1..] && e.kind == k;
        assert e in s;
    }
  }

  /** Two events of one kind are copies of each other. */
  ghost predicate IdenticalDuplicates(events: seq<RideEvent>) {
    forall a, b :: a in events && b in events && a.kind == b.kind ==> a == b
  }

  ghost predicate HasKind(events: seq<RideEvent>, k: Kind) {
    exists e :: e in events && e.kind == k
  }

  ghost predicate BothTerminals(events: seq<RideEvent>) {
    HasKind(events, Completed) && HasKind(events, Cancelled)
  }

  /** `b` is some reordering of `a` with any repetitions and none missing. */
  ghost predicate Rearranged(a: seq<RideEvent>, b: seq<RideEvent>) {
    forall e :: e in a <==> e in b
  }

  lemma RearrangedSameSlots(a: seq<RideEvent>, b: seq<RideEvent>)
    requires IdenticalDuplicates(a) && Rearranged(a, b)
    ensures DistinctKinds(Fold(a)) && DistinctKinds(Fold(b)) && SameSlots(Fold(a), Fold(b))
  {
    forall k: Kind ensures Slot(Fold(a), k) == Slot(Fold(b), k)
    {
      FoldSlot(a, k);
      FoldSlot(b, k);
      LastOfKindIsThere(a, k);
      LastOfKindIsThere(b, k);
    }
    FoldSlot(a, Requested);
    FoldSlot(b, Requested);
  }

  /** Which terminal the fold shows, when at most one terminal kind arrived. */
  lemma TerminalOfFold(a: seq<RideEvent>)
    requires !BothTerminals(a)
    ensures TerminalOf(Fold(a)) ==
            if HasKind(a, Completed) then Some(Completed)
            else if HasKind(a, Cancelled) then Some(Cancelled)
            else None
  {
    var s := Fold(a);
    TerminalOfIsThere(s);
    forall k | TerminalKind(k) ensures HasKind(a, k) <==> exists e :: e in s && e.kind == k
    {
      FoldSlot(a, k);
      LastOfKindIsThere(a, k);
      if e :| e in s && e.kind == k { FoldHolds(a, e); }
    }
  }

  lemma {:induction false} FirstEventStaysFirst(events: seq<RideEvent>)
    requires events != []
    ensures Fold(events) != [] && Fold(events)[0].kind == events[0].kind
  {
    if |events| > 1 {
      FirstEventStaysFirst(events[..|events| - 1]);
    }
  }

  lemma PrependIsFirst(e: RideEvent, events: seq<RideEvent>)
    requires TerminalKind(e.kind)
    ensures TerminalOf(Fold([e] + events)) == Some(e.kind)
  {
    FirstEventStaysFirst([e] + events);
  }

  lemma FirstTerminalShows(geo: Haversine, r: string, s: Slots)
    requires TerminalOf(s) != None
    ensures BuildSession(geo, r, s, false) != None
    ensures BuildSession(geo, r, s, false).value.terminalState == ClosingOf(TerminalOf(s))
  {
  }

  lemma OneTerminalIgnoresOrder(geo: Haversine, r: string, a: seq<RideEvent>, b: seq<RideEvent>, timeout: bool)
    requires IdenticalDuplicates(a) && Rearranged(a, b) && !BothTerminals(a)
    ensures BuildSession(geo, r, Fold(b), timeout) == BuildSession(geo, r, Fold(a), timeout)
  {
    RearrangedSameSlots(a, b);
    TerminalOfFold(a);
    TerminalOfFold(b);
    SameSlotsSameSession(geo, r, Fold(a), Fold(b), timeout);
  }

  lemma BothTerminalsShowOrder(geo: Haversine, r: string, a: seq<RideEvent>)
    returns (b: seq<RideEvent>, c: seq<RideEvent>)
    requires BothTerminals(a)
    ensures Rearranged(a, b) && Rearranged(a, c)
    ensures BuildSession(geo, r, Fold(b), false) != BuildSession(geo, r, Fold(c), false)
  {
    var x :| x in a && x.kind == Completed;
    var y :| y in a && y.kind == Cancelled;
    b, c := [x] + a, [y] + a;
    PrependIsFirst(x, a);
    PrependIsFirst(y, a);
    FirstTerminalShows(geo, r, Fold(b));
    FirstTerminalShows(geo, r, Fold(c));
  }

  ghost predicate SameSessionAs(geo: Haversine, r: string, a: seq<RideEvent>, b: seq<RideEvent>, timeout: bool) {
    BuildSession(geo, r, Fold(b), timeout) == BuildSession(geo, r, Fold(a), timeout)
  }

  /** The session of a ride ignores the order and the repetition of its events
      exactly when at most one of the two terminal kinds is among them. */
  lemma OrderAndDuplicatesIgnored(geo: Haversine, r: string, a: seq<RideEvent>)
    requires IdenticalDuplicates(a)
    ensures (forall b, timeout :: Rearranged(a, b) ==> SameSessionAs(geo, r, a, b, timeout))
            <==> !BothTerminals(a)
  {
    if !BothTerminals(a) {
      forall b, timeout | Rearranged(a, b) ensures SameSessionAs(geo, r, a, b, timeout) {
        OneTerminalIgnoresOrder(geo, r, a, b, timeout);
      }
    } else {
      var b, c := BothTerminalsShowOrder(geo, r, a);
      assert !SameSessionAs(geo, r, a, b, false) || !SameSessionAs(geo, r, a, c, false);
    }
  }

  /** A record built from at least one event has its rider and its city, which
      the session schema and the sink's NOT NULL columns require. */
  lemma SessionHasRider(geo: Haversine, r: string, events: seq<RideEvent>, timeout: bool)
    requires events != [] && BuildSession(geo, r, Fold(events), timeout) != None
    ensures BuildSession(geo, r, Fold(events), timeout).value.riderId != None
    ensures BuildSession(geo, r, Fold(events), timeout).value.cityId != None
  {
    var s := Fold(events);
    FoldEmpty(events);
    FoldSlot(events, s[0].kind);
    SlotPresent(s, s[0]);
    var i: nat := EventSeq(s[0].kind) - 1;
    FirstFinds(s, RiderIdOf, 0, i);
    FirstFinds(s, CityIdOf, 0, i);
  }

  lemma {:induction false} FirstFinds<T>(s: Slots, field: RideEvent -> Option<T>, i: nat, at: nat)
    requires i <= at < |KINDS|
    requires Slot(s, KINDS[at]) != None
    requires forall e :: field(e) != None
    ensures FirstFrom(s, field, i) != None
    decreases at - i
  {
    if i < at {
      FirstFinds(s, field, i + 1, at);
    }
  }

  // ------------------------------------------------- what the columns stand for

  /** The time of the event that stands for kind `k`. */
  ghost function TimeOf(events: seq<RideEvent>, k: Kind): Option<int> {
    match LastOfKind(events, k)
    case None => None
    case Some(e) => Some(e.ts)
  }

  /** Seconds from one moment to another, not below zero. */
  ghost function SecondsBetween(from: Option<int>, to: Option<int>): Option<real> {
    if from == None || to == None then None
    else if to.value < from.value then Some(0.0)
    else Some((to.value - from.value) as real / 1000.0)
  }

  ghost function Kinds(events: seq<RideEvent>): set<Kind> {
    set e | e in events :: e.kind
  }

  lemma {:induction false} DistinctKindCount(s: Slots)
    requires DistinctKinds(s)
    ensures |Kinds(s)| == |s|
  {
    if s != [] {
      var front, last := s[..|s| - 1], s[|s| - 1];
      DistinctKindCount(front);
      assert Kinds(s) == Kinds(front) + {last.kind} by { assert s == front + [last]; }
    }
  }

  lemma FoldKinds(events: seq<RideEvent>)
    ensures |Fold(events)| == |Kinds(events)|
  {
    FoldSlot(events, Requested);
    DistinctKindCount(Fold(events));
    forall k ensures k in Kinds(Fold(events)) <==> k in Kinds(events) {
      FoldSlot(events, k);
      LastOfKindIsThere(events, k);
      if k in Kinds(Fold(events)) {
        var e :| e in Fold(events) && e.kind == k;
        FoldHolds(events, e);
      }
    }
    assert Kinds(Fold(events)) == Kinds(events);
  }

  lemma TsOfFold(events: seq<RideEvent>, k: Kind)
    ensures TsOf(Fold(events), k) == TimeOf(events, k)
  {
    FoldSlot(events, k);
  }

  lemma SecondsAre(a: Option<int>, b: Option<int>)
    ensures DiffSec(a, b) == SecondsBetween(b, a)
  {
  }

  /** The latest time among the events that stand for the kinds from the `i`-th on. */
  ghost function LatestFrom(events: seq<RideEvent>, i: nat): Option<int>
    requires i <= |KINDS|
    decreases |KINDS| - i
  {
    if i == |KINDS| then None
    else
      match (TimeOf(events, KINDS[i]), LatestFrom(events, i + 1))
      case (None, later) => later
      case (Some(t), None) => Some(t)
      case (Some(t), Some(later)) => Some(Max(t, later))
  }

  /** When a ride counts as requested: at its request, or else at its latest event. */
  ghost function RequestTime(events: seq<RideEvent>): int {
    match TimeOf(events, Requested)
    case Some(t) => t
    case None => LatestFrom(events, 0).GetOr(0)
  }

  lemma {:induction false} LatestIsMax(events: seq<RideEvent>, i: nat)
    requires i <= |KINDS|
    ensures forall j :: i <= j < |KINDS| && TimeOf(events, KINDS[j]) != None ==>
              LatestFrom(events, i) != None && TimeOf(events, KINDS[j]).value <= LatestFrom(events, i).value
    ensures LatestFrom(events, i) != None ==>
              exists j :: i <= j < |KINDS| && TimeOf(events, KINDS[j]) == LatestFrom(events, i)
    decreases |KINDS| - i
  {
    hide TimeOf;
    if i < |KINDS| {
      LatestIsMax(events, i + 1);
      if LatestFrom(events, i) != None && LatestFrom(events, i) != TimeOf(events, KINDS[i]) {
        var j :| i + 1 <= j < |KINDS| && TimeOf(events, KINDS[j]) == LatestFrom(events, i + 1);
        assert TimeOf(events, KINDS[j]) == LatestFrom(events, i);
      }
    }
  }

  lemma KindsAreListed(k: Kind) returns (j: nat)
    ensures j < |KINDS| && KINDS[j] == k
  {
    j := EventSeq(k) - 1;
  }

  /** The slots' last time is the latest of the standing events. */
  lemma LastTsIsLatest(events: seq<RideEvent>)
    ensures LastTs(Fold(events)) == LatestFrom(events, 0).GetOr(0)
  {
    hide Fold, LatestFrom, TimeOf;
    var s := Fold(events);
    LatestIsMax(events, 0);
    FoldSlot(events, Requested);
    if s == [] {
      forall j | 0 <= j < |KINDS| ensures TimeOf(events, KINDS[j]) == None { TsOfFold(events, KINDS[j]); }
    } else {
      LastTsIsMax(s);
      var e :| e in s && e.ts == LastTs(s);
      SlotPresent(s, e);
      TsOfFold(events, e.kind);
      var j := KindsAreListed(e.kind);
      assert TimeOf(events, KINDS[j]) == Some(e.ts);
      var i :| 0 <= i < |KINDS| && TimeOf(events, KINDS[i]) == LatestFrom(events, 0);
      TsOfFold(events, KINDS[i]);
      SlotIsThere(s, KINDS[i]);
    }
  }

  lemma SlotIsThere(s: Slots, k: Kind)
    ensures Slot(s, k) != None ==> Slot(s, k).value in s
  {
  }

  /** The columns of a derived session, in terms of the ride's events alone. */
  lemma SessionColumns(geo: Haversine, r: string, events: seq<RideEvent>, timeout: bool)
    requires BuildSession(geo, r, Fold(events), timeout) != None
    ensures var s := BuildSession(geo, r, Fold(events), timeout).value;
            && s.rideId == r && s.eventSeq == |Kinds(events)|
            && s.requestedTs == RequestTime(events)
            && s.matchedTs == TimeOf(events, Matched)
            && s.driverArrivedTs == TimeOf(events, DriverArrived)
            && s.startedTs == TimeOf(events, Started)
            && s.timeToMatchSec == SecondsBetween(TimeOf(events, Requested), TimeOf(events, Matched))
            && s.timeToPickupSec == SecondsBetween(TimeOf(events, Matched), TimeOf(events, DriverArrived))
            && (s.isLateArrival <==> s.timeToPickupSec != None && s.timeToPickupSec.value > 600.0)
            && s.fareCents == (match LastOfKind(events, Completed) case None => None case Some(e) => e.fareCents)
  {
    hide First, TerminalOf, LastTs, Fold, LastOfKind, LatestFrom;
    var slots := Fold(events);
    FoldKinds(events);
    FoldSlot(events, Completed);
    LastTsIsLatest(events);
    TsOfFold(events, Requested);
    TsOfFold(events, Matched);
    TsOfFold(events, DriverArrived);
    TsOfFold(events, Started);
    SecondsAre(TsOf(slots, Matched), TsOf(slots, Requested));
    SecondsAre(TsOf(slots, DriverArrived), TsOf(slots, Matched));
  }

  /** How the session closes, in terms of the events: completed rides have an end
      and a duration, cancelled ones an end, abandoned ones neither terminal kind. */
  lemma SessionClosing(geo: Haversine, r: string, events: seq<RideEvent>, timeout: bool)
    requires BuildSession(geo, r, Fold(events), timeout) != None
    ensures var s := BuildSession(geo, r, Fold(events), timeout).value;
            match s.terminalState
            case AsCompleted =>
              && HasKind(events, Completed) && s.endedTs == TimeOf(events, Completed)
              && s.rideDurationSec == SecondsBetween(TimeOf(events, Started), TimeOf(events, Completed))
            case AsCancelled =>
              HasKind(events, Cancelled) && s.endedTs == TimeOf(events, Cancelled) && s.rideDurationSec == None
            case AsAbandoned =>
              && timeout && !HasKind(events, Completed) && !HasKind(events, Cancelled)
              && s.endedTs == None && s.rideDurationSec == None
  {
    hide First, LastTs, LastOfKind, Fold;
    var slots := Fold(events);
    TerminalOfIsThere(slots);
    KindInFold(events, Completed);
    KindInFold(events, Cancelled);
    TsOfFold(events, Started);
    TsOfFold(events, Completed);
    TsOfFold(events, Cancelled);
    SecondsAre(TsOf(slots, Completed), TsOf(slots, Started));
  }

  lemma KindInFold(events: seq<RideEvent>, k: Kind)
    ensures HasKind(events, k) <==> HasKind(Fold(events), k)
  {
    FoldSlot(events, k);
    LastOfKindIsThere(events, k);
    if e :| e in Fold(events) && e.kind == k { FoldHolds(events, e); }
  }

  /** The field of the event that stands for kind `k`. */
  ghost function FieldOf<T>(events: seq<RideEvent>, field: RideEvent -> Option<T>, k: Kind): Option<T> {
    match LastOfKind(events, k)
    case Some(e) => field(e)
    case None => None
  }

  function Else<T>(a: Option<T>, b: Option<T>): Option<T> {
    if a != None then a else b
  }

  /** The field of the event that stands for the earliest lifecycle kind carrying it. */
  ghost function Leading<T>(events: seq<RideEvent>, field: RideEvent -> Option<T>): Option<T> {
    Else(FieldOf(events, field, Requested),
         Else(FieldOf(events, field, Matched),
              Else(FieldOf(events, field, DriverArrived),
                   Else(FieldOf(events, field, Started),
                        Else(FieldOf(events, field, Completed), FieldOf(events, field, Cancelled))))))
  }

  lemma FirstFromStep<T>(events: seq<RideEvent>, field: RideEvent -> Option<T>, i: nat)
    requires i < |KINDS|
    ensures FirstFrom(Fold(events), field, i) ==
            Else(FieldOf(events, field, KINDS[i]), FirstFrom(Fold(events), field, i + 1))
  {
    FoldSlot(events, KINDS[i]);
  }

  /** The search over the slots finds the leading field. */
  lemma FirstIsLeading<T>(events: seq<RideEvent>, field: RideEvent -> Option<T>)
    ensures First(Fold(events), field) == Leading(events, field)
  {
    hide FirstFrom, FieldOf, Fold;
    FirstFromStep(events, field, 0);
    FirstFromStep(events, field, 1);
    FirstFromStep(events, field, 2);
    FirstFromStep(events, field, 3);
    FirstFromStep(events, field, 4);
    FirstFromStep(events, field, 5);
    NothingAfterAll(Fold(events), field);
    assert Else(FieldOf(events, field, Cancelled), None) == FieldOf(events, field, Cancelled);
  }

  lemma NothingAfterAll<T>(s: Slots, field: RideEvent -> Option<T>)
    ensures FirstFrom(s, field, 6) == None
  {
  }

  /** The order of the lifecycle, kind by kind. */
  predicate Precedes(a: Kind, b: Kind) {
    match b
    case Requested => false
    case Matched => a == Requested
    case DriverArrived => a == Requested || a == Matched
    case Started => a == Requested || a == Matched || a == DriverArrived
    case Completed => a == Requested || a == Matched || a == DriverArrived || a == Started
    case Cancelled => a != Cancelled
  }

  /** The ordinals are 1 to 6 in that order. */
  lemma OrdinalsFollow(a: Kind, b: Kind)
    ensures Precedes(a, b) <==> EventSeq(a) < EventSeq(b)
    ensures 1 <= EventSeq(a) <= 6
  {
  }

  /** Kind `k` carries the field as `v`, and no kind before it carries it at all. */
  ghost predicate LeadsWith<T>(events: seq<RideEvent>, field: RideEvent -> Option<T>, k: Kind, v: T) {
    FieldOf(events, field, k) == Some(v) && forall j :: Precedes(j, k) ==> FieldOf(events, field, j) == None
  }

  /** A field read from the slots is that of the earliest kind in the lifecycle whose
      last event carries it, and is missing exactly when no kind's last event does. */
  lemma EarliestKindLeads<T(!new)>(events: seq<RideEvent>, field: RideEvent -> Option<T>)
    ensures forall v :: First(Fold(events), field) == Some(v) <==> exists k :: LeadsWith(events, field, k, v)
    ensures First(Fold(events), field) == None <==> forall k: Kind :: FieldOf(events, field, k) == None
  {
    hide First, Fold, FieldOf;
    FirstIsLeading(events, field);
    if Leading(events, field) != None {
      var k := if FieldOf(events, field, Requested) != None then Requested
      else if FieldOf(events, field, Matched) != None then Matched
      else if FieldOf(events, field, DriverArrived) != None then DriverArrived
      else if FieldOf(events, field, Started) != None then Started
      else if FieldOf(events, field, Completed) != None then Completed
      else Cancelled;
      assert LeadsWith(events, field, k, Leading(events, field).value);
      forall j, x | LeadsWith(events, field, j, x) ensures j == k && x == Leading(events, field).value {
        Comparable(j, k);
      }
    } else {
      forall k: Kind ensures FieldOf(events, field, k) == None {
        match k
        case Requested =>
        case Matched =>
        case DriverArrived =>
        case Started =>
        case Completed =>
        case Cancelled =>
      }
    }
  }

  lemma Comparable(a: Kind, b: Kind)
    ensures Precedes(a, b) || Precedes(b, a) || a == b
  {
  }

  /** A leading field is carried by some event, and is absent when no kind carries it. */
  lemma LeadingIsCarried<T>(events: seq<RideEvent>, field: RideEvent -> Option<T>)
    ensures Leading(events, field) != None ==> exists e :: e in events && field(e) == Leading(events, field)
    ensures Leading(events, field) == None ==> forall k: Kind :: FieldOf(events, field, k) == None
  {
    forall k: Kind
      ensures FieldOf(events, field, k) != None ==> exists e :: e in events && field(e) == FieldOf(events, field, k)
    {
      LastOfKindIsThere(events, k);
    }
    hide FieldOf;
  }

  /** Which column each field is. */
  ghost predicate FieldsAreColumns(e: RideEvent) {
    && RiderIdOf(e) == Some(e.riderId) && DriverIdOf(e) == e.driverId && CityIdOf(e) == Some(e.cityId)
    && PickupLatOf(e) == Some(e.pickupLat) && PickupLonOf(e) == Some(e.pickupLon)
    && DropoffLatOf(e) == e.dropoffLat && DropoffLonOf(e) == e.dropoffLon
    && SurgeOf(e) == Some(e.surge) && PromoOf(e) == e.promoCode
  }

  /** A surge of zero counts as none, and none as 1. */
  function ShownSurge(surge: Option<real>): real {
    if surge == None || surge == Some(0.0) then 1.0 else surge.value
  }

  /** The other columns: each nullable one is a leading field; pickup and surge have
      defaults; distance comes from the four coordinates; there is a speed exactly with
      a distance and a positive duration, and speed times duration is distance. */
  lemma SessionFields(geo: Haversine, r: string, events: seq<RideEvent>, timeout: bool)
    requires BuildSession(geo, r, Fold(events), timeout) != None
    ensures var s := BuildSession(geo, r, Fold(events), timeout).value;
            && s.riderId == Leading(events, RiderIdOf) && s.driverId == Leading(events, DriverIdOf)
            && s.cityId == Leading(events, CityIdOf) && s.promoCode == Leading(events, PromoOf)
            && s.dropoffLat == Leading(events, DropoffLatOf) && s.dropoffLon == Leading(events, DropoffLonOf)
            && s.pickupLat == Leading(events, PickupLatOf).GetOr(0.0)
            && s.pickupLon == Leading(events, PickupLonOf).GetOr(0.0)
            && s.surge == ShownSurge(Leading(events, SurgeOf))
            && s.distanceKm ==
               (if events == [] || s.dropoffLat == None || s.dropoffLon == None then None
                else Some(geo(s.pickupLat, s.pickupLon, s.dropoffLat.value, s.dropoffLon.value)))
            && (s.avgSpeedKmh != None <==>
                  s.distanceKm != None && s.rideDurationSec != None && s.rideDurationSec.value > 0.0)
            && (s.avgSpeedKmh != None ==>
                  s.avgSpeedKmh.value * s.rideDurationSec.value == s.distanceKm.value * 3600.0)
    ensures forall e :: FieldsAreColumns(e)
  {
    hide FirstFrom, FieldOf, TsOf, TerminalOf, LastTs, FareOf, Fold;
    FirstIsLeading(events, RiderIdOf);
    FirstIsLeading(events, DriverIdOf);
    FirstIsLeading(events, CityIdOf);
    FirstIsLeading(events, PromoOf);
    FirstIsLeading(events, SurgeOf);
    FirstIsLeading(events, PickupLatOf);
    FirstIsLeading(events, PickupLonOf);
    FirstIsLeading(events, DropoffLatOf);
    FirstIsLeading(events, DropoffLonOf);
    PickupIsKnown(events);
  }

  lemma PickupIsKnown(events: seq<RideEvent>)
    ensures First(Fold(events), PickupLatOf) != None <==> events != []
    ensures First(Fold(events), PickupLonOf) != None <==> events != []
  {
    if events == [] {
      NoSlotNoField(PickupLatOf, 0);
      NoSlotNoField(PickupLonOf, 0);
    } else {
      var s := Fold(events);
      FoldEmpty(events);
      FoldSlot(events, s[0].kind);
      SlotPresent(s, s[0]);
      FirstFinds(s, PickupLatOf, 0, EventSeq(s[0].kind) - 1);
      FirstFinds(s, PickupLonOf, 0, EventSeq(s[0].kind) - 1);
    }
  }

  lemma {:induction false} NoSlotNoField<T>(field: RideEvent -> Option<T>, i: nat)
    requires i <= |KINDS|
    ensures FirstFrom([], field, i) == None
    decreases |KINDS| - i
  {
    if i < |KINDS| {
      NoSlotNoField(field, i + 1);
    }
  }
}
