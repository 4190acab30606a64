// What the sink's refinement gives: re-applied messages are invisible, and
// re-derived sessions of a ride converge whatever order they arrive in.
module SinkGuarantees {

  import opened Wrappers
  import opened Lifecycle
  import opened SessionFold
  import opened FoldLaws
  import opened PgSink
  import opened SinkProtocol
  import opened SinkTables

  // ----------------------------------------------------------------- replays

  /** `m` is a message of the log below its partition's stored offset. */
  ghost predicate AlreadyApplied(w: SinkWorld, m: Message) {
    && m.Record? && m.offset < NextToRead(w.db, m.tp) && m.offset < |PartOf(w.log, m.tp)|
    && m.value == PartOf(w.log, m.tp)[m.offset]
  }

  lemma {:induction false} KeyWasSeen(l: seq<Value>, p: nat, i: nat, n: nat)
    requires i < n <= |l|
    ensures l[i].EventValue? ==> FirstEvent(l, p, EventKey(EventRow(l[i].event, p, i)), n) != None
    ensures l[i].PaymentValue? ==> FirstPayment(l, l[i].payment.txnId, n) != None
    ensures l[i].LocationValue? ==> FirstLocation(l, LocationKey(l[i].location), n) != None
  {
    if i < n - 1 {
      KeyWasSeen(l, p, i, n - 1);
    }
  }

  lemma {:induction false} RichestIsRichest(l: seq<Value>, i: nat, n: nat)
    requires i < n <= |l| && l[i].SessionValue?
    ensures RichestSession(l, l[i].session.rideId, n) != None
    ensures RichestSession(l, l[i].session.rideId, n).value.eventSeq >= l[i].session.eventSeq
  {
    if i < n - 1 {
      RichestIsRichest(l, i, n - 1);
    }
  }

  lemma ReplayOne(h: Homes, w: SinkWorld, m: Message)
    requires SinkInv(h, w) && AlreadyApplied(w, m)
    ensures RowAllowed(w.db, m) && ApplyRow(w.db, m) == w.db
  {
    var l, n := PartOf(w.log, m.tp), NextToRead(w.db, m.tp);
    assert AtHome(h, m.tp, l[m.offset]);
    assert AllAllowed(l, n);
    KeyWasSeen(l, m.tp.1, m.offset, n);
    assert Advance(w.db.offsets, m.tp, m.offset) == w.db.offsets;
    match m.value
    case EventValue(e) =>
      var row := EventRow(e, m.tp.1, m.offset);
      assert EventRefines(h, w.log, w.db, EventKey(row));
    case SessionValue(s) =>
      RichestIsRichest(l, m.offset, n);
      assert SessionRefines(h, w.log, w.db, s.rideId);
    case PaymentValue(p) =>
      assert PaymentRefines(h, w.log, w.db, p.txnId);
    case LocationValue(x) =>
      assert LocationRefines(h, w.log, w.db, LocationKey(x));
    case Undecodable =>
  }

  /** Any already applied messages, in any order and multiplicity, are accepted
      and change neither tables nor stored offsets. */
  lemma {:induction false} ReplaysAreInvisible(h: Homes, w: SinkWorld, msgs: seq<Message>)
    requires SinkReachable(h, w)
    requires forall m :: m in msgs ==> AlreadyApplied(w, m)
    ensures ApplyAll(w.db, msgs) == Some(w.db)
  {
    if msgs != [] {
      var front, m := msgs[..|msgs| - 1], msgs[|msgs| - 1];
      assert msgs == front + [m];
      ReplaysAreInvisible(h, w, front);
      SinkRefinement(h, w);
      ReplayOne(h, w, m);
    }
  }

  // ------------------------------------------------------------ convergence

  /** The session that the ride's first `c` events derive. */
  function DerivedSession(geo: Haversine, r: string, events: seq<RideEvent>, c: nat): Session
    requires c <= |events|
  {
    Derive(geo, r, Read(Fold(events[..c])))
  }

  /** A session derived from some non-empty prefix of the ride's events, of
      length at most `cut`. */
  ghost predicate Rederived(geo: Haversine, r: string, events: seq<RideEvent>, cut: nat, s: Session) {
    exists c: nat :: DerivedFrom(geo, r, events, cut, s, c)
  }

  ghost predicate DerivedFrom(geo: Haversine, r: string, events: seq<RideEvent>, cut: nat, s: Session, c: nat) {
    0 < c <= cut && c <= |events| && s == DerivedSession(geo, r, events, c)
  }

  /** With identical duplicates a longer prefix only appends slots. */
  lemma {:induction false} PrefixFoldsGrow(events: seq<RideEvent>, c: nat, d: nat)
    requires IdenticalDuplicates(events) && c <= d <= |events|
    ensures Fold(events[..c]) <= Fold(events[..d])
  {
    if c < d {
      hide AddEvent;
      PrefixFoldsGrow(events, c, d - 1);
      assert events[..d] == events[..d - 1] + [events[d - 1]];
      assert events[..d][..d - 1] == events[..d - 1];
      CopyChangesNothing(events[..d - 1], events[d - 1]);
      hide IdenticalDuplicates, Fold;
    }
  }

  lemma CopyChangesNothing(front: seq<RideEvent>, e: RideEvent)
    requires IdenticalDuplicates(front + [e])
    ensures Fold(front) <= AddEvent(Fold(front), e)
  {
    FoldSlot(front, e.kind);
    LastOfKindIsThere(front, e.kind);
    hide Fold, LastOfKind;
    var s, i := Fold(front), IndexOf(Fold(front), e.kind);
    if i < |s| {
      assert Slot(s, e.kind) == Some(s[i]);
      assert s[i] in front + [e] && e in front + [e];
      assert s[i := e] == s;
    }
  }

  /** A prefix as rich as the longest derives the same session. */
  lemma RicherIsLonger(geo: Haversine, r: string, events: seq<RideEvent>, cut: nat, s: Session)
    requires IdenticalDuplicates(events) && cut <= |events| && Rederived(geo, r, events, cut, s)
    ensures var longest := DerivedSession(geo, r, events, cut);
            s.eventSeq <= longest.eventSeq && (s.eventSeq == longest.eventSeq ==> s == longest)
  {
    hide DerivedSession, Fold;
    var c: nat :| DerivedFrom(geo, r, events, cut, s, c);
    PrefixFoldsGrow(events, c, cut);
    SeqIsCount(geo, r, events, c);
    SeqIsCount(geo, r, events, cut);
    SameFoldSameSession(geo, r, events, c, cut);
  }

  /** `event_seq` counts the distinct kinds folded. */
  lemma SeqIsCount(geo: Haversine, r: string, events: seq<RideEvent>, c: nat)
    requires c <= |events|
    ensures DerivedSession(geo, r, events, c).eventSeq == |Fold(events[..c])|
    ensures DerivedSession(geo, r, events, c).rideId == r
  {
    hide First, TsOf, TerminalOf, LastTs, Fold;
  }

  lemma SameFoldSameSession(geo: Haversine, r: string, events: seq<RideEvent>, c: nat, d: nat)
    requires c <= |events| && d <= |events|
    ensures Fold(events[..c]) == Fold(events[..d]) ==>
              DerivedSession(geo, r, events, c) == DerivedSession(geo, r, events, d)
  {
    hide Derive, Read, Fold;
  }

  lemma ListedTwice(a: Session, b: Session, c: Session)
    ensures WithListed(WithListed(a, b), c) == WithListed(a, c)
    ensures WithListed(a, WithListed(b, c)) == WithListed(a, c)
    ensures WithListed(a, a) == a
    ensures WithListed(a, b).eventSeq == b.eventSeq
  {
  }

  /** The first session of ride `r` on the partition. */
  function FirstSession(l: seq<Value>, r: string, n: nat): Option<Session>
    requires n <= |l|
  {
    if n == 0 then None
    else
      match FirstSession(l, r, n - 1)
      case Some(s) => Some(s)
      case None => if l[n - 1].SessionValue? && l[n - 1].session.rideId == r then Some(l[n - 1].session) else None
  }

  /** Sessions of one ride built from prefixes of one log: whatever order they
      arrive in, the listed columns end as those of the longest prefix, and the
      columns the UPDATE does not list stay those of the first arrival. */
  lemma {:induction false} RederivationsConverge(
    geo: Haversine, r: string, events: seq<RideEvent>, cut: nat, l: seq<Value>, n: nat)
    requires IdenticalDuplicates(events) && cut <= |events| && n <= |l|
    requires forall i :: 0 <= i < n && l[i].SessionValue? && l[i].session.rideId == r ==>
               Rederived(geo, r, events, cut, l[i].session)
    requires exists i :: 0 <= i < n && l[i] == SessionValue(DerivedSession(geo, r, events, cut))
    ensures FirstSession(l, r, n) != None
    ensures RichestSession(l, r, n) ==
            Some(WithListed(FirstSession(l, r, n).value, DerivedSession(geo, r, events, cut)))
  {
    hide DerivedSession;
    var longest := DerivedSession(geo, r, events, cut);
    var i :| 0 <= i < n && l[i] == SessionValue(longest);
    SeqIsCount(geo, r, events, cut);
    ConvergedSoFar(geo, r, events, cut, l, n);
    RichestIsRichest(l, i, n);
  }

  /** The row is always the first arrival with the listed columns of one of the
      sessions that arrived. */
  lemma {:induction false} ConvergedSoFar(
    geo: Haversine, r: string, events: seq<RideEvent>, cut: nat, l: seq<Value>, n: nat)
    requires IdenticalDuplicates(events) && cut <= |events| && n <= |l|
    requires forall i :: 0 <= i < n && l[i].SessionValue? && l[i].session.rideId == r ==>
               Rederived(geo, r, events, cut, l[i].session)
    ensures FirstSession(l, r, n) == None <==> RichestSession(l, r, n) == None
    ensures FirstSession(l, r, n) != None ==>
              var row, longest := RichestSession(l, r, n).value, DerivedSession(geo, r, events, cut);
              && row.eventSeq <= longest.eventSeq
              && (row.eventSeq == longest.eventSeq ==> row == WithListed(FirstSession(l, r, n).value, longest))
              && row == WithListed(FirstSession(l, r, n).value, row)
  {
    hide DerivedSession, Rederived, WithListed;
    if n > 0 {
      ConvergedSoFar(geo, r, events, cut, l, n - 1);
      var v := l[n - 1];
      if v.SessionValue? && v.session.rideId == r {
        RicherIsLonger(geo, r, events, cut, v.session);
        var first := FirstSession(l, r, n).value;
        ListedTwice(first, first, v.session);
        ListedTwice(v.session, v.session, v.session);
        if RichestSession(l, r, n - 1) != None {
          var row := RichestSession(l, r, n - 1).value;
          ListedTwice(first, row, v.session);
          ListedTwice(row, v.session, v.session);
        }
      }
    }
  }

  // ------------------------------------------------------- the whole row

  /** The row equals the longest derivation when the unlisted columns do. */
  lemma UnlistedDecide(a: Session, b: Session)
    ensures WithListed(a, b) == b <==> OthersFrom(a, b)
  {
  }

  ghost predicate HoldsKind(some: seq<RideEvent>, all: seq<RideEvent>, k: Kind) {
    HasKind(all, k) ==> HasKind(some, k)
  }

  ghost predicate SameLead<T>(some: seq<RideEvent>, all: seq<RideEvent>, field: RideEvent -> Option<T>) {
    Leading(some, field) == Leading(all, field)
  }

  /** What the events of the first arrival must already have held: every middle kind of
      the longest prefix, the time of the request, and each leading field. */
  ghost predicate HeldEnough(some: seq<RideEvent>, all: seq<RideEvent>) {
    && HoldsKind(some, all, Matched) && HoldsKind(some, all, DriverArrived) && HoldsKind(some, all, Started)
    && RequestTime(some) == RequestTime(all)
    && SameLead(some, all, RiderIdOf) && SameLead(some, all, DriverIdOf) && SameLead(some, all, CityIdOf)
    && SameLead(some, all, PickupLatOf) && SameLead(some, all, PickupLonOf)
    && SameLead(some, all, DropoffLatOf) && SameLead(some, all, DropoffLonOf)
    && ShownSurge(Leading(some, SurgeOf)) == ShownSurge(Leading(all, SurgeOf))
  }

  lemma PrefixTime(events: seq<RideEvent>, c: nat, cut: nat, k: Kind)
    requires IdenticalDuplicates(events) && c <= cut <= |events|
    ensures TimeOf(events[..c], k) == TimeOf(events[..cut], k) <==> HoldsKind(events[..c], events[..cut], k)
  {
    LastOfKindIsThere(events[..c], k);
    LastOfKindIsThere(events[..cut], k);
    hide LastOfKind;
    forall e | e in events[..c] ensures e in events[..cut] { assert events[..c] <= events[..cut]; }
  }

  lemma LeadsWhenNotEmpty(events: seq<RideEvent>)
    requires events != []
    ensures Leading(events, PickupLatOf) != None && Leading(events, PickupLonOf) != None
  {
    PickupIsKnown(events);
    FirstIsLeading(events, PickupLatOf);
    FirstIsLeading(events, PickupLonOf);
  }

  /** The unlisted columns of two prefixes agree exactly when the shorter held enough. */
  lemma PrefixColumns(geo: Haversine, r: string, events: seq<RideEvent>, c: nat, cut: nat)
    requires IdenticalDuplicates(events) && 0 < c <= cut <= |events|
    ensures WithListed(DerivedSession(geo, r, events, c), DerivedSession(geo, r, events, cut))
            == DerivedSession(geo, r, events, cut)
            <==> HeldEnough(events[..c], events[..cut])
  {
    hide Read, Fold, Leading, RequestTime, TimeOf, HoldsKind, Derive, WithListed;
    var some, all := events[..c], events[..cut];
    UnlistedDecide(DerivedSession(geo, r, events, c), DerivedSession(geo, r, events, cut));
    SessionColumns(geo, r, some, true);
    SessionColumns(geo, r, all, true);
    SessionFields(geo, r, some, true);
    SessionFields(geo, r, all, true);
    LeadsWhenNotEmpty(some);
    LeadsWhenNotEmpty(all);
    PrefixTime(events, c, cut, Matched);
    PrefixTime(events, c, cut, DriverArrived);
    PrefixTime(events, c, cut, Started);
  }

  /** The whole row converges to the longest derivation exactly when the events of the
      first arrival, its first `c`, held enough of those of the longest. */
  lemma WholeRowConvergesIff(
    geo: Haversine, r: string, events: seq<RideEvent>, c: nat, cut: nat, l: seq<Value>, n: nat)
    requires IdenticalDuplicates(events) && 0 < c <= cut <= |events| && n <= |l|
    requires forall i :: 0 <= i < n && l[i].SessionValue? && l[i].session.rideId == r ==>
               Rederived(geo, r, events, cut, l[i].session)
    requires exists i :: 0 <= i < n && l[i] == SessionValue(DerivedSession(geo, r, events, cut))
    requires FirstSession(l, r, n) == Some(DerivedSession(geo, r, events, c))
    ensures RichestSession(l, r, n) == Some(DerivedSession(geo, r, events, cut))
            <==> HeldEnough(events[..c], events[..cut])
  {
    hide DerivedSession, Rederived, HeldEnough, WithListed;
    RederivationsConverge(geo, r, events, cut, l, n);
    PrefixColumns(geo, r, events, c, cut);
  }

  // --------------------------------------------------- when fields agree

  /** No two events of the ride carry different values of the field. */
  ghost predicate Agreed<T>(events: seq<RideEvent>, field: RideEvent -> Option<T>) {
    forall a, b :: a in events && b in events && field(a) != None && field(b) != None ==> field(a) == field(b)
  }

  ghost predicate Carries<T>(events: seq<RideEvent>, field: RideEvent -> Option<T>) {
    exists e :: e in events && field(e) != None
  }

  ghost predicate HoldsField<T>(some: seq<RideEvent>, all: seq<RideEvent>, field: RideEvent -> Option<T>) {
    Carries(all, field) ==> Carries(some, field)
  }

  lemma LeadingIffCarried<T>(events: seq<RideEvent>, field: RideEvent -> Option<T>)
    requires IdenticalDuplicates(events)
    ensures Leading(events, field) != None <==> Carries(events, field)
    ensures Leading(events, field) != None ==> exists e :: e in events && field(e) == Leading(events, field)
  {
    LeadingIsCarried(events, field);
    if e :| e in events && field(e) != None {
      LastOfKindIsThere(events, e.kind);
      assert FieldOf(events, field, e.kind) == field(e);
    }
  }

  lemma AgreedLeads<T>(events: seq<RideEvent>, c: nat, cut: nat, field: RideEvent -> Option<T>)
    requires IdenticalDuplicates(events) && c <= cut <= |events| && Agreed(events, field)
    ensures SameLead(events[..c], events[..cut], field) <==> HoldsField(events[..c], events[..cut], field)
  {
    hide Leading;
    forall e | e in events[..c] ensures e in events[..cut] { assert events[..c] <= events[..cut]; }
    LeadingIffCarried(events[..c], field);
    LeadingIffCarried(events[..cut], field);
  }

  /** The ride's events agree on every ride-level field, as generated ones do. */
  ghost predicate AgreedRide(events: seq<RideEvent>) {
    && Agreed(events, RiderIdOf) && Agreed(events, DriverIdOf) && Agreed(events, CityIdOf) && Agreed(events, SurgeOf)
    && Agreed(events, PickupLatOf) && Agreed(events, PickupLonOf)
    && Agreed(events, DropoffLatOf) && Agreed(events, DropoffLonOf)
  }

  /** For such a ride only presence matters: the first arrival must have held the middle
      kinds, the request's time, the driver and the dropoff, where the longest prefix
      holds them. */
  lemma AgreedRideConvergesIff(events: seq<RideEvent>, c: nat, cut: nat)
    requires IdenticalDuplicates(events) && 0 < c <= cut <= |events| && AgreedRide(events)
    ensures var some, all := events[..c], events[..cut];
            HeldEnough(some, all) <==>
            && HoldsKind(some, all, Matched) && HoldsKind(some, all, DriverArrived) && HoldsKind(some, all, Started)
            && RequestTime(some) == RequestTime(all)
            && HoldsField(some, all, DriverIdOf)
            && HoldsField(some, all, DropoffLatOf) && HoldsField(some, all, DropoffLonOf)
  {
    hide Leading, RequestTime, HoldsKind, Agreed;
    var some, all := events[..c], events[..cut];
    AgreedLeads(events, c, cut, RiderIdOf);
    AgreedLeads(events, c, cut, DriverIdOf);
    AgreedLeads(events, c, cut, CityIdOf);
    AgreedLeads(events, c, cut, SurgeOf);
    AgreedLeads(events, c, cut, PickupLatOf);
    AgreedLeads(events, c, cut, PickupLonOf);
    AgreedLeads(events, c, cut, DropoffLatOf);
    AgreedLeads(events, c, cut, DropoffLonOf);
    AlwaysCarried(some);
  }

  lemma AlwaysCarried(events: seq<RideEvent>)
    requires events != []
    ensures Carries(events, RiderIdOf) && Carries(events, CityIdOf) && Carries(events, SurgeOf)
    ensures Carries(events, PickupLatOf) && Carries(events, PickupLonOf)
  {
    assert events[0] in events;
  }

  // ------------------------------------------------------------- a witness

  function RequestOf(ts: int): RideEvent {
    RideEvent("r.1", "r", Requested, ts, "u", None, 0, 0.0, 0.0, None, None, None, 1.0, 1, None)
  }

  function MatchOf(ts: int): RideEvent {
    RideEvent("r.2", "r", Matched, ts, "u", Some("d"), 0, 0.0, 0.0, None, None, None, 1.0, 1, None)
  }

  /** Arrival order does show: a request and its match, derived once before and once
      after the match, leave different rows when they arrive in different orders. */
  lemma ArrivalOrderShows(geo: Haversine) returns (events: seq<RideEvent>, a: seq<Value>, b: seq<Value>)
    ensures IdenticalDuplicates(events) && |events| == 2 && multiset(a) == multiset(b)
    ensures forall v :: v in a ==> v.SessionValue? && Rederived(geo, "r", events, 2, v.session)
    ensures |a| == |b| == 2 && RichestSession(a, "r", 2) != RichestSession(b, "r", 2)
  {
    hide Fold, Read, Derive;
    events := [RequestOf(0), MatchOf(1)];
    var early, late := DerivedSession(geo, "r", events, 1), DerivedSession(geo, "r", events, 2);
    a, b := [SessionValue(early), SessionValue(late)], [SessionValue(late), SessionValue(early)];
    assert DerivedFrom(geo, "r", events, 2, early, 1) && DerivedFrom(geo, "r", events, 2, late, 2);
    assert a == [a[0], a[1]] && b == [a[1], a[0]];
    MatchShows(geo, events);
    assert RichestSession(a, "r", 0) == None && RichestSession(b, "r", 0) == None;
    assert RichestSession(a, "r", 1) == Some(early) && RichestSession(b, "r", 1) == Some(late);
  }

  lemma MatchShows(geo: Haversine, events: seq<RideEvent>)
    requires events == [RequestOf(0), MatchOf(1)]
    ensures var early, late := DerivedSession(geo, "r", events, 1), DerivedSession(geo, "r", events, 2);
            && early.rideId == late.rideId == "r" && early.eventSeq < late.eventSeq
            && early.matchedTs == None && late.matchedTs != None
  {
    hide Read, Derive;
    var one, two := events[..1], events[..2];
    assert one == [RequestOf(0)] && two == events && two[..1] == one && one[..0] == [];
    SeqIsCount(geo, "r", events, 1);
    SeqIsCount(geo, "r", events, 2);
    FoldsOfTwo(one, two);
    hide Fold;
    SessionColumns(geo, "r", one, true);
    SessionColumns(geo, "r", two, true);
    LastOfKindIsThere(one, Matched);
    LastOfKindIsThere(two, Matched);
    assert TimeOf(one, Matched) == None && TimeOf(two, Matched) == Some(1);
  }

  lemma FoldsOfTwo(one: seq<RideEvent>, two: seq<RideEvent>)
    requires one == [RequestOf(0)] && two == [RequestOf(0), MatchOf(1)]
    ensures |Fold(one)| == 1 && |Fold(two)| == 2
  {
    assert one[..0] == [] && two[..1] == one;
    assert Fold(one) == [RequestOf(0)];
  }
}
