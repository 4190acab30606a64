// How the log-prefix readings grow: by one message at their end, and not at all
// when the log itself grows behind them.
module LogLaws {

  import opened Wrappers
  import opened Lifecycle
  import opened SessionFold
  import opened FoldLaws
  import opened StateStore
  import opened Broker
  import opened Protocol
  import Steps

  lemma {:induction false} PrefixesUnmoved(p: nat, l: seq<Payload>, x: Payload, r: string, n: nat)
    requires n <= |l|
    ensures Decoded(l + [x], n) == Decoded(l, n)
    ensures DeadLetters(p, l + [x], n) == DeadLetters(p, l, n)
    ensures RideLog(l + [x], r, n) == RideLog(l, r, n)
  {
    if n > 0 {
      PrefixesUnmoved(p, l, x, r, n - 1);
    }
  }

  lemma FoldOneMore(events: seq<RideEvent>, e: RideEvent)
    ensures Fold(events + [e]) == AddEvent(Fold(events), e)
  {
    assert (events + [e])[..|events|] == events;
  }

  lemma {:induction false} RideLogHolds(l: seq<Payload>, r: string, n: nat, e: RideEvent)
    requires n <= |l| && e in RideLog(l, r, n)
    ensures exists i :: 0 <= i < n && EventOf(l[i], r) && l[i].event == e
  {
    if e in RideLog(l, r, n - 1) {
      RideLogHolds(l, r, n - 1, e);
    }
  }

  lemma {:induction false} RideLogHas(l: seq<Payload>, r: string, n: nat, i: nat)
    requires i < n <= |l| && EventOf(l[i], r)
    ensures l[i].event in RideLog(l, r, n)
  {
    if i < n - 1 {
      RideLogHas(l, r, n - 1, i);
    }
  }

  lemma {:induction false} MirrorOneMore(home: string -> nat, clean: seq<RideEvent>, e: RideEvent, p: nat)
    ensures MirrorOf(home, clean + [e], p) == MirrorOf(home, clean, p) + (if home(e.rideId) == p then [e] else [])
  {
    assert (clean + [e])[..|clean|] == clean;
  }

  lemma {:induction false} DeadOneMore(dead: seq<Envelope>, x: Envelope, p: nat)
    ensures DeadOn(dead + [x], p) == DeadOn(dead, p) + (if x.partition == p then [x] else [])
  {
    assert (dead + [x])[..|dead|] == dead;
  }

  lemma {:induction false} SessionsForConcat(a: seq<Session>, b: seq<Session>, r: string)
    ensures SessionsFor(a + b, r) == SessionsFor(a, r) + SessionsFor(b, r)
  {
    if b == [] {
      assert a + b == a;
    } else {
      SessionsForConcat(a, b[..|b| - 1], r);
      assert (a + b)[..|a + b| - 1] == a + b[..|b| - 1];
    }
  }

  /** Journal rows that are exactly ride `r`'s events below `n` fold as the log does. */
  lemma {:induction false} RowsAreLog(j: Journal, p: nat, l: seq<Payload>, r: string, n: nat)
    requires n <= |l|
    requires forall i :: 0 <= i < n && (p, i) in j ==>
               l[i] == Good(j[(p, i)].value) && j[(p, i)].rideId == j[(p, i)].value.rideId
    requires forall i :: 0 <= i < n && EventOf(l[i], r) ==> (p, i) in j
    ensures RideRows(j, p, r, n) == RideLog(l, r, n)
  {
    if n > 0 {
      RowsAreLog(j, p, l, r, n - 1);
    }
  }

  // -------------------------------------------------------- the store's writes

  lemma {:induction false} InsertIgnoreIs(j: Journal, rows: seq<JournalRow>)
    ensures forall k :: k in j ==> k in InsertIgnore(j, rows) && InsertIgnore(j, rows)[k] == j[k]
    ensures forall k :: k in InsertIgnore(j, rows) && k !in j ==>
              exists row :: row in rows && k == (row.partition, row.offset) && InsertIgnore(j, rows)[k] == row
    ensures forall row :: row in rows ==> (row.partition, row.offset) in InsertIgnore(j, rows)
  {
    if rows != [] {
      InsertIgnoreIs(j, rows[..|rows| - 1]);
      assert rows == rows[..|rows| - 1] + [rows[|rows| - 1]];
    }
  }

  lemma {:induction false} InsertReplaceIs(c: Closes, rows: seq<CloseRow>)
    requires forall i, j :: 0 <= i < j < |rows| ==> rows[i].rideId != rows[j].rideId
    ensures forall r :: r in InsertReplace(c, rows) <==> r in c || exists x :: x in rows && x.rideId == r
    ensures forall x :: x in rows ==> InsertReplace(c, rows)[x.rideId] == x
    ensures forall r :: r in c && (forall x :: x in rows ==> x.rideId != r) ==> InsertReplace(c, rows)[r] == c[r]
  {
    if rows != [] {
      var front, last := rows[..|rows| - 1], rows[|rows| - 1];
      InsertReplaceIs(c, front);
      assert rows == front + [last];
    }
  }

  lemma {:induction false} SessionsInIs(closes: seq<CloseRow>, r: string)
    requires forall i, j :: 0 <= i < j < |closes| ==> closes[i].rideId != closes[j].rideId
    requires forall c :: c in closes ==> c.session.rideId == c.rideId
    ensures forall c :: c in closes && c.rideId == r ==> SessionsFor(Steps.SessionsIn(closes), r) == [c.session]
    ensures (forall c :: c in closes ==> c.rideId != r) ==> SessionsFor(Steps.SessionsIn(closes), r) == []
  {
    if closes != [] {
      var front, last := closes[..|closes| - 1], closes[|closes| - 1];
      SessionsInIs(front, r);
      assert closes == front + [last];
      SessionsForConcat(Steps.SessionsIn(front), [last.session], r);
      assert SessionsFor([last.session], r) == if last.rideId == r then [last.session] else [];
    }
  }
}
