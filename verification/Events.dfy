// The generator's event builders (src/generator/events.py) and its ids.
module Events {

  import opened Wrappers
  import opened Lifecycle
  import opened SessionFold
  import opened PgSink

  /** An event on its way to a topic, perhaps flagged for corruption on the wire. */
  datatype SourceEvent =
    | RideSource(event: RideEvent, corrupt: bool)
    | PaymentSource(payment: Payment, corrupt: bool)
    | LocationSource(location: Location)

  function Corrupted(e: SourceEvent): SourceEvent {
    match e
    case RideSource(ev, _) => RideSource(ev, true)
    case PaymentSource(p, _) => PaymentSource(p, true)
    case LocationSource(_) => e
  }

  /** The event without its corruption flag. */
  function Plain(e: SourceEvent): SourceEvent {
    match e
    case RideSource(ev, _) => RideSource(ev, false)
    case PaymentSource(p, _) => PaymentSource(p, false)
    case LocationSource(_) => e
  }

  // ------------------------------------------------------------ by topic

  function RideEventsIn(out: seq<SourceEvent>): seq<RideEvent> {
    if out == [] then []
    else
      var x := out[|out| - 1];
      RideEventsIn(out[..|out| - 1]) + (if x.RideSource? then [x.event] else [])
  }

  function PaymentsIn(out: seq<SourceEvent>): seq<Payment> {
    if out == [] then []
    else
      var x := out[|out| - 1];
      PaymentsIn(out[..|out| - 1]) + (if x.PaymentSource? then [x.payment] else [])
  }

  function LocationsIn(out: seq<SourceEvent>): seq<Location> {
    if out == [] then []
    else
      var x := out[|out| - 1];
      LocationsIn(out[..|out| - 1]) + (if x.LocationSource? then [x.location] else [])
  }

  lemma NothingIn()
    ensures RideEventsIn([]) == [] && PaymentsIn([]) == [] && LocationsIn([]) == []
  {
  }

  lemma OneMoreIn(es: seq<SourceEvent>, x: SourceEvent)
    ensures RideEventsIn(es + [x]) == RideEventsIn(es) + (if x.RideSource? then [x.event] else [])
    ensures PaymentsIn(es + [x]) == PaymentsIn(es) + (if x.PaymentSource? then [x.payment] else [])
    ensures LocationsIn(es + [x]) == LocationsIn(es) + (if x.LocationSource? then [x.location] else [])
  {
    assert (es + [x])[..|es|] == es;
  }

  lemma {:induction false} InConcat(a: seq<SourceEvent>, b: seq<SourceEvent>)
    ensures RideEventsIn(a + b) == RideEventsIn(a) + RideEventsIn(b)
    ensures PaymentsIn(a + b) == PaymentsIn(a) + PaymentsIn(b)
    ensures LocationsIn(a + b) == LocationsIn(a) + LocationsIn(b)
  {
    hide RideEventsIn, PaymentsIn, LocationsIn;
    if b == [] {
      NothingIn();
      assert a + b == a;
    } else {
      var front, last := b[..|b| - 1], b[|b| - 1];
      InConcat(a, front);
      OneMoreIn(a + front, last);
      OneMoreIn(front, last);
      assert b == front + [last];
      assert a + b == (a + front) + [last];
    }
  }

  // ------------------------------------------------------------------ numbers

  function Digit(n: nat): char
    requires n < 10
  {
    "0123456789"[n]
  }

  function DigitValue(c: char): nat {
    if '0' <= c <= '9' then c as nat - '0' as nat else 0
  }

  function Decimal(n: nat): string {
    if n < 10 then [Digit(n)] else Decimal(n / 10) + [Digit(n % 10)]
  }

  function ValueOf(s: string): nat {
    if s == [] then 0 else ValueOf(s[..|s| - 1]) * 10 + DigitValue(s[|s| - 1])
  }

  /** Zero padding to a width, as a format specification does. */
  function Padded(n: nat, width: nat): string {
    Zeros(width - |Decimal(n)|) + Decimal(n)
  }

  function Zeros(k: int): string {
    if k <= 0 then "" else Zeros(k - 1) + "0"
  }

  lemma {:induction false} ZerosAreNothing(k: int, s: string)
    ensures ValueOf(Zeros(k) + s) == ValueOf(s)
  {
    if s != "" {
      ZerosAreNothing(k, s[..|s| - 1]);
      assert (Zeros(k) + s)[..|Zeros(k) + s| - 1] == Zeros(k) + s[..|s| - 1];
    } else if k > 0 {
      ZerosAreNothing(k - 1, "");
      assert Zeros(k) + s == (Zeros(k - 1) + "") + "0";
      assert ((Zeros(k - 1) + "") + "0")[..k - 1] == Zeros(k - 1) + "" by { ZerosLength(k - 1); }
    }
  }

  lemma {:induction false} ZerosLength(k: int)
    ensures |Zeros(k)| == if k <= 0 then 0 else k
  {
    if k > 0 {
      ZerosLength(k - 1);
    }
  }

  lemma {:induction false} DecimalRoundTrip(n: nat)
    ensures ValueOf(Decimal(n)) == n
  {
    if n < 10 {
      assert Decimal(n)[..0] == "";
    } else {
      DecimalRoundTrip(n / 10);
      assert Decimal(n)[..|Decimal(n)| - 1] == Decimal(n / 10);
    }
  }

  lemma PaddedRoundTrip(n: nat, width: nat)
    ensures ValueOf(Padded(n, width)) == n && |Padded(n, width)| >= width
  {
    ZerosLength(width - |Decimal(n)|);
    hide Decimal, Zeros, ValueOf;
    ZerosAreNothing(width - |Decimal(n)|, Decimal(n));
    DecimalRoundTrip(n);
  }

  ghost predicate Digits(s: string) {
    forall i :: 0 <= i < |s| ==> '0' <= s[i] <= '9'
  }

  lemma {:induction false} DecimalIsDigits(n: nat)
    ensures Digits(Decimal(n)) && Decimal(n) != ""
  {
    if n >= 10 {
      DecimalIsDigits(n / 10);
    }
  }

  lemma {:induction false} ZerosAreDigits(k: int)
    ensures Digits(Zeros(k))
  {
    if k > 0 {
      ZerosAreDigits(k - 1);
    }
  }

  lemma PaddedIsDigits(n: nat, width: nat)
    ensures Digits(Padded(n, width)) && Padded(n, width) != ""
  {
    hide Zeros, Decimal;
    DecimalIsDigits(n);
    ZerosAreDigits(width - |Decimal(n)|);
  }

  function BeforeDash(s: string): string {
    if s == "" || s[0] == '-' then "" else [s[0]] + BeforeDash(s[1..])
  }

  lemma {:induction false} DigitsBeforeDash(a: string, x: string)
    requires Digits(a)
    ensures BeforeDash(a + "-" + x) == a
  {
    if a == "" {
      assert a + "-" + x == "-" + x;
    } else {
      DigitsBeforeDash(a[1..], x);
      assert (a + "-" + x)[1..] == a[1..] + "-" + x;
    }
  }

  /** What stands before the first dash, when it is all digits, can be told apart. */
  lemma DashParts(a: string, b: string, x: string, y: string)
    requires Digits(a) && Digits(b) && a + "-" + x == b + "-" + y
    ensures a == b && x == y
  {
    DigitsBeforeDash(a, x);
    DigitsBeforeDash(b, y);
    assert x == (a + "-" + x)[|a| + 1..] && y == (b + "-" + y)[|b| + 1..];
  }

  // ---------------------------------------------------------------------- ids

  function RideIdOf(token: string, n: nat): string {
    "r-" + token + "-" + Padded(n, 6)
  }

  /** Within one run, two rides never share an id. */
  lemma RideIdsAreUnique(token: string, a: nat, b: nat)
    requires RideIdOf(token, a) == RideIdOf(token, b)
    ensures a == b
  {
    var prefix := "r-" + token + "-";
    hide Padded, ValueOf;
    assert RideIdOf(token, a)[|prefix|..] == Padded(a, 6);
    assert RideIdOf(token, b)[|prefix|..] == Padded(b, 6);
    PaddedRoundTrip(a, 6);
    PaddedRoundTrip(b, 6);
  }

  /** The id of an event: the ride id, a dot, the lifecycle ordinal. */
  function EventIdOf(rideId: string, kind: Kind): string {
    rideId + "." + [Digit(EventSeq(kind))]
  }

  /** The ride id and the ordinal can be read back: what stands before the last dot and
      the number after it. */
  lemma EventIdParses(rideId: string, kind: Kind)
    ensures var id := EventIdOf(rideId, kind);
            && |id| >= 2 && id[|id| - 2] == '.' && id[..|id| - 2] == rideId && ValueOf(id[|id| - 1..]) == EventSeq(kind)
  {
    var id, d := EventIdOf(rideId, kind), [Digit(EventSeq(kind))];
    assert id[|id| - 1..] == d && d[..0] == "";
    assert ValueOf(d) == ValueOf(d[..0]) * 10 + DigitValue(d[0]);
  }

  predicate GeneratorBuilt(e: RideEvent) {
    e.eventId == EventIdOf(e.rideId, e.kind)
  }

  /** An event id and the sink's key (ride, ordinal) determine each other. */
  lemma IdIsKey(a: RideEvent, b: RideEvent)
    requires GeneratorBuilt(a) && GeneratorBuilt(b)
    ensures a.eventId == b.eventId <==> a.rideId == b.rideId && EventSeq(a.kind) == EventSeq(b.kind)
  {
    if a.eventId == b.eventId {
      var id, n := a.eventId, |a.eventId|;
      assert a.rideId == id[..n - 2] && b.rideId == id[..n - 2];
      assert id[n - 1] == Digit(EventSeq(a.kind)) == Digit(EventSeq(b.kind));
    }
  }
}
