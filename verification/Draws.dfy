// The random draws of the generator: any value in the range the distribution
// (or the clip around it) allows, so what is proved holds for every seed.
module Draws {

  /** random(): a real in [0, 1). */
  method Roll() returns (x: real)
    ensures 0.0 <= x < 1.0
  {
    x := *;
    if !(0.0 <= x < 1.0) { x := 0.0; }
  }

  /** uniform(a, b), which takes its ends in either order. */
  method Uniform(a: real, b: real) returns (x: real)
    ensures a <= x <= b || b <= x <= a
  {
    x := *;
    if !(a <= x <= b || b <= x <= a) { x := a; }
  }

  /** randrange(n) */
  method Below(n: int) returns (x: int)
    requires n > 0
    ensures 0 <= x < n
  {
    x := *;
    if !(0 <= x < n) { x := 0; }
  }

  /** gauss(mu, sigma) */
  method Gauss() returns (x: real)
  {
    x := *;
  }

  /** expovariate(1 / mean) */
  method Exponential() returns (x: real)
    ensures x >= 0.0
  {
    x := *;
    if x < 0.0 { x := 0.0; }
  }

  /** min(max(x, low), high) */
  function Clip(x: real, low: real, high: real): real {
    if x < low then low else if x > high then high else x
  }

  /** The value in the range that is nearest to `x`. */
  lemma ClipIsNearest(x: real, low: real, high: real, y: real)
    requires low <= y <= high
    ensures var c := Clip(x, low, high);
            low <= c <= high && (if x <= c then c - x else x - c) <= (if x <= y then y - x else x - y)
  {
  }

  /** int(x * 1000) for a non-negative number of seconds. */
  function Millis(seconds: real): int {
    (seconds * 1000.0).Floor
  }

  /** Whether an event of probability `p` can happen, or fail to, on a roll below it. */
  predicate Possible(p: real, happens: bool) {
    if happens then p > 0.0 else p < 1.0
  }

  /** The last whole millisecond not after the time. */
  lemma MillisIsLast(seconds: real, ms: int)
    ensures ms <= Millis(seconds) <==> ms as real <= seconds * 1000.0
  {
  }

  lemma MillisAtMost(seconds: real, high: int)
    requires seconds <= high as real
    ensures Millis(seconds) <= high * 1000
  {
    assert seconds * 1000.0 <= (high * 1000) as real;
  }

  lemma MillisAtLeast(seconds: real, low: int)
    requires seconds >= low as real
    ensures Millis(seconds) >= low * 1000
  {
    assert seconds * 1000.0 >= (low * 1000) as real;
  }

  lemma MillisBetween(low: real, x: real, high: real)
    requires low <= x <= high
    ensures Millis(low) <= Millis(x) <= Millis(high)
  {
    assert low * 1000.0 <= x * 1000.0 <= high * 1000.0;
  }
}
