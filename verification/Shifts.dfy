// Driver shifts by gaps and islands (dbt/models/intermediate/int_drivers__shifts.sql):
// boundary flags by lag, numbering by a running sum, one row per number.
module Shifts {

  import opened Wrappers

  /** One driver's pings, ordered by time. */
  datatype Ping = Ping(at: int, lat: real, lon: real, offline: bool)

  const MAX_GAP_MS: int := 30 * 60 * 1000

  /** The distance of one step; any function of two pings. */
  type Step = (Ping, Ping) -> real

  predicate Boundary(prev: Ping, cur: Ping) {
    cur.at - prev.at > MAX_GAP_MS || prev.offline
  }

  /** is_new_shift: there is no previous ping, or a boundary lies before this one. */
  function IsNewShift(pings: seq<Ping>, i: nat): bool
    requires i < |pings|
  {
    i == 0 || Boundary(pings[i - 1], pings[i])
  }

  /** shift_seq: the running sum of the flags up to and including row `i`. */
  function ShiftSeq(pings: seq<Ping>, i: nat): nat
    requires i < |pings|
  {
    (if i == 0 then 0 else ShiftSeq(pings, i - 1)) + if IsNewShift(pings, i) then 1 else 0
  }

  /** The rows of group `k` among the first `n`. */
  function GroupOf(pings: seq<Ping>, k: nat, n: nat): seq<Ping>
    requires n <= |pings|
  {
    if n == 0 then []
    else GroupOf(pings, k, n - 1) + if ShiftSeq(pings, n - 1) == k then [pings[n - 1]] else []
  }

  /** SUM of step_km over group `k`, with 0 where a shift begins. */
  function DistanceOf(step: Step, pings: seq<Ping>, k: nat, n: nat): real
    requires n <= |pings|
  {
    if n == 0 then 0.0
    else
      DistanceOf(step, pings, k, n - 1) +
      (if ShiftSeq(pings, n - 1) != k || IsNewShift(pings, n - 1) then 0.0 else step(pings[n - 2], pings[n - 1]))
  }

  /** All groups, in order of their number. */
  function Groups(pings: seq<Ping>): seq<seq<Ping>> {
    if pings == [] then []
    else seq(ShiftSeq(pings, |pings| - 1), k requires 0 <= k => GroupOf(pings, k + 1, |pings|))
  }

  // ---------------------------------------------------- what a segmentation is

  function Concat(runs: seq<seq<Ping>>): seq<Ping> {
    if runs == [] then [] else Concat(runs[..|runs| - 1]) + runs[|runs| - 1]
  }

  /** At most 30 minutes to the next ping, and no ping but the last is offline. */
  ghost predicate Joined(run: seq<Ping>) {
    forall i :: 0 <= i < |run| - 1 ==> JoinedAt(run, i)
  }

  ghost predicate JoinedAt(run: seq<Ping>, i: nat)
    requires i + 1 < |run|
  {
    run[i + 1].at - run[i].at <= 1800000 && !run[i].offline
  }

  /** The first run ended offline, or more than 30 minutes before the second began. */
  ghost predicate Parted(last: Ping, next: Ping) {
    last.offline || next.at - last.at > 1800000
  }

  function LastOf(s: seq<Ping>): Ping
    requires s != []
  {
    s[|s| - 1]
  }

  /** The runs partition the pings in order, each is unbroken, and no two neighbours
      could be one: they are the maximal unbroken runs. */
  ghost predicate Segments(runs: seq<seq<Ping>>, pings: seq<Ping>) {
    && Concat(runs) == pings
    && (forall k :: 0 <= k < |runs| ==> runs[k] != [] && Joined(runs[k]))
    && (forall k :: 0 <= k < |runs| - 1 ==> PartedAt(runs, k))
  }

  ghost predicate PartedAt(runs: seq<seq<Ping>>, k: nat)
    requires k + 1 < |runs|
  {
    runs[k] != [] && runs[k + 1] != [] && Parted(LastOf(runs[k]), runs[k + 1][0])
  }

  /** The recursive splitter. */
  function Split(pings: seq<Ping>): seq<seq<Ping>> {
    if pings == [] then []
    else
      var front, p := pings[..|pings| - 1], pings[|pings| - 1];
      var runs := Split(front);
      if front == [] || runs == [] || Boundary(LastOf(front), p) then runs + [[p]]
      else runs[|runs| - 1 := runs[|runs| - 1] + [p]]
  }

  /** The sum of a run's internal steps. */
  function Internal(step: Step, run: seq<Ping>): real {
    if |run| <= 1 then 0.0 else Internal(step, run[..|run| - 1]) + step(run[|run| - 2], run[|run| - 1])
  }

  // ------------------------------------------------------------------- proofs

  lemma {:induction false} NumbersUnmoved(pings: seq<Ping>, more: seq<Ping>, i: nat)
    requires i < |pings|
    ensures ShiftSeq(pings + more, i) == ShiftSeq(pings, i)
    ensures IsNewShift(pings + more, i) == IsNewShift(pings, i)
  {
    if i > 0 {
      NumbersUnmoved(pings, more, i - 1);
    }
  }

  lemma {:induction false} GroupsUnmoved(step: Step, pings: seq<Ping>, more: seq<Ping>, k: nat, n: nat)
    requires n <= |pings|
    ensures GroupOf(pings + more, k, n) == GroupOf(pings, k, n)
    ensures DistanceOf(step, pings + more, k, n) == DistanceOf(step, pings, k, n)
  {
    if n > 0 {
      GroupsUnmoved(step, pings, more, k, n - 1);
      NumbersUnmoved(pings, more, n - 1);
      if n > 1 { NumbersUnmoved(pings, more, n - 2); }
    }
  }

  lemma {:induction false} LaterGroupsEmpty(step: Step, pings: seq<Ping>, k: nat, n: nat)
    requires 0 < n <= |pings| && k > ShiftSeq(pings, n - 1)
    ensures GroupOf(pings, k, n) == [] && DistanceOf(step, pings, k, n) == 0.0
  {
    if n > 1 {
      LaterGroupsEmpty(step, pings, k, n - 1);
    }
  }

  /** Run `k` of the splitter is group `k + 1`, with its internal distance. */
  ghost predicate RunIsGroup(step: Step, pings: seq<Ping>, run: seq<Ping>, k: nat) {
    run == GroupOf(pings, k + 1, |pings|) && Internal(step, run) == DistanceOf(step, pings, k + 1, |pings|)
  }

  /** The splitter's runs: as many as the last number, the last one ending in the
      last ping, each equal to the group of its number. */
  lemma {:induction false} SplitIsGrouping(step: Step, pings: seq<Ping>)
    requires pings != []
    ensures |Split(pings)| == ShiftSeq(pings, |pings| - 1) > 0
    ensures LastRun(pings) != [] && LastOf(LastRun(pings)) == LastOf(pings)
    ensures forall k :: 0 <= k < |Split(pings)| ==> RunIsGroup(step, pings, Split(pings)[k], k)
  {
    hide RunIsGroup;
    var n := |pings| - 1;
    var front, p := pings[..n], pings[n];
    assert pings == front + [p];
    if n == 0 {
      LonePing(step, p);
      assert pings == [p] && Split(pings) == [[p]] by { assert Split(front) == []; }
    } else {
      SplitIsGrouping(step, front);
      NumbersUnmoved(front, [p], n - 1);
      forall k | 0 <= k < |Split(pings)| ensures RunIsGroup(step, pings, Split(pings)[k], k) {
        RunGrows(step, front, p, k);
      }
    }
  }

  function LastRun(pings: seq<Ping>): seq<Ping>
    requires Split(pings) != []
  {
    Split(pings)[|Split(pings)| - 1]
  }

  lemma LonePing(step: Step, p: Ping)
    ensures RunIsGroup(step, [p], [p], 0)
  {
    assert GroupOf([p], 1, 0) == [];
  }

  lemma RunGrows(step: Step, front: seq<Ping>, p: Ping, k: nat)
    requires front != [] && |Split(front)| == ShiftSeq(front, |front| - 1) > 0
    requires LastRun(front) != [] && LastOf(LastRun(front)) == LastOf(front)
    requires k < |Split(front)| ==> RunIsGroup(step, front, Split(front)[k], k)
    requires k < |Split(front + [p])|
    ensures RunIsGroup(step, front + [p], Split(front + [p])[k], k)
  {
    hide Split, GroupOf, DistanceOf, ShiftSeq;
    var n, pings, runs := |front|, front + [p], Split(front);
    SplitUnfolds(front, p);
    GroupGrows(step, front, p, k + 1);
    if k == |runs| {
      LaterGroupsEmpty(step, front, k + 1, n);
    } else if k == |runs| - 1 && !Boundary(LastOf(front), p) {
      var run := runs[k] + [p];
      assert run[..|run| - 1] == runs[k];
    } else {
      assert GroupOf(front, k + 1, n) + [] == GroupOf(front, k + 1, n);
    }
  }

  /** The last row joins the last group or opens the next one. */
  lemma GroupGrows(step: Step, front: seq<Ping>, p: Ping, k: nat)
    requires front != []
    ensures var n, pings := |front|, front + [p];
            var last := ShiftSeq(front, n - 1);
            if Boundary(LastOf(front), p) then
              && GroupOf(pings, k, n + 1) == GroupOf(front, k, n) + (if k == last + 1 then [p] else [])
              && DistanceOf(step, pings, k, n + 1) == DistanceOf(step, front, k, n)
            else
              && GroupOf(pings, k, n + 1) == GroupOf(front, k, n) + (if k == last then [p] else [])
              && DistanceOf(step, pings, k, n + 1) ==
                 DistanceOf(step, front, k, n) + if k == last then step(LastOf(front), p) else 0.0
  {
    var n, pings := |front|, front + [p];
    assert pings[n - 1] == front[n - 1] == LastOf(front) && pings[n] == p;
    GroupsUnmoved(step, front, [p], k, n);
    NumbersUnmoved(front, [p], n - 1);
  }

  lemma SplitUnfolds(front: seq<Ping>, p: Ping)
    requires front != [] && Split(front) != []
    ensures var runs := Split(front);
            Split(front + [p]) ==
            if Boundary(LastOf(front), p) then runs + [[p]] else runs[|runs| - 1 := runs[|runs| - 1] + [p]]
  {
    assert (front + [p])[..|front|] == front;
  }

  lemma RunAppended(runs: seq<seq<Ping>>, front: seq<Ping>, p: Ping)
    requires Segments(runs, front)
    requires runs != [] ==> Parted(LastOf(runs[|runs| - 1]), p)
    ensures Segments(runs + [[p]], front + [p])
  {
    var all := runs + [[p]];
    assert all[..|runs|] == runs;
    forall k | 0 <= k < |runs| ensures PartedAt(all, k) {
      if k < |runs| - 1 { assert PartedAt(runs, k); }
    }
  }

  lemma RunExtended(runs: seq<seq<Ping>>, front: seq<Ping>, p: Ping)
    requires Segments(runs, front) && runs != []
    requires var last := LastOf(runs[|runs| - 1]); !Parted(last, p)
    ensures var m := |runs| - 1; Segments(runs[m := runs[m] + [p]], front + [p])
  {
    var m := |runs| - 1;
    var all := runs[m := runs[m] + [p]];
    assert all[..m] == runs[..m] && all[m] == runs[m] + [p];
    forall i | 0 <= i < |all[m]| - 1 ensures JoinedAt(all[m], i) {
      if i < |runs[m]| - 1 { assert JoinedAt(runs[m], i); }
    }
    forall k | 0 <= k < m ensures PartedAt(all, k) { assert PartedAt(runs, k); }
  }

  lemma {:induction false} SplitSegments(pings: seq<Ping>)
    ensures Segments(Split(pings), pings)
    ensures pings != [] ==> Split(pings) != [] && LastOf(Split(pings)[|Split(pings)| - 1]) == LastOf(pings)
  {
    if pings != [] {
      hide Segments;
      var front, p := pings[..|pings| - 1], pings[|pings| - 1];
      SplitSegments(front);
      assert pings == front + [p];
      if front == [] {
        assert Segments([], []) by { NothingSegments(); }
        RunAppended([], [], p);
      } else if Boundary(LastOf(front), p) {
        RunAppended(Split(front), front, p);
      } else {
        RunsAreNotEmpty(Split(front), front);
        RunExtended(Split(front), front, p);
      }
    }
  }

  lemma NothingSegments()
    ensures Segments([], [])
  {
  }

  lemma RunsAreNotEmpty(runs: seq<seq<Ping>>, pings: seq<Ping>)
    requires Segments(runs, pings)
    ensures forall k :: 0 <= k < |runs| ==> runs[k] != []
  {
  }

  /** There is only one way to segment. */
  lemma {:induction false} SegmentsUnique(runs: seq<seq<Ping>>, pings: seq<Ping>)
    requires Segments(runs, pings)
    ensures runs == Split(pings)
    decreases |pings|
  {
    if runs != [] {
      var m := |runs| - 1;
      if |runs[m]| == 1 {
        DropLoneRun(runs, pings);
        SegmentsUnique(runs[..m], pings[..|pings| - 1]);
        LastRunIsLone(runs, pings);
      } else {
        DropLastPing(runs, pings);
        SegmentsUnique(runs[m := runs[m][..|runs[m]| - 1]], pings[..|pings| - 1]);
        LastRunIsLonger(runs, pings);
      }
    }
  }

  lemma DropLoneRun(runs: seq<seq<Ping>>, pings: seq<Ping>)
    requires Segments(runs, pings) && runs != [] && |runs[|runs| - 1]| == 1
    ensures pings != [] && Segments(runs[..|runs| - 1], pings[..|pings| - 1])
  {
    hide Joined;
    var before := runs[..|runs| - 1];
    assert pings[..|pings| - 1] == Concat(before);
    forall k | 0 <= k < |before| - 1 ensures PartedAt(before, k) { assert PartedAt(runs, k); }
  }

  lemma LastRunIsLone(runs: seq<seq<Ping>>, pings: seq<Ping>)
    requires Segments(runs, pings) && runs != [] && |runs[|runs| - 1]| == 1
    requires pings != [] && Split(pings[..|pings| - 1]) == runs[..|runs| - 1]
    ensures runs == Split(pings)
  {
    hide Joined;
    var m := |runs| - 1;
    var before, p := runs[..m], runs[m][0];
    assert runs[m] == [p] && runs == before + [runs[m]];
    assert pings == Concat(before) + [p];
    assert pings[..|pings| - 1] == Concat(before);
    if before != [] {
      LastOfConcat(before);
      assert PartedAt(runs, m - 1);
    }
  }

  lemma DropLastPing(runs: seq<seq<Ping>>, pings: seq<Ping>)
    requires Segments(runs, pings) && runs != [] && |runs[|runs| - 1]| > 1
    ensures pings != []
    ensures var m := |runs| - 1; Segments(runs[m := runs[m][..|runs[m]| - 1]], pings[..|pings| - 1])
  {
    var m := |runs| - 1;
    var run := runs[m];
    var shorter := runs[m := run[..|run| - 1]];
    assert shorter[..m] == runs[..m];
    assert run == run[..|run| - 1] + [LastOf(run)];
    forall i | 0 <= i < |run| - 2 ensures JoinedAt(shorter[m], i) { assert JoinedAt(run, i); }
    forall k | 0 <= k < m ensures PartedAt(shorter, k) { assert PartedAt(runs, k); }
  }

  lemma LastRunIsLonger(runs: seq<seq<Ping>>, pings: seq<Ping>)
    requires Segments(runs, pings) && runs != [] && |runs[|runs| - 1]| > 1 && pings != []
    requires var m := |runs| - 1; Split(pings[..|pings| - 1]) == runs[m := runs[m][..|runs[m]| - 1]]
    ensures runs == Split(pings)
  {
    var m := |runs| - 1;
    var n := |runs[m]| - 1;
    var shorter, front, p := runs[m := runs[m][..n]], pings[..|pings| - 1], runs[m][n];
    LastPings(runs, pings);
    hide Segments, Split, Concat;
    SplitUnfolds(front, p);
    PutBack(runs);
  }

  lemma PutBack(runs: seq<seq<Ping>>)
    requires runs != [] && runs[|runs| - 1] != []
    ensures var m, run := |runs| - 1, runs[|runs| - 1];
            var shorter := runs[m := run[..|run| - 1]];
            runs == shorter[m := shorter[m] + [LastOf(run)]]
  {
    var run := runs[|runs| - 1];
    assert run == run[..|run| - 1] + [LastOf(run)];
  }

  lemma LastPings(runs: seq<seq<Ping>>, pings: seq<Ping>)
    requires Segments(runs, pings) && runs != [] && |runs[|runs| - 1]| > 1 && pings != []
    ensures var run, front := runs[|runs| - 1], pings[..|pings| - 1];
            && pings == front + [LastOf(run)] && front != [] && LastOf(front) == run[|run| - 2]
            && !Boundary(run[|run| - 2], LastOf(run))
  {
    hide Joined, PartedAt;
    var m := |runs| - 1;
    var run := runs[m];
    assert pings == Concat(runs[..m]) + run;
    assert Joined(run);
    LastTwoJoined(run);
  }

  lemma LastTwoJoined(run: seq<Ping>)
    requires Joined(run) && |run| > 1
    ensures !Boundary(run[|run| - 2], LastOf(run))
  {
    assert JoinedAt(run, |run| - 2);
  }

  lemma LastOfConcat(runs: seq<seq<Ping>>)
    requires runs != [] && runs[|runs| - 1] != []
    ensures Concat(runs) != [] && LastOf(Concat(runs)) == LastOf(runs[|runs| - 1])
  {
  }

  /** Numbering by the running sum yields exactly the maximal runs: it partitions
      the pings, any segmentation equals it, and a shift's distance is the sum of
      its internal steps only. */
  lemma ShiftsAreMaximalRuns(step: Step, pings: seq<Ping>)
    ensures Segments(Groups(pings), pings)
    ensures forall runs :: Segments(runs, pings) ==> runs == Groups(pings)
    ensures forall k: nat :: k < |Groups(pings)| ==>
              DistanceOf(step, pings, k + 1, |pings|) == Internal(step, Groups(pings)[k])
  {
    SplitSegments(pings);
    if pings != [] { SplitIsGrouping(step, pings); }
    forall k: nat | k < |Split(pings)| ensures RunIsGroup(step, pings, Split(pings)[k], k) {}
    assert Groups(pings) == Split(pings);
    forall runs | Segments(runs, pings) ensures runs == Groups(pings) { SegmentsUnique(runs, pings); }
  }

  /** Without a stored offline ping only gaps divide shifts. */
  lemma OnlyGapsDivide(pings: seq<Ping>, i: nat)
    requires i < |pings| && forall p :: p in pings ==> !p.offline
    ensures IsNewShift(pings, i) <==> i == 0 || pings[i].at - pings[i - 1].at > 1800000
  {
    if i > 0 { assert pings[i - 1] in pings; }
  }
}
