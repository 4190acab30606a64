// The incremental ride fact (dbt/models/marts/fct_rides.sql): a merge on ride_id
// of the rows whose requested_at lies within the lookback of the table's maximum.
module FactTable {

  import opened Wrappers
  import opened SessionFold
  import PgSink

  /** One enriched row; what else it holds does not matter to the merge. */
  datatype Row<T> = Row(requestedAt: int, rest: T)

  type Rows<T> = map<string, Row<T>>

  const LOOKBACK_MS: int := 60 * 60 * 1000
  const EPOCH_1900_MS: int := -2208988800000

  /** `m` is coalesce(max(requested_at), 1900-01-01). */
  ghost predicate IsMax<T>(fact: Rows<T>, m: int) {
    if fact == map[] then m == -2208988800000
    else (exists r :: r in fact && fact[r].requestedAt == m) && forall r :: r in fact ==> fact[r].requestedAt <= m
  }

  function Merged<T>(fact: Rows<T>, source: Rows<T>, max: int): Rows<T> {
    fact + map r | r in source && source[r].requestedAt >= max - LOOKBACK_MS :: source[r]
  }

  /** The materialized table. */
  class Fact {
    var rows: Rows<Session>

    constructor (source: Rows<Session>)
      ensures rows == source
    {
      rows := source;
    }

    method MaxRequestedAt() returns (m: int)
      ensures IsMax(rows, m)
    {
      m := EPOCH_1900_MS;
      var todo, started := rows.Keys, false;
      while todo != {}
        invariant todo <= rows.Keys
        invariant started <==> todo != rows.Keys
        invariant !started ==> m == EPOCH_1900_MS
        invariant started ==> (exists r :: r in rows && rows[r].requestedAt == m)
        invariant started ==> forall r :: r in rows && r !in todo ==> rows[r].requestedAt <= m
        decreases todo
      {
        var r :| r in todo;
        if !started || rows[r].requestedAt > m {
          m := rows[r].requestedAt;
        }
        todo, started := todo - {r}, true;
      }
      assert rows.Keys == {} ==> rows == map[];
    }

    method RunIncremental(source: Rows<Session>)
      modifies this
      ensures exists m :: IsMax(old(rows), m) && rows == Merged(old(rows), source, m)
    {
      var m := MaxRequestedAt();
      rows := Merged(rows, source, m);
    }
  }

  // ----------------------------------------------------- against a full rebuild

  /** Rows are added or changed, never deleted. */
  ghost predicate Grows<T>(before: Rows<T>, after: Rows<T>) {
    before.Keys <= after.Keys
  }

  ghost predicate ChangedRow<T>(before: Rows<T>, after: Rows<T>, r: string) {
    r in after && (r !in before || before[r] != after[r])
  }

  /** From a table that matches the source, one merge matches the new source exactly
      when every row added or changed since lies within the lookback. */
  lemma MergeIsRefreshIff<T>(before: Rows<T>, after: Rows<T>, max: int)
    requires Grows(before, after)
    ensures Merged(before, after, max) == after
            <==> forall r :: ChangedRow(before, after, r) ==> after[r].requestedAt >= max - 3600000
  {
    var merged := Merged(before, after, max);
    if forall r :: ChangedRow(before, after, r) ==> after[r].requestedAt >= max - 3600000 {
      forall r | r in after ensures r in merged && merged[r] == after[r] {
        assert !ChangedRow(before, after, r) ==> r in before && before[r] == after[r];
      }
      assert merged.Keys == after.Keys;
    }
    if merged == after {
      forall r | ChangedRow(before, after, r) ensures after[r].requestedAt >= max - 3600000 {
        assert merged[r] == after[r];
      }
    }
  }

  /** `facts` are the states of the table after each merge of the sources in turn. */
  ghost predicate Runs<T>(facts: seq<Rows<T>>, sources: seq<Rows<T>>) {
    && |facts| == |sources| > 0 && facts[0] == sources[0]
    && (forall i, j :: 0 <= i && j == i + 1 && j < |sources| ==>
          Grows(sources[i], sources[j]) && MergeStep(facts[i], sources[j], facts[j]))
  }

  ghost predicate MergeStep<T>(fact: Rows<T>, source: Rows<T>, next: Rows<T>) {
    exists m :: IsMax(fact, m) && next == Merged(fact, source, m)
  }

  ghost predicate DeltaInWindow<T>(before: Rows<T>, after: Rows<T>) {
    forall r, m :: ChangedRow(before, after, r) && IsMax(before, m) ==> after[r].requestedAt >= m - 3600000
  }

  /** Any number of merges: while each delta stays within the lookback of the table's
      maximum, the table equals a full rebuild. */
  lemma {:induction false} IncrementalIsFullRefresh<T>(facts: seq<Rows<T>>, sources: seq<Rows<T>>, n: nat)
    requires Runs(facts, sources) && n < |sources|
    requires forall i, j :: 0 <= i && j == i + 1 && j <= n ==> DeltaInWindow(sources[i], sources[j])
    ensures facts[n] == sources[n]
  {
    if n > 0 {
      var i := n - 1;
      IncrementalIsFullRefresh(facts, sources, i);
      assert MergeStep(facts[i], sources[n], facts[n]) && DeltaInWindow(sources[i], sources[n]);
      var m :| IsMax(facts[i], m) && facts[n] == Merged(facts[i], sources[n], m);
      MergeIsRefreshIff(sources[i], sources[n], m);
    }
  }

  /** The rows of `fact` lie where their rides lie in `source`. */
  ghost predicate Placed<T>(fact: Rows<T>, source: Rows<T>) {
    forall r :: r in fact ==> r in source && fact[r].requestedAt == source[r].requestedAt
  }

  lemma MaxNeverFalls<T>(fact: Rows<T>, source: Rows<T>, m: int, next: Rows<T>, m': int)
    requires fact != map[] && Placed(fact, source)
    requires IsMax(fact, m) && next == Merged(fact, source, m) && IsMax(next, m')
    ensures m <= m' && next != map[] && Placed(next, source)
  {
    var r :| r in fact && fact[r].requestedAt == m;
    assert r in next && next[r].requestedAt == m;
  }

  lemma PlacedLater<T>(fact: Rows<T>, before: Rows<T>, after: Rows<T>)
    requires Placed(fact, before) && Placed(before, after)
    ensures Placed(fact, after)
  {
  }

  /** When rides keep their requested_at, a ride that arrives too far behind the
      table's maximum is skipped by every later merge: only a full rebuild helps. */
  lemma {:induction false} SkippedForGood<T>(facts: seq<Rows<T>>, sources: seq<Rows<T>>, r: string, max: int, i: nat,
                                             n: nat)
    requires Runs(facts, sources) && i <= n < |sources|
    requires forall k, l :: 0 <= k && l == k + 1 && l < |sources| ==> Placed(sources[k], sources[l])
    requires facts[i] != map[] && Placed(facts[i], sources[i]) && IsMax(facts[i], max) && r !in facts[i]
    requires forall k :: i < k <= n && r in sources[k] ==> sources[k][r].requestedAt < max - 3600000
    ensures r !in facts[n] && facts[n] != map[] && Placed(facts[n], sources[n])
    ensures forall m :: IsMax(facts[n], m) ==> max <= m
  {
    if n > i {
      var k := n - 1;
      SkippedForGood(facts, sources, r, max, i, k);
      assert MergeStep(facts[k], sources[n], facts[n]);
      var m :| IsMax(facts[k], m) && facts[n] == Merged(facts[k], sources[n], m);
      PlacedLater(facts[k], sources[k], sources[n]);
      MaxExists(facts[n]);
      forall m' | IsMax(facts[n], m') ensures max <= m' {
        MaxNeverFalls(facts[k], sources[n], m, facts[n], m');
      }
      var m' :| IsMax(facts[n], m');
      MaxNeverFalls(facts[k], sources[n], m, facts[n], m');
    }
  }

  lemma {:induction false} MaxExists<T>(fact: Rows<T>)
    ensures exists m :: IsMax(fact, m)
    decreases |fact|
  {
    if fact == map[] {
      assert IsMax(fact, EPOCH_1900_MS);
    } else {
      var r :| r in fact;
      var rest := fact - {r};
      assert fact.Keys == rest.Keys + {r};
      assert |rest.Keys| < |fact.Keys|;
      MaxExists(rest);
      var m :| IsMax(rest, m);
      var top := if rest == map[] then fact[r].requestedAt else Max(m, fact[r].requestedAt);
      assert rest != map[] ==> exists q :: q in rest && rest[q].requestedAt == m;
      assert IsMax(fact, top);
    }
  }

  /** The session upsert never moves requested_ts, so no batch moves a ride's place in
      the lookback: it is fixed by the first session that arrives. */
  lemma {:induction false} BatchesKeepRequested(db: PgSink.Database, msgs: seq<PgSink.Message>, r: string)
    requires r in db.sessions && PgSink.ApplyAll(db, msgs) != None
    ensures r in PgSink.ApplyAll(db, msgs).value.sessions
    ensures PgSink.ApplyAll(db, msgs).value.sessions[r].requestedTs == db.sessions[r].requestedTs
  {
    if msgs != [] {
      BatchesKeepRequested(db, msgs[..|msgs| - 1], r);
    }
  }
}
