/** The daily uptime rollup of backend/internal/core/website/repository.go: one row per entity and
day, updated by every check.
*/
module Rollup {
  import opened Options
  import opened Rounding

  datatype Check = Check(up: bool, latency: int, failureKind: Option<string>)

  datatype Status = Operational | Degraded | Outage

  datatype Row = Row(uptime: real, downtime: int, total: int, failed: int, latency: real, status: Status,
      incident: Option<string>)

  /** `ROUND(x, 2)`. */
  function Cents(x: real): real { Round(x * 100.0) as real / 100.0 }

  function Uptime(total: int, failed: int): real
    requires total > 0
  {
    Cents((total - failed) as real / total as real * 100.0)
  }

  /** The average of `n` checks, joined by one more and rounded. */
  function Averaged(average: real, n: int, latency: int): real
    requires n >= 1
  {
    Cents((average * n as real + latency as real) / (n + 1) as real)
  }

  function StatusOf(total: int, failed: int): Status
    requires total > 0
  {
    if failed == 0 then Operational else if (total - failed) as real / total as real >= 0.95 then Degraded else Outage
  }

  /** The row the statement inserts. */
  function Inserted(c: Check): Row {
    Row(if c.up then 100.0 else 0.0, if c.up then 0 else 60, 1, if c.up then 0 else 1, c.latency as real,
        if c.up then Operational else Outage, c.failureKind)
  }

  /** What the statement makes of the row that is there. */
  function Updated(r: Row, c: Check): Row
    requires r.total >= 1
  {
    var total := r.total + 1;
    var failed := r.failed + if c.up then 0 else 1;
    Row(Uptime(total, failed),
        r.downtime + if c.up then 0 else 60,
        total,
        failed,
        Averaged(r.latency, r.total, c.latency),
        StatusOf(total, failed),
        if c.failureKind.Some? then c.failureKind else r.incident)
  }

  /** The row after a day's checks. */
  function Incremental(checks: seq<Check>): (r: Row)
    requires checks != []
    ensures r.total == |checks|
  {
    if |checks| == 1 then Inserted(checks[0]) else Updated(Incremental(checks[..|checks| - 1]), checks[|checks| - 1])
  }

  // ----- the batch definition -----

  function Failures(checks: seq<Check>): (n: nat)
    ensures n <= |checks|
    ensures n == 0 <==> forall c :: c in checks ==> c.up
  {
    if checks == [] then 0
    else
      var front, last := checks[..|checks| - 1], checks[|checks| - 1];
      assert checks == front + [last];
      Failures(front) + if last.up then 0 else 1
  }

  function Latencies(checks: seq<Check>): int {
    if checks == [] then 0 else Latencies(checks[..|checks| - 1]) + checks[|checks| - 1].latency
  }

  function LastKind(checks: seq<Check>): Option<string> {
    if checks == [] then None
    else if checks[|checks| - 1].failureKind.Some? then checks[|checks| - 1].failureKind
    else LastKind(checks[..|checks| - 1])
  }

  /** The checks that failed. */
  ghost function Failed(checks: seq<Check>): set<int> { set i | 0 <= i < |checks| && !checks[i].up }

  lemma {:induction false} FailuresCount(checks: seq<Check>)
    ensures Failures(checks) == |Failed(checks)|
  {
    if checks != [] {
      var n := |checks| - 1;
      FailuresCount(checks[..n]);
      assert Failed(checks) == Failed(checks[..n]) + if checks[n].up then {} else {n};
    }
  }

  /** The kind is that of the last check that has one. */
  ghost predicate Latest(checks: seq<Check>, kind: Option<string>) {
    || (kind.None? && forall c :: c in checks ==> c.failureKind.None?)
    || (kind.Some? && exists i :: 0 <= i < |checks| && checks[i].failureKind == kind && NoneAfter(checks, i))
  }

  ghost predicate NoneAfter(checks: seq<Check>, i: int) {
    forall j :: i < j < |checks| && 0 <= j ==> checks[j].failureKind.None?
  }

  lemma {:induction false} LastKindIsLatest(checks: seq<Check>)
    ensures Latest(checks, LastKind(checks))
  {
    if checks != [] {
      var n := |checks| - 1;
      var front := checks[..n];
      assert checks == front + [checks[n]];
      LastKindIsLatest(front);
      if checks[n].failureKind.Some? {
        assert NoneAfter(checks, n);
      } else if LastKind(front).Some? {
        var i :| 0 <= i < |front| && front[i].failureKind == LastKind(front) && NoneAfter(front, i);
        assert forall j :: i < j < n ==> checks[j] == front[j];
        assert checks[i].failureKind == LastKind(checks) && NoneAfter(checks, i);
      }
    }
  }

  /** To two decimals the percentage of `n` checks that did not fail. */
  ghost predicate IsUptime(uptime: real, n: int, f: int)
    requires n > 0
  {
    -0.005 <= uptime - (n - f) as real / n as real * 100.0 <= 0.005
  }

  /** Operational without a failure, degraded if at least 95 in 100 checks did not fail, an outage below. */
  ghost predicate IsStatus(status: Status, n: int, f: int) {
    && (status == Operational <==> f == 0)
    && (status == Degraded <==> f != 0 && 20 * (n - f) >= 19 * n)
    && (status == Outage <==> f != 0 && 20 * (n - f) < 19 * n)
  }

  lemma UptimeMeans(n: int, f: int)
    requires n > 0
    ensures IsUptime(Uptime(n, f), n, f)
  {
    CentsNear((n - f) as real / n as real * 100.0);
  }

  lemma StatusMeans(n: int, f: int)
    requires n > 0
    ensures IsStatus(StatusOf(n, f), n, f)
  {
    Quotient((n - f) as real, n);
    ShareInCounts((n - f) as real / n as real, n - f, n);
    StatusCases(n, f);
  }

  lemma ShareInCounts(share: real, k: int, n: int)
    requires n > 0 && share * n as real == k as real
    ensures share >= 0.95 <==> 20 * k >= 19 * n
  {
    Scales(0.95, share, n as real);
    InTwentieths(k, n);
  }

  lemma InTwentieths(k: int, n: int)
    ensures k as real >= 0.95 * n as real <==> 20 * k >= 19 * n
  {
    assert (20 * k) as real == 20.0 * k as real;
    assert (19 * n) as real == 19.0 * n as real;
  }

  lemma StatusCases(n: int, f: int)
    requires n > 0 && ((n - f) as real / n as real >= 0.95 <==> 20 * (n - f) >= 19 * n)
    ensures IsStatus(StatusOf(n, f), n, f)
  {
  }

  lemma Scales(x: real, y: real, a: real)
    requires a > 0.0
    ensures x <= y <==> x * a <= y * a
  {
    if x < y { assert (y - x) * a > 0.0; }
    if y < x { assert (x - y) * a > 0.0; }
  }

  lemma CentsOf(n: int)
    ensures Cents(n as real) == n as real
  {
    assert n as real * 100.0 == (n * 100) as real;
    RoundExact(n * 100);
  }

  /** After any checks of a day every figure but the average latency is exactly what one would
      compute from all of them at once. */
  lemma IncrementalIsBatch(checks: seq<Check>)
    requires checks != []
    ensures var r := Incremental(checks); var n, f := |checks|, Failures(checks);
            && r.total == n && r.failed == f == |Failed(checks)| && r.downtime == 60 * f
            && r.uptime == Uptime(n, f) && IsUptime(r.uptime, n, f) && IsStatus(r.status, n, f)
            && r.incident == LastKind(checks) && Latest(checks, r.incident)
  {
    hide IsUptime, IsStatus, Latest, Failed, Averaged;
    FailuresCount(checks);
    LastKindIsLatest(checks);
    UptimeMeans(|checks|, Failures(checks));
    StatusMeans(|checks|, Failures(checks));
    Figures(checks);
  }

  lemma {:induction false} Figures(checks: seq<Check>)
    requires checks != []
    ensures var r := Incremental(checks); var n, f := |checks|, Failures(checks);
            && r.total == n && r.failed == f && r.downtime == 60 * f && r.uptime == Uptime(n, f)
            && r.status == StatusOf(n, f) && r.incident == LastKind(checks)
  {
    hide Averaged;
    var n := |checks| - 1;
    var front, last := checks[..n], checks[n];
    if n == 0 {
      assert front == [];
      CentsOf(0);
      CentsOf(100);
    } else {
      Figures(front);
    }
  }

  // ----- the average -----

  /** How far the stored average times the number of checks can be from their sum. */
  function Slack(n: int): real { 0.005 * ((n * (n + 1) / 2 - 1) as real) }

  lemma SlackGrows(n: int)
    requires n >= 1
    ensures Slack(n + 1) == Slack(n) + 0.005 * (n + 1) as real
  {
    var before, after := n * (n + 1), (n + 1) * (n + 1 + 1);
    assert after == before + 2 * (n + 1);
    HalfMore(before, n + 1);
    Scaled(before / 2 - 1, n + 1);
  }

  lemma HalfMore(x: int, k: int)
    ensures (x + 2 * k) / 2 == x / 2 + k
  {
  }

  lemma Scaled(x: int, k: int)
    ensures 0.005 * ((x + k) as real) == 0.005 * (x as real) + 0.005 * k as real
  {
  }

  lemma CentsNear(x: real)
    ensures -0.005 <= Cents(x) - x <= 0.005
  {
    RoundNear(x * 100.0);
  }

  lemma Rounded(a: real, q: real, n: int)
    requires n >= 0 && -0.005 <= a - q <= 0.005
    ensures -(0.005 * n as real) <= a * n as real - q * n as real <= 0.005 * n as real
  {
  }

  lemma Quotient(x: real, n: int)
    requires n > 0
    ensures x / n as real * n as real == x
  {
  }

  lemma {:induction false} Drift(checks: seq<Check>)
    requires checks != []
    ensures var n := |checks|; var a := Incremental(checks).latency;
            -Slack(n) <= a * n as real - Latencies(checks) as real <= Slack(n)
  {
    hide Averaged, Slack, Uptime, StatusOf;
    var m := |checks| - 1;
    var front, last := checks[..m], checks[m];
    if m == 0 {
      assert front == [];
      SlackStart();
      assert Incremental(checks).latency == last.latency as real && Latencies(checks) == last.latency;
      Once(last.latency as real, |checks|);
    } else {
      Drift(front);
      var a := Incremental(front).latency;
      assert Incremental(checks) == Updated(Incremental(front), last);
      assert Incremental(checks).latency == Averaged(a, m, last.latency);
      assert Latencies(checks) == Latencies(front) + last.latency;
      hide Incremental, Latencies;
      DriftStep(a, m, Latencies(front), last.latency);
    }
  }

  lemma DriftStep(a: real, m: nat, sum: int, latency: int)
    requires m >= 1 && -Slack(m) <= a * m as real - sum as real <= Slack(m)
    ensures -Slack(m + 1) <= Averaged(a, m, latency) * (m + 1) as real - (sum + latency) as real <= Slack(m + 1)
  {
    hide Cents, Slack;
    var n := m + 1;
    var carried := a * m as real;
    var q := (carried + latency as real) / n as real;
    CentsNear(q);
    assert Averaged(a, m, latency) == Cents(q);
    RoundedQuotient(Cents(q), q, carried + latency as real, n);
    SlackGrows(m);
    Within(Cents(q) * n as real, carried, sum as real, latency as real, 0.005 * n as real, Slack(m));
  }

  lemma RoundedQuotient(stored: real, q: real, x: real, n: int)
    requires n > 0 && q == x / n as real && -0.005 <= stored - q <= 0.005
    ensures -(0.005 * n as real) <= stored * n as real - x <= 0.005 * n as real
  {
    Rounded(stored, q, n);
    Quotient(x, n);
  }

  lemma Within(stored: real, carried: real, sum: real, latency: real, rounding: real, slack: real)
    requires -rounding <= stored - (carried + latency) <= rounding && -slack <= carried - sum <= slack
    ensures -(slack + rounding) <= stored - (sum + latency) <= slack + rounding
  {
  }

  lemma Once(x: real, n: int)
    requires n == 1
    ensures x * n as real == x
  {
  }

  lemma SlackStart()
    ensures Slack(1) == 0.0
  {
  }

  function Mean(checks: seq<Check>): real
    requires checks != []
  {
    Latencies(checks) as real / |checks| as real
  }

  function Bound(n: int): real
    requires n >= 1
  {
    0.0025 * (n as real + 1.0) - 0.005 / n as real
  }

  /** The stored average, rounded again at every check, is within 0.0025 * (n + 1) milliseconds of
      the true mean of n checks; more precisely within 0.005 / n less than that. */
  lemma AverageDrifts(checks: seq<Check>)
    requires checks != []
    ensures -Bound(|checks|) <= Incremental(checks).latency - Mean(checks) <= Bound(|checks|)
    ensures Bound(|checks|) < 0.0025 * (|checks| as real + 1.0)
  {
    hide Incremental, Latencies, Slack, Bound;
    Drift(checks);
    var n := |checks|;
    MeanNear(Incremental(checks).latency, Latencies(checks), n);
    BoundBelow(|checks|);
  }

  lemma BoundBelow(n: int)
    requires n >= 1
    ensures Bound(n) < 0.0025 * (n as real + 1.0)
  {
    assert 0.005 / n as real > 0.0;
  }

  lemma MeanNear(a: real, sum: int, n: int)
    requires n >= 1 && -Slack(n) <= a * n as real - sum as real <= Slack(n)
    ensures -Bound(n) <= a - sum as real / n as real <= Bound(n)
  {
    hide Slack;
    SlackShape(n);
    hide Bound;
    PerCheck(a, sum as real, n, Slack(n), Bound(n));
  }

  lemma SlackShape(n: int)
    requires n >= 1
    ensures Slack(n) == Bound(n) * n as real
  {
    assert n * (n + 1) % 2 == 0 by { Even(n); }
    assert (n * (n + 1) / 2) as real == n as real * (n as real + 1.0) / 2.0;
    Quotient(0.005, n);
  }

  lemma Even(n: int)
    ensures n * (n + 1) % 2 == 0
  {
    if n % 2 == 0 {
      assert n == 2 * (n / 2);
      assert n * (n + 1) == 2 * (n / 2 * (n + 1));
    } else {
      assert n + 1 == 2 * ((n + 1) / 2);
      assert n * (n + 1) == 2 * (n * ((n + 1) / 2));
    }
  }

  lemma PerCheck(a: real, sum: real, n: int, slack: real, bound: real)
    requires n >= 1 && -slack <= a * n as real - sum <= slack && slack == bound * n as real
    ensures -bound <= a - sum / n as real <= bound
  {
    Quotient(sum, n);
    Cancel(a - sum / n as real, bound, n as real);
    Cancel(sum / n as real - a, bound, n as real);
  }

  lemma Cancel(x: real, y: real, n: real)
    requires n > 0.0 && x * n <= y * n
    ensures x <= y
  {
  }

  // ----- the table -----

  /** An entity and a date. */
  type Key = (nat, nat)

  function Upserted(rows: map<Key, Row>, key: Key, c: Check): map<Key, Row>
    requires forall k :: k in rows ==> rows[k].total >= 1
  {
    rows[key := if key in rows then Updated(rows[key], c) else Inserted(c)]
  }

  function Table(checks: seq<(Key, Check)>): (rows: map<Key, Row>)
    ensures forall k :: k in rows ==> rows[k].total >= 1
  {
    if checks == [] then map[]
    else Upserted(Table(checks[..|checks| - 1]), checks[|checks| - 1].0, checks[|checks| - 1].1)
  }

  function ChecksOf(checks: seq<(Key, Check)>, key: Key): seq<Check> {
    if checks == [] then []
    else ChecksOf(checks[..|checks| - 1], key) + if checks[|checks| - 1].0 == key then [checks[|checks| - 1].1] else []
  }

  lemma IncrementalSnoc(checks: seq<Check>, c: Check)
    ensures Incremental(checks + [c]) == if checks == [] then Inserted(c) else Updated(Incremental(checks), c)
  {
    assert (checks + [c])[..|checks|] == checks;
  }

  /** A row depends on its own entity's checks of its own day, in their order, and on nothing else. */
  lemma {:induction false} RowsAreSeparate(checks: seq<(Key, Check)>, key: Key)
    ensures key in Table(checks) <==> ChecksOf(checks, key) != []
    ensures key in Table(checks) ==> Table(checks)[key] == Incremental(ChecksOf(checks, key))
  {
    hide Updated, Inserted, Incremental;
    if checks != [] {
      var front, last := checks[..|checks| - 1], checks[|checks| - 1];
      RowsAreSeparate(front, key);
      var own := ChecksOf(front, key);
      IncrementalSnoc(own, last.1);
      assert own + [] == own;
    }
  }

  lemma OwnChecks(checks: seq<(Key, Check)>, key: Key, c: Check, other: Key)
    ensures ChecksOf(checks + [(key, c)], other) ==
            if key == other then ChecksOf(checks, other) + [c] else ChecksOf(checks, other)
  {
    assert (checks + [(key, c)])[..|checks|] == checks;
  }

  lemma TableSnoc(checks: seq<(Key, Check)>, key: Key, c: Check)
    ensures Table(checks + [(key, c)]) == Upserted(Table(checks), key, c)
  {
    assert (checks + [(key, c)])[..|checks|] == checks;
  }

  /** The row has the figures of these checks taken together, the average within its bound. */
  ghost predicate Summarises(r: Row, checks: seq<Check>) {
    && checks != []
    && var n, f := |checks|, |Failed(checks)|;
    && r.total == n && r.failed == f && r.downtime == 60 * f && IsUptime(r.uptime, n, f) && IsStatus(r.status, n, f)
    && Latest(checks, r.incident)
    && -0.0025 * (n as real + 1.0) < r.latency - Mean(checks) < 0.0025 * (n as real + 1.0)
  }

  class RollupTable {
    var rows: map<Key, Row>
    ghost var checks: seq<(Key, Check)>

    ghost predicate Valid() reads this { rows == Table(checks) }

    constructor ()
      ensures Valid() && checks == [] && rows == map[]
    {
      rows := map[];
      checks := [];
    }

    /** Every row sums up the checks of its own entity and day, and there is one for each that has any. */
    lemma Rows(key: Key)
      requires Valid()
      ensures key in rows <==> ChecksOf(checks, key) != []
      ensures key in rows ==> rows[key].total >= 1 && Summarises(rows[key], ChecksOf(checks, key))
    {
      hide Updated, Inserted, Incremental, Failures, LastKind, Uptime, StatusOf, Bound, Mean, Failed, IsUptime,
          IsStatus, Latest;
      RowsAreSeparate(checks, key);
      if key in rows {
        IncrementalIsBatch(ChecksOf(checks, key));
        AverageDrifts(ChecksOf(checks, key));
      }
    }

    /** Afterwards the row sums up its checks and this one; no other row has changed. */
    method Upsert(key: Key, c: Check)
      requires Valid()
      modifies this
      ensures Valid() && checks == old(checks) + [(key, c)]
      ensures key in rows && Summarises(rows[key], ChecksOf(old(checks), key) + [c])
      ensures rows.Keys == old(rows).Keys + {key} && forall k :: k in old(rows) && k != key ==> rows[k] == old(rows)[k]
    {
      hide Uptime, Averaged, StatusOf, Summarises, ChecksOf;
      ghost var before := rows;
      Rows(key);
      TableSnoc(checks, key, c);
      OwnChecks(checks, key, c, key);
      checks := checks + [(key, c)];
      if key !in rows {
        rows := rows[key := Row(if c.up then 100.0 else 0.0, if c.up then 0 else 60, 1, if c.up then 0 else 1,
                                c.latency as real, if c.up then Operational else Outage, c.failureKind)];
        Rows(key);
        return;
      }
      var r := rows[key];
      var total, failed := r.total + 1, r.failed + if c.up then 0 else 1;
      var uptime := Uptime(total, failed);
      var latency := Averaged(r.latency, r.total, c.latency);
      var status := StatusOf(total, failed);
      var incident := if c.failureKind.Some? then c.failureKind else r.incident;
      var downtime := r.downtime + if c.up then 0 else 60;
      var updated := Row(uptime, downtime, total, failed, latency, status, incident);
      rows := rows[key := updated];
      Rows(key);
    }
  }
}
