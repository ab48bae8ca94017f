/** Network diagnostics of backend/internal/core/server/network_diagnostics.go: what a probe of a
target reports, what is stored of it, and the groups made of live probes or of stored results.
*/
module NetworkReport {
  import opened Options
  import opened Rounding
  import opened Text

  const PROBES_PER_TARGET := 5
  const LATENCY_WARNING := 50.0
  const LATENCY_CRITICAL := 150.0
  const LOSS_CRITICAL := 20.0

  // ----- rounding -----

  /** To one decimal. */
  function Tenths(x: real): real { Round(x * 10.0) as real / 10.0 }

  predicate OneDecimal(x: real) { (x * 10.0).Floor as real == x * 10.0 }

  lemma TenthsStayWithin(x: real, lo: real, hi: real)
    requires lo <= x <= hi && OneDecimal(lo) && OneDecimal(hi)
    ensures lo <= Tenths(x) <= hi && OneDecimal(Tenths(x))
  {
    var n := Round(x * 10.0);
    RoundMonotone(lo * 10.0, x * 10.0);
    RoundMonotone(x * 10.0, hi * 10.0);
    RoundExact((lo * 10.0).Floor);
    RoundExact((hi * 10.0).Floor);
    hide Round;
    TenthIsOneDecimal(n);
  }

  lemma TenthsNear(x: real)
    ensures -0.05 <= Tenths(x) - x <= 0.05
  {
    RoundNear(x * 10.0);
  }

  lemma TenthIsOneDecimal(n: int)
    ensures OneDecimal(n as real / 10.0)
  {
    assert n as real / 10.0 * 10.0 == n as real;
  }

  // ----- TCP probes -----

  datatype TcpResult = TcpResult(total: int, success: int, failed: int, avg: real, min: real, max: real)

  function Sum(s: seq<real>): real {
    if s == [] then 0.0 else Sum(s[..|s| - 1]) + s[|s| - 1]
  }

  lemma {:induction false} SumWithin(s: seq<real>, lo: real, hi: real)
    requires forall x :: x in s ==> lo <= x <= hi
    ensures lo * |s| as real <= Sum(s) <= hi * |s| as real
  {
    if s != [] {
      var front := s[..|s| - 1];
      assert s[|s| - 1] in s && forall x :: x in front ==> x in s;
      SumWithin(front, lo, hi);
      Scale(lo, |s| - 1);
      Scale(hi, |s| - 1);
    }
  }

  lemma Scale(x: real, n: int)
    ensures x * (n + 1) as real == x * n as real + x
  {
  }

  lemma MeanWithin(sum: real, n: nat, lo: real, hi: real)
    requires n > 0 && lo * n as real <= sum <= hi * n as real
    ensures lo <= sum / n as real <= hi
  {
  }

  /** A connection's time in milliseconds, to one decimal and at least 0.1. */
  function Elapsed(seconds: real): (ms: real)
    ensures OneDecimal(ms) && ms >= 0.1
    ensures if seconds * 1000.0 < 0.05 then ms == 0.1 else -0.05 <= ms - seconds * 1000.0 <= 0.05
  {
    RoundNear(seconds * 10000.0);
    var ms := Round(seconds * 10000.0) as real / 10.0;
    if ms < 0.1 then 0.1 else ms
  }

  /** The times of the connections that were made; a failed attempt has none. */
  function Times(attempts: seq<Option<real>>): (r: seq<real>)
    ensures |r| <= |attempts| && forall t :: t in r ==> t >= 0.1 && OneDecimal(t)
  {
    if attempts == [] then []
    else
      var last := attempts[|attempts| - 1];
      Times(attempts[..|attempts| - 1]) + if last.Some? then [Elapsed(last.value)] else []
  }

  /** The attempts that made a connection. */
  ghost function Connected(attempts: seq<Option<real>>): set<int> {
    set i | 0 <= i < |attempts| && attempts[i].Some?
  }

  lemma ConnectedLast(attempts: seq<Option<real>>)
    ensures forall i :: i in Connected(attempts) ==> 0 <= i < |attempts| && attempts[i].Some?
    ensures attempts == [] ==> Connected(attempts) == {}
    ensures attempts != [] ==>
              var n := |attempts| - 1;
              && Connected(attempts) == Connected(attempts[..n]) + (if attempts[n].Some? then {n} else {})
              && n !in Connected(attempts[..n])
  {
    if attempts != [] {
      var n := |attempts| - 1;
      assert Connected(attempts) == Connected(attempts[..n]) + if attempts[n].Some? then {n} else {};
    }
  }

  /** The times are those of the connections that were made, one for each. */
  lemma {:induction false} TimesOfConnected(attempts: seq<Option<real>>)
    ensures |Times(attempts)| == |Connected(attempts)|
    ensures forall i :: i in Connected(attempts) ==> Elapsed(attempts[i].value) in Times(attempts)
    ensures forall t :: t in Times(attempts) ==> exists i :: i in Connected(attempts) && t == Elapsed(attempts[i].value)
  {
    hide Elapsed, Connected;
    ConnectedLast(attempts);
    if attempts != [] {
      var n := |attempts| - 1;
      var front := attempts[..n];
      TimesOfConnected(front);
      forall t | t in Times(attempts) ensures exists i :: i in Connected(attempts) && t == Elapsed(attempts[i].value) {
        if t in Times(front) {
          var i :| i in Connected(front) && t == Elapsed(front[i].value);
          assert i in Connected(attempts) && t == Elapsed(attempts[i].value);
        } else {
          assert n in Connected(attempts) && t == Elapsed(attempts[n].value);
        }
      }
    }
  }

  /** The attempts are the outcomes of the connections; an address that cannot be resolved or may
      not be probed gets no attempt at all. */
  method RunTcpProbe(attempts: seq<Option<real>>, permitted: bool) returns (r: TcpResult)
    ensures r.total == |attempts| && r.success + r.failed == r.total
    ensures r.success == if permitted then |Connected(attempts)| else 0
    ensures r.success > 0 ==>
      && -0.05 <= r.avg - Sum(Times(attempts)) / r.success as real <= 0.05
      && r.min in Times(attempts) && r.max in Times(attempts) && 0.1 <= r.min <= r.avg <= r.max && OneDecimal(r.avg)
      && (forall t :: t in Times(attempts) ==> r.min <= t <= r.max)
    ensures r.success == 0 ==> r.avg == 0.0 && r.min == 0.0 && r.max == 0.0
  {
    hide Elapsed, OneDecimal;
    var total := |attempts|;
    if !permitted { return TcpResult(total, 0, total, 0.0, 0.0, 0.0); }
    var failed := 0;
    var latencies: seq<real> := [];
    for i := 0 to total
      invariant latencies == Times(attempts[..i]) && |latencies| + failed == i
    {
      assert attempts[..i + 1][..i] == attempts[..i];
      if attempts[i].None? {
        failed := failed + 1;
      } else {
        latencies := latencies + [Elapsed(attempts[i].value)];
      }
    }
    assert attempts[..total] == attempts;
    TimesOfConnected(attempts);
    if |latencies| == 0 { return TcpResult(total, total - failed, failed, 0.0, 0.0, 0.0); }
    var avg, min, max := Statistics(latencies);
    r := TcpResult(total, total - failed, failed, avg, min, max);
  }

  method Statistics(latencies: seq<real>) returns (avg: real, min: real, max: real)
    requires |latencies| > 0 && forall l :: l in latencies ==> OneDecimal(l)
    ensures min in latencies && max in latencies && forall l :: l in latencies ==> min <= l <= max
    ensures -0.05 <= avg - Sum(latencies) / |latencies| as real <= 0.05
    ensures min <= avg <= max && OneDecimal(avg)
  {
    hide OneDecimal, Tenths, Sum;
    var sum := 0.0;
    SumStart();
    min, max := latencies[0], latencies[0];
    for j := 0 to |latencies|
      invariant sum == Sum(latencies[..j])
      invariant min in latencies && max in latencies
      invariant min <= latencies[0] <= max && forall k :: 0 <= k < j ==> min <= latencies[k] <= max
    {
      SumSnoc(latencies, j);
      sum := sum + latencies[j];
      if latencies[j] < min { min := latencies[j]; }
      if latencies[j] > max { max := latencies[j]; }
    }
    assert latencies[..|latencies|] == latencies;
    MeanBetween(latencies, min, max);
    TenthsNear(Sum(latencies) / |latencies| as real);
    avg := Tenths(sum / |latencies| as real);
  }

  lemma SumStart()
    ensures Sum([]) == 0.0
  {
  }

  lemma SumSnoc(s: seq<real>, j: nat)
    requires j < |s|
    ensures Sum(s[..j + 1]) == Sum(s[..j]) + s[j]
  {
    assert s[..j + 1][..j] == s[..j];
  }

  lemma MeanBetween(latencies: seq<real>, min: real, max: real)
    requires |latencies| > 0 && OneDecimal(min) && OneDecimal(max) && forall l :: l in latencies ==> min <= l <= max
    ensures var mean := Tenths(Sum(latencies) / |latencies| as real); min <= mean <= max && OneDecimal(mean)
  {
    hide OneDecimal, Tenths, Sum;
    SumWithin(latencies, min, max);
    MeanWithin(Sum(latencies), |latencies|, min, max);
    TenthsStayWithin(Sum(latencies) / |latencies| as real, min, max);
  }

  // ----- targets and probes -----

  datatype Target = Target(tag: string, protocol: string, probesPerRun: int, latencyWarning: Option<real>,
                           latencyCritical: Option<real>, lossCritical: Option<real>, enabled: bool, isGateway: bool)

  function UpperChar(c: char): char { if 'a' <= c <= 'z' then c - 'a' + 'A' else c }

  /** Upper case of the letters that matter in a comparison with "TCP". */
  function Upper(s: string): string {
    seq(|s|, i requires 0 <= i < |s| => UpperChar(s[i]))
  }

  function TagOf(tag: string): string { if TrimSpace(tag) == "" then "default" else TrimSpace(tag) }

  function ProtocolOf(protocol: string): string { if Upper(TrimSpace(protocol)) == "TCP" then "TCP" else "ICMP" }

  /** What the repository stores of a target. */
  function Saved(t: Target): Target {
    t.(tag := TagOf(t.tag), protocol := ProtocolOf(t.protocol),
        probesPerRun := if t.probesPerRun <= 0 then PROBES_PER_TARGET else t.probesPerRun)
  }

  lemma PlainStays(s: string)
    requires |s| > 0 && 'A' <= s[0] <= 'z' && 'A' <= s[|s| - 1] <= 'z'
    ensures TrimSpace(s) == s
  {
    assert !IsSpace(s[0]) && !IsSpace(s[|s| - 1]);
    TrimmedStays(s);
  }

  lemma UpperStays(s: string)
    requires forall i :: 0 <= i < |s| ==> 'A' <= s[i] <= 'Z'
    ensures Upper(s) == s
  {
  }

  lemma TagStays(tag: string)
    ensures TagOf(TagOf(tag)) == TagOf(tag) && TagOf(tag) != ""
  {
    hide IsSpace, TrimLeft, TrimRight;
    var trimmed := TrimSpace(tag);
    hide TrimSpace;
    if trimmed == "" { PlainStays(TagOf(tag)); } else { TrimmedStays(trimmed); }
  }

  lemma ProtocolStays(protocol: string)
    ensures ProtocolOf(ProtocolOf(protocol)) == ProtocolOf(protocol)
  {
    hide IsSpace, TrimSpace, Upper;
    PlainStays(ProtocolOf(protocol));
    UpperStays(ProtocolOf(protocol));
  }

  /** Probing normalises a target's tag and protocol; of a stored target it changes nothing. */
  lemma SavedStays(t: Target)
    ensures TagOf(Saved(t).tag) == Saved(t).tag && ProtocolOf(Saved(t).protocol) == Saved(t).protocol
            && Saved(t).tag != ""
    ensures Saved(t) == t.(tag := Saved(t).tag, protocol := Saved(t).protocol,
        probesPerRun := if t.probesPerRun < 1 then 5 else t.probesPerRun)
  {
    hide TagOf, ProtocolOf;
    TagStays(t.tag);
    ProtocolStays(t.protocol);
  }

  /** A completed ping run. */
  datatype Ping = Ping(total: int, received: int, lost: int, lossPercent: real, avg: real, min: real, max: real)

  /** What probing a target would find: the ping run unless ping is unavailable, and TCP. */
  datatype Outcome = Outcome(ping: Option<Ping>, tcp: TcpResult)

  datatype Status = Optimal | Warning | Critical | Reachable | Unreachable | Unavailable

  datatype Probe = Probe(tag: string, protocol: string, total: int, success: int, failed: int, loss: Option<real>,
                         latency: real, min: real, max: real, status: Status)

  function Or(configured: Option<real>, fallback: real): real {
    if configured.Some? && configured.value > 0.0 then configured.value else fallback
  }

  /** `evaluateTargetStatus` of a pinged target. */
  function TargetStatus(t: Target, loss: real, latency: real): Status {
    var warning := Or(t.latencyWarning, if t.isGateway then 20.0 else LATENCY_WARNING);
    var critical := Or(t.latencyCritical, if t.isGateway then 80.0 else LATENCY_CRITICAL);
    var lossCritical := Or(t.lossCritical, LOSS_CRITICAL);
    if loss >= lossCritical || latency > critical then Critical
    else if loss > 0.0 || latency > warning then Warning
    else Optimal
  }

  predicate Pinged(t: Target, o: Outcome) { ProtocolOf(t.protocol) == "ICMP" && o.ping.Some? && o.ping.value.total > 0 }

  /** An ICMP target whose ping was unavailable is probed over TCP. */
  predicate FallsBack(t: Target, o: Outcome) { ProtocolOf(t.protocol) == "ICMP" && !Pinged(t, o) }

  /** `probeTarget`. */
  function ProbeOf(t: Target, o: Outcome): Probe {
    if Pinged(t, o) then
      var p := o.ping.value;
      var loss := Tenths(p.lossPercent);
      Probe(TagOf(t.tag), "ICMP", p.total, p.received, p.lost, Some(loss), Tenths(p.avg), Tenths(p.min), Tenths(p.max),
            TargetStatus(t, loss, Tenths(p.avg)))
    else
      var r := o.tcp;
      Probe(TagOf(t.tag), "TCP", r.total, r.success, r.failed, None, r.avg, r.min, r.max,
          if r.success > 0 then Reachable else Unreachable)
  }

  /** The target's own setting if it is positive, and the default otherwise. */
  ghost predicate Setting(limit: real, own: Option<real>, fallback: real) {
    limit == if own.Some? && own.value > 0.0 then own.value else fallback
  }

  /** Critical if the loss reaches its limit or the latency exceeds the critical one, else a warning for any
      loss or a latency above the warning limit, else optimal. */
  ghost predicate TargetJudged(status: Status, loss: real, latency: real, lossLimit: real, warning: real,
      critical: real) {
    && (status == Critical <==> loss >= lossLimit || latency > critical)
    && (status == Warning <==> loss < lossLimit && latency <= critical && (loss > 0.0 || latency > warning))
    && (status == Optimal <==> loss < lossLimit && latency <= critical && loss <= 0.0 && latency <= warning)
  }

  ghost predicate Near(x: real, y: real) { -0.05 <= x - y <= 0.05 }

  /** The protocol of a target is TCP in any mixture of cases, or else ICMP. */
  lemma TcpNames(protocol: string)
    ensures var name := TrimSpace(protocol);
            ProtocolOf(protocol) == "TCP" <==> |name| == 3 && name[0] in "tT" && name[1] in "cC" && name[2] in "pP"
  {
    hide TrimSpace;
    var name := TrimSpace(protocol);
    var upper := Upper(name);
    assert upper == "TCP" <==> |upper| == 3 && upper[0] == 'T' && upper[1] == 'C' && upper[2] == 'P';
    if |name| == 3 {
      OneLetter(name[0], 't');
      OneLetter(name[1], 'c');
      OneLetter(name[2], 'p');
    }
  }

  lemma OneLetter(c: char, lower: char)
    requires 'a' <= lower <= 'z'
    ensures UpperChar(c) == UpperChar(lower) <==> c in [lower, lower - 'a' + 'A']
  {
  }

  /** `probeTarget`: the ping if the target is not a TCP one and ping is available, and TCP otherwise. */
  method ProbeTarget(t: Target, o: Outcome) returns (p: Probe)
    ensures p == ProbeOf(t, o)
    ensures p.tag == if TrimSpace(t.tag) == "" then "default" else TrimSpace(t.tag)
    ensures p.protocol == if ProtocolOf(t.protocol) != "TCP" && o.ping.Some? && o.ping.value.total > 0 then "ICMP"
            else "TCP"
    ensures p.protocol == "TCP" ==>
              && p.total == o.tcp.total && p.success == o.tcp.success && p.failed == o.tcp.failed && p.loss.None?
              && p.latency == o.tcp.avg && p.min == o.tcp.min && p.max == o.tcp.max
              && p.status == if o.tcp.success > 0 then Reachable else Unreachable
    ensures p.protocol == "ICMP" ==>
              && var ping := o.ping.value;
              && p.total == ping.total && p.success == ping.received && p.failed == ping.lost
              && p.loss.Some? && Near(p.loss.value, ping.lossPercent)
              && Near(p.latency, ping.avg) && Near(p.min, ping.min) && Near(p.max, ping.max)
              && forall lossLimit, warning, critical ::
                   Setting(lossLimit, t.lossCritical, 20.0)
                       && Setting(warning, t.latencyWarning, if t.isGateway then 20.0 else 50.0)
                       && Setting(critical, t.latencyCritical, if t.isGateway then 80.0 else 150.0) ==>
                     TargetJudged(p.status, p.loss.value, p.latency, lossLimit, warning, critical)
  {
    hide Tenths, TrimSpace, Upper;
    var tag := TrimSpace(t.tag);
    if tag == "" { tag := "default"; }
    var protocol := Upper(TrimSpace(t.protocol));
    if protocol != "TCP" { protocol := "ICMP"; }
    if protocol == "ICMP" && o.ping.Some? && o.ping.value.total > 0 {
      var ping := o.ping.value;
      TenthsNear(ping.lossPercent);
      TenthsNear(ping.avg);
      TenthsNear(ping.min);
      TenthsNear(ping.max);
      var loss := Tenths(ping.lossPercent);
      return Probe(tag, "ICMP", ping.total, ping.received, ping.lost, Some(loss), Tenths(ping.avg), Tenths(ping.min),
                   Tenths(ping.max), TargetStatus(t, loss, Tenths(ping.avg)));
    }
    return Probe(tag, "TCP", o.tcp.total, o.tcp.success, o.tcp.failed, None, o.tcp.avg, o.tcp.min, o.tcp.max,
                 if o.tcp.success > 0 then Reachable else Unreachable);
  }

  datatype Result = Result(latency: Option<real>, min: Option<real>, max: Option<real>, loss: Option<real>,
                           total: int, success: int, failed: int, status: Status)

  /** The row `ProbeSingleTarget` has stored. */
  function ResultOf(p: Probe): Result {
    var measured := p.success > 0;
    Result(if measured then Some(p.latency) else None, if measured then Some(p.min) else None,
           if measured then Some(p.max) else None,
           p.loss, p.total, p.success, p.failed, p.status)
  }

  function ValueOr(x: Option<real>, fallback: real): real { if x.Some? then x.value else fallback }

  /** The probe `BuildDiagnosticReportFromTargets` reconstructs. */
  function Rebuilt(t: Target, latest: Option<Result>): Probe {
    if latest.None? then Probe(t.tag, t.protocol, 0, 0, 0, None, 0.0, 0.0, 0.0, Optimal)
    else
      var r := latest.value;
      Probe(t.tag, t.protocol, r.total, r.success, r.failed, r.loss, ValueOr(r.latency, 0.0), ValueOr(r.min, 0.0),
          ValueOr(r.max, 0.0), r.status)
  }

  // ----- a group -----

  /** Sums over the probes of one method; latencies count once per successful probe. */
  datatype Part = Part(count: nat, total: int, failed: int, weighted: real, success: nat)

  datatype Tally = Tally(total: int, success: int, failed: int, icmp: Part, tcp: Part)

  function NoPart(): Part { Part(0, 0, 0, 0.0, 0) }
  function NoTally(): Tally { Tally(0, 0, 0, NoPart(), NoPart()) }

  function PlusPart(a: Part, b: Part): Part {
    Part(a.count + b.count, a.total + b.total, a.failed + b.failed, a.weighted + b.weighted, a.success + b.success)
  }

  function Plus(a: Tally, b: Tally): Tally {
    Tally(a.total + b.total, a.success + b.success, a.failed + b.failed, PlusPart(a.icmp, b.icmp),
        PlusPart(a.tcp, b.tcp))
  }

  function PartOf(p: Probe): Part {
    if p.success > 0 then Part(1, p.total, p.failed, p.latency * p.success as real, p.success)
        else Part(1, p.total, p.failed, 0.0, 0)
  }

  predicate Icmp(p: Probe) { p.protocol == "ICMP" }

  function TallyOf(p: Probe): Tally {
    Tally(p.total, p.success, p.failed, if Icmp(p) then PartOf(p) else NoPart(),
        if Icmp(p) then NoPart() else PartOf(p))
  }

  function ProbesTally(s: seq<Probe>): Tally {
    if s == [] then NoTally() else Plus(ProbesTally(s[..|s| - 1]), TallyOf(s[|s| - 1]))
  }

  datatype Pillar = Pillar(status: Status, latency: real, loss: Option<real>, total: int, success: int, failed: int,
      protocol: string)

  function Percent(failed: int, total: int): real
    requires total > 0
  {
    Round(failed as real / total as real * 1000.0) as real / 10.0
  }

  function PartLatency(p: Part): real {
    if p.success > 0 then Tenths(p.weighted / p.success as real) else 0.0
  }

  /** The aggregate of a tally, not yet evaluated. */
  function PillarOf(t: Tally): Pillar {
    Pillar(Unavailable,
           if t.icmp.count > 0 then PartLatency(t.icmp) else PartLatency(t.tcp),
           if t.icmp.count > 0 && t.icmp.total > 0 then Some(Percent(t.icmp.failed, t.icmp.total)) else None,
           t.total, t.success, t.failed,
           if t.icmp.count > 0 && t.tcp.count > 0 then "MIXED" else if t.tcp.count > 0 then "TCP" else "ICMP")
  }

  /** `evaluatePillarStatus`. */
  function Evaluated(p: Pillar, lossCritical: real, warning: real, critical: real): Pillar {
    p.(status :=
      if p.total == 0 || p.success == 0 then Unavailable
      else if (p.loss.Some? && p.loss.value >= lossCritical) || p.latency > critical then Critical
      else if (p.loss.Some? && p.loss.value > 0.0) || p.latency > warning then Warning
      else if p.loss.None? then Reachable
      else Optimal)
  }

  function Part1(s: seq<Probe>): Part {
    if s == [] then NoPart() else PlusPart(Part1(s[..|s| - 1]), PartOf(s[|s| - 1]))
  }

  function OfMethod(s: seq<Probe>, icmp: bool): seq<Probe> {
    if s == [] then []
    else
      var front := OfMethod(s[..|s| - 1], icmp);
      if Icmp(s[|s| - 1]) == icmp then front + [s[|s| - 1]] else front
  }

  lemma Part1Append(s: seq<Probe>, p: Probe)
    ensures Part1(s + [p]) == PlusPart(Part1(s), PartOf(p))
  {
    assert (s + [p])[..|s|] == s;
  }

  lemma {:induction false} TallyOfPart(s: seq<Probe>, icmp: bool)
    ensures PartIn(ProbesTally(s), icmp) == Part1(OfMethod(s, icmp))
    ensures PartIn(ProbesTally(s), icmp).count == |OfMethod(s, icmp)|
  {
    if s != [] {
      var front, p := s[..|s| - 1], s[|s| - 1];
      TallyOfPart(front, icmp);
      assert ProbesTally(s) == Plus(ProbesTally(front), TallyOf(p));
      assert OfMethod(s, icmp) == if Icmp(p) == icmp then OfMethod(front, icmp) + [p] else OfMethod(front, icmp);
      hide ProbesTally, OfMethod;
      PartOfPlus(ProbesTally(front), p, icmp);
      Part1Append(OfMethod(front, icmp), p);
      hide Part1, Plus, PlusPart, TallyOf, PartOf, Icmp;
    }
  }

  function PartIn(t: Tally, icmp: bool): Part { if icmp then t.icmp else t.tcp }

  lemma PartOfPlus(t: Tally, p: Probe, icmp: bool)
    ensures PartIn(Plus(t, TallyOf(p)), icmp) ==
            if Icmp(p) == icmp then PlusPart(PartIn(t, icmp), PartOf(p)) else PartIn(t, icmp)
    ensures PlusPart(PartIn(t, icmp), PartOf(p)).count == PartIn(t, icmp).count + 1
  {
    PartCounts(p);
    hide PartOf, Icmp;
  }

  lemma PartCounts(p: Probe)
    ensures PartOf(p).count == 1
  {
  }

  lemma TallyOfParts(s: seq<Probe>)
    ensures ProbesTally(s).icmp == Part1(OfMethod(s, true)) && ProbesTally(s).tcp == Part1(OfMethod(s, false))
    ensures ProbesTally(s).icmp.count == |OfMethod(s, true)| && ProbesTally(s).tcp.count == |OfMethod(s, false)|
  {
    hide ProbesTally, Part1, OfMethod;
    TallyOfPart(s, true);
    TallyOfPart(s, false);
  }

  // ----- the figures of a group -----

  ghost function Added(s: seq<Probe>, column: Probe -> int): int {
    if s == [] then 0 else Added(s[..|s| - 1], column) + column(s[|s| - 1])
  }

  ghost function AddedReals(s: seq<Probe>, column: Probe -> real): real {
    if s == [] then 0.0 else AddedReals(s[..|s| - 1], column) + column(s[|s| - 1])
  }

  function TotalOf(p: Probe): int { p.total }
  function SuccessOf(p: Probe): int { p.success }
  function FailedOf(p: Probe): int { p.failed }
  function PingsOf(p: Probe): int { if p.protocol == "ICMP" then p.total else 0 }
  function LostOf(p: Probe): int { if p.protocol == "ICMP" then p.failed else 0 }

  /** The answers to the probes of one method, and their latencies, one for each answer. */
  ghost function Answers(icmp: bool): Probe -> int {
    (p: Probe) => if (p.protocol == "ICMP") == icmp && p.success > 0 then p.success else 0
  }

  ghost function Latencies(icmp: bool): Probe -> real {
    (p: Probe) => if (p.protocol == "ICMP") == icmp && p.success > 0 then p.latency * p.success as real else 0.0
  }

  ghost predicate HasPing(s: seq<Probe>) { exists p :: p in s && p.protocol == "ICMP" }

  /** The totals are those of the probes; the loss is the percentage of the pings that failed, to one
      decimal, and there is one exactly if there were any; the latency is the mean over the answers to
      pings if the group has a pinged target, and to TCP probes otherwise, to one decimal. */
  ghost predicate Figures(r: Pillar, s: seq<Probe>) {
    && r.total == Added(s, TotalOf) && r.success == Added(s, SuccessOf) && r.failed == Added(s, FailedOf)
    && (r.loss.Some? <==> Added(s, PingsOf) > 0)
    && (r.loss.Some? ==>
          -0.05 <= r.loss.value - Added(s, LostOf) as real / Added(s, PingsOf) as real * 100.0 <= 0.05)
    && var answers, waited := Added(s, Answers(HasPing(s))), AddedReals(s, Latencies(HasPing(s)));
    && (if answers > 0 then -0.05 <= r.latency - waited / answers as real <= 0.05 else r.latency == 0.0)
  }

  lemma {:induction false} TallyAdds(s: seq<Probe>)
    ensures var t := ProbesTally(s);
            && t.total == Added(s, TotalOf) && t.success == Added(s, SuccessOf) && t.failed == Added(s, FailedOf)
            && t.icmp.total == Added(s, PingsOf) && t.icmp.failed == Added(s, LostOf)
            && t.icmp.success == Added(s, Answers(true)) && t.icmp.weighted == AddedReals(s, Latencies(true))
            && t.tcp.success == Added(s, Answers(false)) && t.tcp.weighted == AddedReals(s, Latencies(false))
  {
    hide TallyOf, Plus;
    if s != [] {
      var front, p := s[..|s| - 1], s[|s| - 1];
      TallyAdds(front);
      ColumnsOf(p);
      PlusColumns(ProbesTally(front), TallyOf(p));
    }
  }

  lemma ColumnsOf(p: Probe)
    ensures var t := TallyOf(p);
            && t.total == TotalOf(p) && t.success == SuccessOf(p) && t.failed == FailedOf(p)
            && t.icmp.total == PingsOf(p) && t.icmp.failed == LostOf(p)
            && t.icmp.success == Answers(true)(p) && t.icmp.weighted == Latencies(true)(p)
            && t.tcp.success == Answers(false)(p) && t.tcp.weighted == Latencies(false)(p)
  {
  }

  lemma PlusColumns(a: Tally, b: Tally)
    ensures var t := Plus(a, b);
            && t.total == a.total + b.total && t.success == a.success + b.success && t.failed == a.failed + b.failed
            && t.icmp.total == a.icmp.total + b.icmp.total && t.icmp.failed == a.icmp.failed + b.icmp.failed
            && t.icmp.success == a.icmp.success + b.icmp.success
            && t.icmp.weighted == a.icmp.weighted + b.icmp.weighted
            && t.tcp.success == a.tcp.success + b.tcp.success && t.tcp.weighted == a.tcp.weighted + b.tcp.weighted
  {
  }

  lemma CountsPings(s: seq<Probe>)
    ensures ProbesTally(s).icmp.count > 0 <==> HasPing(s)
    ensures ProbesTally(s).icmp.count == 0 ==> ProbesTally(s).icmp.total == 0
  {
    TallyOfParts(s);
    forall p ensures p in OfMethod(s, true) <==> p in s && p.protocol == "ICMP" { OfMethodMembers(s, true, p); }
    hide ProbesTally;
    if OfMethod(s, true) != [] { assert OfMethod(s, true)[0] in OfMethod(s, true); }
  }

  lemma PercentNear(failed: int, total: int)
    requires total > 0
    ensures -0.05 <= Percent(failed, total) - failed as real / total as real * 100.0 <= 0.05
  {
    RoundNear(failed as real / total as real * 1000.0);
  }

  lemma PillarFigures(s: seq<Probe>)
    ensures Figures(PillarOf(ProbesTally(s)), s)
  {
    hide ProbesTally, Added, AddedReals, Percent, Tenths, HasPing;
    var t := ProbesTally(s);
    TallyAdds(s);
    CountsPings(s);
    if t.icmp.total > 0 { PercentNear(t.icmp.failed, t.icmp.total); }
    var part := if HasPing(s) then t.icmp else t.tcp;
    if part.success > 0 { TenthsNear(part.weighted / part.success as real); }
  }

  method AggregatePillar(probes: seq<Probe>) returns (r: Pillar)
    ensures r == PillarOf(ProbesTally(probes)) && Figures(r, probes)
  {
    hide PartOf, Round, Percent, Tenths, Figures;
    var icmp: seq<Probe>, tcp: seq<Probe> := [], [];
    var total, success, failed := 0, 0, 0;
    for i := 0 to |probes|
      invariant icmp == OfMethod(probes[..i], true) && tcp == OfMethod(probes[..i], false)
      invariant total == ProbesTally(probes[..i]).total && success == ProbesTally(probes[..i]).success
                && failed == ProbesTally(probes[..i]).failed
    {
      assert probes[..i + 1][..i] == probes[..i];
      if probes[i].protocol == "ICMP" { icmp := icmp + [probes[i]]; } else { tcp := tcp + [probes[i]]; }
      total, success, failed := total + probes[i].total, success + probes[i].success, failed + probes[i].failed;
    }
    assert probes[..|probes|] == probes;
    TallyOfParts(probes);
    var protocol :=
        if |icmp| > 0 && |tcp| > 0 then "MIXED" else if |icmp| > 0 then "ICMP" else if |tcp| > 0 then "TCP" else "ICMP";
    var loss, latency := None, 0.0;
    if |icmp| > 0 {
      var part := SumPart(icmp);
      if part.total > 0 { loss := Some(Percent(part.failed, part.total)); }
      if part.success > 0 { latency := Tenths(part.weighted / part.success as real); }
    } else if |tcp| > 0 {
      var part := SumPart(tcp);
      if part.success > 0 { latency := Tenths(part.weighted / part.success as real); }
    }
    r := Pillar(Unavailable, latency, loss, total, success, failed, protocol);
    PillarFigures(probes);
  }

  method SumPart(s: seq<Probe>) returns (part: Part)
    ensures part == Part1(s)
  {
    var total, failed, weighted, success: nat := 0, 0, 0.0, 0;
    for i := 0 to |s|
      invariant Part(i, total, failed, weighted, success) == Part1(s[..i])
    {
      assert s[..i + 1][..i] == s[..i];
      total, failed := total + s[i].total, failed + s[i].failed;
      if s[i].success > 0 {
        weighted := weighted + s[i].latency * s[i].success as real;
        success := success + s[i].success;
      }
    }
    assert s[..|s|] == s;
    part := Part(|s|, total, failed, weighted, success);
  }

  // ----- the group's latency -----

  ghost predicate Averaged(s: seq<Probe>, lo: real, hi: real) {
    forall p :: p in s && p.success > 0 ==> lo <= p.latency <= hi
  }

  lemma {:induction false} WeightedWithin(s: seq<Probe>, lo: real, hi: real)
    requires Averaged(s, lo, hi)
    ensures Bounds(Part1(s), lo, hi)
  {
    if s == [] {
      Zero(lo);
      Zero(hi);
    } else {
      var front, p := s[..|s| - 1], s[|s| - 1];
      assert p in s && forall x :: x in front ==> x in s;
      WeightedWithin(front, lo, hi);
      OneWithin(p, lo, hi);
      hide PartOf;
      BoundsAdd(Part1(front), PartOf(p), lo, hi);
    }
  }

  ghost predicate Bounds(part: Part, lo: real, hi: real) {
    lo * part.success as real <= part.weighted <= hi * part.success as real
  }

  lemma Zero(x: real)
    ensures x * 0 as real == 0.0
  {
  }

  lemma OneWithin(p: Probe, lo: real, hi: real)
    requires p.success > 0 ==> lo <= p.latency <= hi
    ensures Bounds(PartOf(p), lo, hi)
  {
    if p.success > 0 {
      Weigh(lo, p.latency, p.success);
      Weigh(p.latency, hi, p.success);
    } else {
      Zero(lo);
      Zero(hi);
    }
  }

  lemma BoundsAdd(a: Part, b: Part, lo: real, hi: real)
    requires Bounds(a, lo, hi) && Bounds(b, lo, hi)
    ensures Bounds(PlusPart(a, b), lo, hi)
  {
    Distribute(lo, a.success, b.success);
    Distribute(hi, a.success, b.success);
  }

  lemma Weigh(x: real, y: real, n: nat)
    requires x <= y
    ensures x * n as real <= y * n as real
  {
  }

  lemma Distribute(x: real, m: nat, n: nat)
    ensures x * (m + n) as real == x * m as real + x * n as real
  {
  }

  /** The rounded latency of a group lies within the one-decimal latencies of the successful probes
      it averages: the pinged ones if there are any, the TCP ones otherwise. */
  lemma LatencyWithinProbes(s: seq<Probe>, lo: real, hi: real)
    requires OneDecimal(lo) && OneDecimal(hi)
    requires var part := OfMethod(s, OfMethod(s, true) != []); Averaged(part, lo, hi) && Part1(part).success > 0
    ensures lo <= PillarOf(ProbesTally(s)).latency <= hi
  {
    hide ProbesTally, Part1, OfMethod, Round, Tenths, OneDecimal, Percent, Averaged;
    var part := OfMethod(s, OfMethod(s, true) != []);
    TallyOfParts(s);
    WeightedWithin(part, lo, hi);
    assert lo * Part1(part).success as real <= Part1(part).weighted <= hi * Part1(part).success as real;
    MeanWithin(Part1(part).weighted, Part1(part).success, lo, hi);
    TenthsStayWithin(Part1(part).weighted / Part1(part).success as real, lo, hi);
  }

  // ----- the group's loss and method -----

  ghost predicate Accounted(p: Probe) { 0 <= p.failed <= p.total }

  lemma {:induction false} PartAccounted(s: seq<Probe>)
    requires forall p :: p in s ==> Accounted(p)
    ensures 0 <= Part1(s).failed <= Part1(s).total
    ensures Part1(s).total > 0 <==> exists p :: p in s && p.total > 0
    ensures Part1(s).failed == 0 <==> forall p :: p in s ==> p.failed == 0
  {
    if s != [] {
      var front, p := s[..|s| - 1], s[|s| - 1];
      assert s == front + [p];
      assert p in s && forall x :: x in front ==> x in s;
      PartAccounted(front);
    }
  }

  lemma {:induction false} OfMethodMembers(s: seq<Probe>, icmp: bool, p: Probe)
    ensures p in OfMethod(s, icmp) <==> p in s && Icmp(p) == icmp
  {
    if s != [] {
      var front := s[..|s| - 1];
      assert s == front + [s[|s| - 1]];
      OfMethodMembers(front, icmp, p);
    }
  }

  lemma PercentWithin(failed: int, total: int)
    requires 0 <= failed <= total && total > 0
    ensures 0.0 <= Percent(failed, total) <= 100.0 && (failed == 0 ==> Percent(failed, total) == 0.0)
  {
    var share := failed as real / total as real;
    assert 0.0 <= share <= 1.0;
    RoundMonotone(0.0, share * 1000.0);
    RoundMonotone(share * 1000.0, 1000.0);
    RoundExact(0);
    RoundExact(1000);
  }

  /** A group reports a loss exactly when it pinged; the loss is a percentage of the pings alone, and
      zero when none of them failed.  Its method says which kinds of probe it holds. */
  lemma LossIsOfPings(s: seq<Probe>)
    requires forall p :: p in s && Icmp(p) ==> Accounted(p)
    ensures var r := PillarOf(ProbesTally(s));
            && (r.loss.Some? <==> exists p :: p in s && Icmp(p) && p.total > 0)
            && (r.loss.Some? ==> 0.0 <= r.loss.value <= 100.0)
            && (r.loss.Some? && (forall p :: p in s && Icmp(p) ==> p.failed == 0) ==> r.loss.value == 0.0)
            && (r.protocol == "MIXED" <==> (exists p :: p in s && Icmp(p)) && (exists p :: p in s && !Icmp(p)))
            && (r.protocol == "TCP" <==> s != [] && forall p :: p in s ==> !Icmp(p))
  {
    var pings, others := OfMethod(s, true), OfMethod(s, false);
    forall p ensures (p in pings <==> p in s && Icmp(p)) && (p in others <==> p in s && !Icmp(p)) {
      OfMethodMembers(s, true, p);
      OfMethodMembers(s, false, p);
    }
    TallyOfParts(s);
    PartAccounted(pings);
    if Part1(pings).total > 0 { PercentWithin(Part1(pings).failed, Part1(pings).total); }
    hide OfMethod, ProbesTally, Part1, Percent, PartLatency, Icmp, Accounted;
    assert pings != [] ==> pings[0] in pings;
    assert others != [] ==> others[0] in others;
    assert s != [] ==> s[0] in s;
  }
}
