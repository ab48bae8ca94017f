/** The groups of a network report: live, from the probes of a run, and rebuilt, from stored results.
*/
module NetworkGroups {
  import opened Options
  import opened NetworkReport

  datatype Entry = Entry(probe: Probe, target: Target)

  // ----- sums over a group -----

  datatype Mean = Mean(sum: real, count: nat)

  datatype Limits = Limits(warning: Mean, critical: Mean, loss: Mean)

  datatype Group = Group(probes: Tally, limits: Limits)

  function NoMean(): Mean { Mean(0.0, 0) }
  function NoLimits(): Limits { Limits(NoMean(), NoMean(), NoMean()) }
  function NoGroup(): Group { Group(NoTally(), NoLimits()) }

  function PlusMean(a: Mean, b: Mean): Mean { Mean(a.sum + b.sum, a.count + b.count) }

  function PlusLimits(a: Limits, b: Limits): Limits {
    Limits(PlusMean(a.warning, b.warning), PlusMean(a.critical, b.critical), PlusMean(a.loss, b.loss))
  }

  function PlusGroup(a: Group, b: Group): Group { Group(Plus(a.probes, b.probes), PlusLimits(a.limits, b.limits)) }

  function MeanOf(configured: Option<real>): Mean {
    if configured.Some? && configured.value > 0.0 then Mean(configured.value, 1) else NoMean()
  }

  function LimitsOf(t: Target): Limits {
    Limits(MeanOf(t.latencyWarning), MeanOf(t.latencyCritical), MeanOf(t.lossCritical))
  }

  function GroupOf(e: Entry): Group { Group(TallyOf(e.probe), LimitsOf(e.target)) }

  function Name(e: Entry): string { if e.probe.tag == "" then "default" else e.probe.tag }

  function Share(e: Entry, tag: string): Group { if Name(e) == tag then GroupOf(e) else NoGroup() }

  function GroupTally(s: seq<Entry>, tag: string): Group {
    if s == [] then NoGroup() else PlusGroup(GroupTally(s[..|s| - 1], tag), Share(s[|s| - 1], tag))
  }

  function Average(m: Mean, fallback: real): real { if m.count > 0 then m.sum / m.count as real else fallback }

  function PillarOfGroup(g: Group): Pillar {
    Evaluated(PillarOf(g.probes), Average(g.limits.loss, LOSS_CRITICAL), Average(g.limits.warning, LATENCY_WARNING),
              Average(g.limits.critical, LATENCY_CRITICAL))
  }

  function Names(s: seq<Entry>): set<string> { set e | e in s :: Name(e) }

  /** The report's `Groups`. */
  function Groups(s: seq<Entry>): map<string, Pillar> { map tag | tag in Names(s) :: PillarOfGroup(GroupTally(s, tag)) }

  /** The report's `GroupOrder`: tags as they first appear. */
  function Order(s: seq<Entry>): (r: seq<string>)
    ensures forall tag :: tag in r <==> exists e :: e in s && Name(e) == tag
    ensures forall i, j :: 0 <= i < j < |r| ==> r[i] != r[j]
  {
    if s == [] then []
    else
      var front, last := s[..|s| - 1], s[|s| - 1];
      assert s == front + [last];
      if Name(last) in Order(front) then Order(front) else Order(front) + [Name(last)]
  }

  /** Of two groups the one that comes first has an entry before every entry of the other. */
  lemma {:induction false} OrderAsSeen(s: seq<Entry>, i: nat, j: nat)
    requires i < j < |Order(s)|
    ensures exists k :: 0 <= k < |s| && Tagged(s[k], Order(s)[i])
                        && forall l :: 0 <= l <= k ==> !Tagged(s[l], Order(s)[j])
  {
    var front, last := s[..|s| - 1], s[|s| - 1];
    assert s == front + [last];
    var r := Order(front);
    if j < |r| {
      OrderAsSeen(front, i, j);
      var k :| 0 <= k < |front| && Tagged(front[k], r[i]) && forall l :: 0 <= l <= k ==> !Tagged(front[l], r[j]);
      assert Tagged(s[k], Order(s)[i]) && forall l :: 0 <= l <= k ==> s[l] == front[l];
    } else {
      assert r[i] in r;
      var e :| e in front && Name(e) == r[i];
      var k :| 0 <= k < |front| && front[k] == e;
      assert Tagged(s[k], Order(s)[i]);
      forall l | 0 <= l <= k ensures !Tagged(s[l], Order(s)[j]) { assert s[l] in front; }
    }
  }

  /** The group of an entry; entries without a tag are in the group "default". */
  ghost predicate Tagged(e: Entry, tag: string) { tag == if e.probe.tag == "" then "default" else e.probe.tag }

  // ----- the loops -----

  function MemberProbes(s: seq<Entry>, tag: string): seq<Probe> {
    if s == [] then []
    else MemberProbes(s[..|s| - 1], tag) + if Name(s[|s| - 1]) == tag then [s[|s| - 1].probe] else []
  }

  function MemberTargets(s: seq<Entry>, tag: string): seq<Target> {
    if s == [] then []
    else MemberTargets(s[..|s| - 1], tag) + if Name(s[|s| - 1]) == tag then [s[|s| - 1].target] else []
  }

  function TargetsLimits(s: seq<Target>): Limits {
    if s == [] then NoLimits() else PlusLimits(TargetsLimits(s[..|s| - 1]), LimitsOf(s[|s| - 1]))
  }

  lemma SnocTallies(probes: seq<Probe>, targets: seq<Target>, p: Probe, t: Target)
    ensures ProbesTally(probes + [p]) == Plus(ProbesTally(probes), TallyOf(p))
    ensures TargetsLimits(targets + [t]) == PlusLimits(TargetsLimits(targets), LimitsOf(t))
  {
    hide PartOf;
    assert (probes + [p])[..|probes|] == probes && (targets + [t])[..|targets|] == targets;
  }

  lemma PlusNothing(g: Group)
    ensures PlusGroup(g, NoGroup()) == g && PlusGroup(NoGroup(), g) == g
  {
  }

  lemma {:induction false} MembersTally(s: seq<Entry>, tag: string)
    ensures GroupTally(s, tag) == Group(ProbesTally(MemberProbes(s, tag)), TargetsLimits(MemberTargets(s, tag)))
  {
    hide PlusGroup, Share, ProbesTally, TargetsLimits, Name;
    if s == [] {
      NothingTogether();
    } else {
      var front, e := s[..|s| - 1], s[|s| - 1];
      MembersTally(front, tag);
      OneMore(MemberProbes(front, tag), MemberTargets(front, tag), e, tag);
    }
  }

  lemma NothingTogether()
    ensures NoGroup() == Group(ProbesTally([]), TargetsLimits([]))
  {
  }

  /** The entry counts for its own tag and for no other. */
  lemma OneMore(probes: seq<Probe>, targets: seq<Target>, e: Entry, tag: string)
    ensures PlusGroup(Group(ProbesTally(probes), TargetsLimits(targets)), Share(e, tag))
            == Group(ProbesTally(probes + if Name(e) == tag then [e.probe] else []),
                     TargetsLimits(targets + if Name(e) == tag then [e.target] else []))
  {
    hide ProbesTally, TargetsLimits, TallyOf, LimitsOf, Plus, PlusLimits, Name;
    if Name(e) == tag {
      SnocTallies(probes, targets, e.probe, e.target);
    } else {
      hide PlusGroup;
      PlusNothing(Group(ProbesTally(probes), TargetsLimits(targets)));
      assert probes + [] == probes && targets + [] == targets;
    }
  }

  method GroupLimits(targets: seq<Target>) returns (l: Limits)
    ensures l == TargetsLimits(targets)
  {
    var warnSum, critSum, lossSum := 0.0, 0.0, 0.0;
    var warnCount: nat, critCount: nat, lossCount: nat := 0, 0, 0;
    for i := 0 to |targets|
      invariant Mean(warnSum, warnCount) == TargetsLimits(targets[..i]).warning
      invariant Mean(critSum, critCount) == TargetsLimits(targets[..i]).critical
      invariant Mean(lossSum, lossCount) == TargetsLimits(targets[..i]).loss
    {
      assert targets[..i + 1][..i] == targets[..i];
      var t := targets[i];
      assert TargetsLimits(targets[..i + 1]) == PlusLimits(TargetsLimits(targets[..i]), LimitsOf(t));
      hide TargetsLimits;
      if t.latencyWarning.Some? && t.latencyWarning.value > 0.0 {
        warnSum, warnCount := warnSum + t.latencyWarning.value, warnCount + 1;
      }
      if t.latencyCritical.Some? && t.latencyCritical.value > 0.0 {
        critSum, critCount := critSum + t.latencyCritical.value, critCount + 1;
      }
      if t.lossCritical.Some? && t.lossCritical.value > 0.0 {
        lossSum, lossCount := lossSum + t.lossCritical.value, lossCount + 1;
      }
    }
    assert targets[..|targets|] == targets;
    l := Limits(Mean(warnSum, warnCount), Mean(critSum, critCount), Mean(lossSum, lossCount));
  }

  // ----- the judgement of a group -----

  /** The settings that count. */
  ghost function Positive(settings: seq<Option<real>>): seq<real> {
    if settings == [] then []
    else
      var last := settings[|settings| - 1];
      Positive(settings[..|settings| - 1]) + if last.Some? && last.value > 0.0 then [last.value] else []
  }

  /** The mean of the positive settings, or the default if there is none. */
  ghost predicate IsLimit(limit: real, settings: seq<Option<real>>, fallback: real) {
    var own := Positive(settings);
    if own == [] then limit == fallback else limit * |own| as real == Sum(own)
  }

  ghost function Warnings(targets: seq<Target>): (r: seq<Option<real>>)
    ensures |r| == |targets| && forall i :: 0 <= i < |r| ==> r[i] == targets[i].latencyWarning
  {
    seq(|targets|, i requires 0 <= i < |targets| => targets[i].latencyWarning)
  }

  ghost function Criticals(targets: seq<Target>): (r: seq<Option<real>>)
    ensures |r| == |targets| && forall i :: 0 <= i < |r| ==> r[i] == targets[i].latencyCritical
  {
    seq(|targets|, i requires 0 <= i < |targets| => targets[i].latencyCritical)
  }

  ghost function Losses(targets: seq<Target>): (r: seq<Option<real>>)
    ensures |r| == |targets| && forall i :: 0 <= i < |r| ==> r[i] == targets[i].lossCritical
  {
    seq(|targets|, i requires 0 <= i < |targets| => targets[i].lossCritical)
  }

  /** Unavailable if nothing was probed or nothing answered; else critical if the loss reaches its limit or
      the latency exceeds the critical one; else a warning for any loss or a latency above the warning limit;
      else reachable without a loss figure and optimal with one. */
  ghost predicate Judged(r: Pillar, lossLimit: real, warning: real, critical: real) {
    var dead := r.total == 0 || r.success == 0;
    var bad := (r.loss.Some? && r.loss.value >= lossLimit) || r.latency > critical;
    var poor := (r.loss.Some? && r.loss.value > 0.0) || r.latency > warning;
    && (r.status == Unavailable <==> dead)
    && (r.status == Critical <==> !dead && bad)
    && (r.status == Warning <==> !dead && !bad && poor)
    && (r.status == Reachable <==> !dead && !bad && !poor && r.loss.None?)
    && (r.status == Optimal <==> !dead && !bad && !poor && r.loss.Some?)
  }

  /** The figures are those of the probes, and the status is judged by the limits of the targets, which are
      20 percent and 50 and 150 milliseconds unless they are set. */
  ghost predicate Reports(r: Pillar, probes: seq<Probe>, targets: seq<Target>) {
    && Figures(r, probes)
    && forall lossLimit, warning, critical ::
         IsLimit(lossLimit, Losses(targets), 20.0) && IsLimit(warning, Warnings(targets), 50.0)
             && IsLimit(critical, Criticals(targets), 150.0) ==>
           Judged(r, lossLimit, warning, critical)
  }

  lemma PositiveSnoc(settings: seq<Option<real>>, x: Option<real>)
    ensures Positive(settings + [x]) == Positive(settings) + if x.Some? && x.value > 0.0 then [x.value] else []
  {
    assert (settings + [x])[..|settings|] == settings;
  }

  lemma SumOfMore(s: seq<real>, x: real)
    ensures Sum(s + [x]) == Sum(s) + x
  {
    assert (s + [x])[..|s|] == s;
  }

  ghost predicate Adds(m: Mean, settings: seq<Option<real>>) {
    m.count == |Positive(settings)| && m.sum == Sum(Positive(settings))
  }

  lemma AddsMore(m: Mean, settings: seq<Option<real>>, x: Option<real>)
    requires Adds(m, settings)
    ensures Adds(PlusMean(m, MeanOf(x)), settings + [x])
  {
    PositiveSnoc(settings, x);
    hide Positive;
    if x.Some? && x.value > 0.0 { SumOfMore(Positive(settings), x.value); }
    else { assert Positive(settings) + [] == Positive(settings); }
  }

  lemma NothingSet(targets: seq<Target>)
    requires targets == []
    ensures var l := TargetsLimits(targets);
            Adds(l.warning, Warnings(targets)) && Adds(l.critical, Criticals(targets)) && Adds(l.loss, Losses(targets))
  {
  }

  lemma LimitsSnoc(targets: seq<Target>)
    requires targets != []
    ensures var front, t := targets[..|targets| - 1], targets[|targets| - 1];
            var a, b := TargetsLimits(front), TargetsLimits(targets);
            && Warnings(targets) == Warnings(front) + [t.latencyWarning]
            && Criticals(targets) == Criticals(front) + [t.latencyCritical]
            && Losses(targets) == Losses(front) + [t.lossCritical]
            && b.warning == PlusMean(a.warning, MeanOf(t.latencyWarning))
            && b.critical == PlusMean(a.critical, MeanOf(t.latencyCritical))
            && b.loss == PlusMean(a.loss, MeanOf(t.lossCritical))
  {
  }

  lemma {:induction false} LimitsAdd(targets: seq<Target>)
    ensures var l := TargetsLimits(targets);
            Adds(l.warning, Warnings(targets)) && Adds(l.critical, Criticals(targets)) && Adds(l.loss, Losses(targets))
  {
    hide Adds, Warnings, Criticals, Losses, TargetsLimits, PlusMean, MeanOf, PlusLimits, LimitsOf;
    if targets == [] {
      NothingSet(targets);
    } else {
      var front, t := targets[..|targets| - 1], targets[|targets| - 1];
      LimitsAdd(front);
      LimitsSnoc(targets);
      var l := TargetsLimits(front);
      AddsMore(l.warning, Warnings(front), t.latencyWarning);
      AddsMore(l.critical, Criticals(front), t.latencyCritical);
      AddsMore(l.loss, Losses(front), t.lossCritical);
    }
  }

  lemma LimitIsAverage(m: Mean, settings: seq<Option<real>>, fallback: real, limit: real)
    requires Adds(m, settings)
    ensures IsLimit(limit, settings, fallback) <==> limit == Average(m, fallback)
  {
    hide Positive, Sum;
    if m.count > 0 { OnlyQuotient(limit, m.sum, m.count); }
  }

  lemma OnlyQuotient(x: real, sum: real, n: nat)
    requires n > 0
    ensures x * n as real == sum <==> x == sum / n as real
  {
    assert sum / n as real * n as real == sum;
    if x * n as real == sum { assert (x - sum / n as real) * n as real == 0.0; }
  }

  lemma EvaluatedJudged(p: Pillar, lossLimit: real, warning: real, critical: real)
    ensures Judged(Evaluated(p, lossLimit, warning, critical), lossLimit, warning, critical)
  {
  }

  lemma GroupReports(probes: seq<Probe>, targets: seq<Target>)
    ensures Reports(PillarOfGroup(Group(ProbesTally(probes), TargetsLimits(targets))), probes, targets)
  {
    hide ProbesTally, TargetsLimits, PillarOf, IsLimit, Adds, Judged, Average, Warnings, Criticals, Losses;
    PillarFigures(probes);
    LimitsAdd(targets);
    var l := TargetsLimits(targets);
    var r := PillarOfGroup(Group(ProbesTally(probes), l));
    FiguresOf(PillarOf(ProbesTally(probes)), r, probes);
    forall lossLimit, warning, critical |
      IsLimit(lossLimit, Losses(targets), 20.0) && IsLimit(warning, Warnings(targets), 50.0)
      && IsLimit(critical, Criticals(targets), 150.0)
      ensures Judged(r, lossLimit, warning, critical)
    {
      LimitIsAverage(l.loss, Losses(targets), 20.0, lossLimit);
      LimitIsAverage(l.warning, Warnings(targets), 50.0, warning);
      LimitIsAverage(l.critical, Criticals(targets), 150.0, critical);
      EvaluatedJudged(PillarOf(ProbesTally(probes)), lossLimit, warning, critical);
    }
  }

  lemma FiguresOf(p: Pillar, r: Pillar, probes: seq<Probe>)
    requires Figures(p, probes) && r == p.(status := r.status)
    ensures Figures(r, probes)
  {
    hide Added, AddedReals, HasPing;
  }

  method EvaluateGroup(probes: seq<Probe>, targets: seq<Target>) returns (r: Pillar)
    ensures r == PillarOfGroup(Group(ProbesTally(probes), TargetsLimits(targets))) && Reports(r, probes, targets)
  {
    GroupReports(probes, targets);
    hide ProbesTally, TargetsLimits, PillarOf, Reports, Figures;
    var pillar := AggregatePillar(probes);
    var limits := GroupLimits(targets);
    var lossCrit, latWarn, latCrit := LOSS_CRITICAL, LATENCY_WARNING, LATENCY_CRITICAL;
    if limits.warning.count > 0 { latWarn := limits.warning.sum / limits.warning.count as real; }
    if limits.critical.count > 0 { latCrit := limits.critical.sum / limits.critical.count as real; }
    if limits.loss.count > 0 { lossCrit := limits.loss.sum / limits.loss.count as real; }
    r := Evaluated(pillar, lossCrit, latWarn, latCrit);
  }

  lemma MembersSnoc(s: seq<Entry>, i: nat, tag: string)
    requires i < |s|
    ensures MemberProbes(s[..i + 1], tag) == MemberProbes(s[..i], tag) + if Name(s[i]) == tag then [s[i].probe] else []
    ensures MemberTargets(s[..i + 1], tag) == MemberTargets(s[..i], tag)
            + if Name(s[i]) == tag then [s[i].target] else []
    ensures Order(s[..i + 1]) == Order(s[..i]) + if Name(s[i]) in Order(s[..i]) then [] else [Name(s[i])]
  {
    assert s[..i + 1][..i] == s[..i];
  }

  ghost predicate Collected(s: seq<Entry>, tagProbes: map<string, seq<Probe>>, tagTargets: map<string, seq<Target>>,
      tag: string) {
    && MemberProbes(s, tag) == (if tag in tagProbes then tagProbes[tag] else [])
    && MemberTargets(s, tag) == (if tag in tagTargets then tagTargets[tag] else [])
  }

  /** Entry `i` joins the group of its tag. */
  lemma CollectOne(s: seq<Entry>, i: nat, tagProbes: map<string, seq<Probe>>, tagTargets: map<string, seq<Target>>,
      tag: string)
    requires i < |s| && Collected(s[..i], tagProbes, tagTargets, tag)
             && Collected(s[..i], tagProbes, tagTargets, Name(s[i]))
    ensures var name := Name(s[i]);
            Collected(s[..i + 1],
                      tagProbes[name := (if name in tagProbes then tagProbes[name] else []) + [s[i].probe]],
                      tagTargets[name := (if name in tagTargets then tagTargets[name] else []) + [s[i].target]], tag)
  {
    hide Order, MemberProbes, MemberTargets, Name;
    MembersSnoc(s, i, tag);
  }

  lemma NothingCollected(s: seq<Entry>)
    requires s == []
    ensures Order(s) == [] && Keyed([], map[], map[]) && forall tag :: Collected(s, map[], map[], tag)
  {
  }

  /** The maps have exactly the tags of the order. */
  ghost predicate Keyed(order: seq<string>, tagProbes: map<string, seq<Probe>>, tagTargets: map<string, seq<Target>>) {
    forall tag :: (tag in tagProbes <==> tag in order) && (tag in tagTargets <==> tag in order)
  }

  lemma KeyedMore(order: seq<string>, tagProbes: map<string, seq<Probe>>, tagTargets: map<string, seq<Target>>,
      tag: string, p: Probe, t: Target)
    requires Keyed(order, tagProbes, tagTargets)
    ensures (tag in tagProbes <==> tag in order)
    ensures Keyed(if tag in order then order else order + [tag],
                  tagProbes[tag := (if tag in tagProbes then tagProbes[tag] else []) + [p]],
                  tagTargets[tag := (if tag in tagTargets then tagTargets[tag] else []) + [t]])
  {
  }

  lemma OrderSnoc(s: seq<Entry>, i: nat)
    requires i < |s|
    ensures Order(s[..i + 1]) == Order(s[..i]) + if Name(s[i]) in Order(s[..i]) then [] else [Name(s[i])]
  {
    assert s[..i + 1][..i] == s[..i];
  }

  /** What the loop has made of the entries so far. */
  ghost predicate Grouped(s: seq<Entry>, order: seq<string>,
      tagProbes: map<string, seq<Probe>>, tagTargets: map<string, seq<Target>>) {
    && order == Order(s) && Keyed(order, tagProbes, tagTargets)
    && forall tag :: Collected(s, tagProbes, tagTargets, tag)
  }

  lemma GroupedMeans(s: seq<Entry>, order: seq<string>,
      tagProbes: map<string, seq<Probe>>, tagTargets: map<string, seq<Target>>)
    requires Grouped(s, order, tagProbes, tagTargets)
    ensures order == Order(s) && Keyed(order, tagProbes, tagTargets)
    ensures forall tag :: Collected(s, tagProbes, tagTargets, tag)
  {
    hide Order, Keyed, Collected;
  }

  lemma NothingGrouped(s: seq<Entry>)
    requires s == []
    ensures Grouped(s, [], map[], map[])
  {
    NothingCollected(s);
    hide Order, Keyed, Collected;
  }

  /** Entry `i` joins its group, which is the last one if it is new. */
  lemma GroupedMore(entries: seq<Entry>, i: nat, order: seq<string>,
      tagProbes: map<string, seq<Probe>>, tagTargets: map<string, seq<Target>>)
    requires i < |entries| && Grouped(entries[..i], order, tagProbes, tagTargets)
    ensures var e := entries[i]; var tag := Name(e);
            Grouped(entries[..i + 1], if tag in tagProbes then order else order + [tag],
                    tagProbes[tag := (if tag in tagProbes then tagProbes[tag] else []) + [e.probe]],
                    tagTargets[tag := (if tag in tagTargets then tagTargets[tag] else []) + [e.target]])
  {
    hide Order, Keyed, Collected, Name;
    var e, tag := entries[i], Name(entries[i]);
    OrderSnoc(entries, i);
    KeyedMore(order, tagProbes, tagTargets, tag, e.probe, e.target);
    var seen := entries[..i + 1];
    var probes := tagProbes[tag := (if tag in tagProbes then tagProbes[tag] else []) + [e.probe]];
    var targets := tagTargets[tag := (if tag in tagTargets then tagTargets[tag] else []) + [e.target]];
    forall other ensures Collected(seen, probes, targets, other) {
      CollectOne(entries, i, tagProbes, tagTargets, other);
    }
  }

  method GroupByTag(entries: seq<Entry>)
    returns (order: seq<string>, tagProbes: map<string, seq<Probe>>, tagTargets: map<string, seq<Target>>)
    ensures order == Order(entries)
    ensures Keyed(order, tagProbes, tagTargets)
    ensures forall tag :: Collected(entries, tagProbes, tagTargets, tag)
  {
    hide Grouped, Order, Keyed, Collected;
    order, tagProbes, tagTargets := [], map[], map[];
    NothingGrouped(entries[..0]);
    for i := 0 to |entries|
      invariant Grouped(entries[..i], order, tagProbes, tagTargets)
    {
      GroupedMore(entries, i, order, tagProbes, tagTargets);
      var e := entries[i];
      var tag := if e.probe.tag == "" then "default" else e.probe.tag;
      if tag !in tagProbes { order := order + [tag]; }
      tagProbes := tagProbes[tag := (if tag in tagProbes then tagProbes[tag] else []) + [e.probe]];
      tagTargets := tagTargets[tag := (if tag in tagTargets then tagTargets[tag] else []) + [e.target]];
    }
    assert entries[..|entries|] == entries;
    GroupedMeans(entries, order, tagProbes, tagTargets);
  }

  function GroupsFor(s: seq<Entry>, tags: seq<string>): map<string, Pillar> {
    map tag | tag in tags :: PillarOfGroup(GroupTally(s, tag))
  }

  lemma GroupsForOrder(s: seq<Entry>)
    ensures Groups(s) == GroupsFor(s, Order(s))
  {
    hide PillarOfGroup, GroupTally, Name;
  }

  lemma GroupsForMore(s: seq<Entry>, tags: seq<string>, k: nat)
    requires k < |tags|
    ensures GroupsFor(s, tags[..k + 1]) == GroupsFor(s, tags[..k])[tags[k] := PillarOfGroup(GroupTally(s, tags[k]))]
  {
    hide PillarOfGroup, GroupTally;
    assert tags[..k + 1] == tags[..k] + [tags[k]];
  }

  lemma GroupNames(s: seq<Entry>)
    ensures forall tag :: tag in Groups(s) <==> exists e :: e in s && Tagged(e, tag)
  {
    hide PillarOfGroup, GroupTally;
  }

  method BuildGroups(entries: seq<Entry>) returns (order: seq<string>, groups: map<string, Pillar>)
    ensures order == Order(entries) && groups == Groups(entries)
    ensures forall tag :: tag in groups <==> exists e :: e in entries && Tagged(e, tag)
    ensures forall tag :: tag in groups ==>
            Reports(groups[tag], MemberProbes(entries, tag), MemberTargets(entries, tag))
  {
    hide Reports, PillarOfGroup, GroupTally, MemberProbes, MemberTargets, ProbesTally, TargetsLimits, Name, Order,
        Groups;
    var tagProbes, tagTargets;
    order, tagProbes, tagTargets := GroupByTag(entries);
    groups := map[];
    for k := 0 to |order|
      invariant groups == GroupsFor(entries, order[..k])
      invariant forall tag :: tag in groups ==>
                Reports(groups[tag], MemberProbes(entries, tag), MemberTargets(entries, tag))
    {
      MembersTally(entries, order[k]);
      assert Collected(entries, tagProbes, tagTargets, order[k]);
      GroupsForMore(entries, order, k);
      var pillar := EvaluateGroup(tagProbes[order[k]], tagTargets[order[k]]);
      groups := groups[order[k] := pillar];
    }
    assert order[..|order|] == order;
    GroupsForOrder(entries);
    GroupNames(entries);
  }

  // ----- conservation -----

  function Over(order: seq<string>, s: seq<Entry>): Tally {
    if order == [] then NoTally() else Plus(Over(order[..|order| - 1], s), GroupTally(s, order[|order| - 1]).probes)
  }

  function AllProbes(s: seq<Entry>): (r: seq<Probe>)
    ensures |r| == |s| && forall i :: 0 <= i < |s| ==> r[i] == s[i].probe
  {
    seq(|s|, i requires 0 <= i < |s| => s[i].probe)
  }

  lemma TallySnoc(s: seq<Entry>, e: Entry, tag: string)
    ensures GroupTally(s + [e], tag) == PlusGroup(GroupTally(s, tag), Share(e, tag))
  {
    hide PartOf;
    assert (s + [e])[..|s|] == s;
  }

  lemma PlusArranges(a: Tally, b: Tally, c: Tally)
    ensures Plus(Plus(a, b), c) == Plus(Plus(a, c), b) == Plus(a, Plus(b, c))
    ensures Plus(a, NoTally()) == a
  {
  }

  lemma {:induction false} OverSnoc(order: seq<string>, s: seq<Entry>, e: Entry)
    requires forall i, j :: 0 <= i < j < |order| ==> order[i] != order[j]
    ensures Over(order, s + [e]) == if Name(e) in order then Plus(Over(order, s), TallyOf(e.probe)) else Over(order, s)
  {
    hide PartOf;
    if order != [] {
      var front, tag := order[..|order| - 1], order[|order| - 1];
      OverSnoc(front, s, e);
      TallySnoc(s, e, tag);
      assert Over(order, s + [e]) == Plus(Over(front, s + [e]), GroupTally(s + [e], tag).probes);
      assert Over(order, s) == Plus(Over(front, s), GroupTally(s, tag).probes);
      assert order == front + [tag] && tag !in front;
      hide Over, GroupTally, TallyOf;
      var before, here, more := Over(front, s), GroupTally(s, tag).probes, TallyOf(e.probe);
      PlusArranges(before, here, more);
      PlusArranges(here, more, more);
      hide Plus, Name;
    }
  }

  /** Summed over the groups, in whatever order, probes and successes and failures are those of all
      probes together: each probe is in exactly one group. */
  lemma {:induction false} GroupsAddUp(order: seq<string>, s: seq<Entry>)
    requires forall i, j :: 0 <= i < j < |order| ==> order[i] != order[j]
    requires forall e :: e in s ==> Name(e) in order
    ensures Over(order, s) == ProbesTally(AllProbes(s))
  {
    hide PartOf, TallyOf, Plus, Over, GroupTally, NoTally;
    if s == [] {
      NothingOver(order, s);
    } else {
      var front, e := s[..|s| - 1], s[|s| - 1];
      assert s == front + [e];
      assert e in s && forall x :: x in front ==> x in s;
      GroupsAddUp(order, front);
      OverSnoc(order, front, e);
      assert AllProbes(s)[..|s| - 1] == AllProbes(front);
      assert ProbesTally(AllProbes(s)) == Plus(ProbesTally(AllProbes(front)), TallyOf(e.probe));
      hide ProbesTally;
    }
  }

  lemma {:induction false} NothingOver(order: seq<string>, s: seq<Entry>)
    requires s == []
    ensures Over(order, s) == NoTally()
  {
    hide PartOf;
    if order != [] {
      NothingOver(order[..|order| - 1], s);
      assert GroupTally(s, order[|order| - 1]).probes == NoTally();
      PlusArranges(NoTally(), NoTally(), NoTally());
      hide Plus, NoTally, GroupTally;
    }
  }

  /** The totals of the report's groups sum to the totals of its probes. */
  lemma ReportConserved(s: seq<Entry>)
    ensures Over(Order(s), s) == ProbesTally(AllProbes(s))
    ensures Groups(s).Keys == set tag | tag in Order(s)
  {
    GroupsAddUp(Order(s), s);
  }

  // ----- order -----

  lemma Arrange(a: Group, b: Group, c: Group)
    ensures PlusGroup(PlusGroup(a, b), c) == PlusGroup(PlusGroup(a, c), b)
  {
  }

  function Without<T>(s: seq<T>, i: nat): seq<T>
    requires i < |s|
  {
    s[..i] + s[i + 1..]
  }

  lemma WithoutOne<T>(b: seq<T>, i: nat)
    requires i < |b|
    ensures multiset(Without(b, i)) == multiset(b) - multiset{b[i]}
  {
    assert b == b[..i] + [b[i]] + b[i + 1..];
  }

  lemma LastElsewhere<T>(a: seq<T>, b: seq<T>) returns (i: nat)
    requires multiset(a) == multiset(b) && a != []
    ensures i < |b| && b[i] == a[|a| - 1] && multiset(a[..|a| - 1]) == multiset(Without(b, i))
  {
    var n := |a| - 1;
    assert a == a[..n] + [a[n]];
    assert a[n] in multiset(b);
    i :| 0 <= i < |b| && b[i] == a[n];
    assert multiset(a[..n]) == multiset(a) - multiset{a[n]};
    WithoutOne(b, i);
  }

  lemma {:induction false} TallyWithout(s: seq<Entry>, i: nat, tag: string)
    requires i < |s|
    ensures GroupTally(s, tag) == PlusGroup(GroupTally(Without(s, i), tag), Share(s[i], tag))
  {
    hide PlusGroup, Share;
    var n := |s| - 1;
    if i == n {
      assert Without(s, i) == s[..n];
    } else {
      TallyWithout(s[..n], i, tag);
      assert Without(s, i)[..n - 1] == Without(s[..n], i) && Without(s, i)[n - 1] == s[n];
      Arrange(GroupTally(Without(s[..n], i), tag), Share(s[i], tag), Share(s[n], tag));
      assert GroupTally(s, tag) == PlusGroup(GroupTally(s[..n], tag), Share(s[n], tag));
      assert GroupTally(Without(s, i), tag) == PlusGroup(GroupTally(Without(s[..n], i), tag), Share(s[n], tag));
    }
  }

  /** Groups do not depend on the order of the targets. */
  lemma {:induction false} TallyPermutes(a: seq<Entry>, b: seq<Entry>, tag: string)
    requires multiset(a) == multiset(b)
    ensures GroupTally(a, tag) == GroupTally(b, tag)
  {
    hide PartOf;
    if a == [] {
      assert |multiset(a)| == |multiset(b)| == |b|;
    } else {
      var n := |a| - 1;
      var i := LastElsewhere(a, b);
      TallyPermutes(a[..n], Without(b, i), tag);
      TallyWithout(b, i, tag);
    }
  }

  lemma GroupsPermute(a: seq<Entry>, b: seq<Entry>)
    requires multiset(a) == multiset(b)
    ensures Groups(a) == Groups(b)
  {
    hide PartOf;
    forall e ensures e in a <==> e in b { assert e in multiset(a) <==> e in multiset(b); }
    forall tag ensures GroupTally(a, tag) == GroupTally(b, tag) { TallyPermutes(a, b, tag); }
  }
}
