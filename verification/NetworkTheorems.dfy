/** The report rebuilt from stored results against the live diagnostic that produced them. */
module NetworkTheorems {
  import opened Options
  import opened Text
  import opened NetworkReport
  import opened NetworkGroups

  /** A target and what probing it in one run came to. */
  datatype Case = Case(target: Target, outcome: Outcome)

  /** The enabled targets that are not the gateway. */
  function Regular(s: seq<Case>): seq<Case> {
    if s == [] then []
    else Regular(s[..|s| - 1]) + if s[|s| - 1].target.enabled && !s[|s| - 1].target.isGateway then [s[|s| - 1]] else []
  }

  function LiveEntry(c: Case): Entry { Entry(ProbeOf(c.target, c.outcome), c.target) }

  function RebuiltEntry(c: Case): Entry {
    Entry(Rebuilt(c.target, Some(ResultOf(ProbeOf(c.target, c.outcome)))), c.target)
  }

  function Live(s: seq<Case>): (r: seq<Entry>)
    ensures |r| == |s| && forall i :: 0 <= i < |s| ==> r[i] == LiveEntry(s[i])
  {
    seq(|s|, i requires 0 <= i < |s| => LiveEntry(s[i]))
  }

  function FromResults(s: seq<Case>): (r: seq<Entry>)
    ensures |r| == |s| && forall i :: 0 <= i < |s| ==> r[i] == RebuiltEntry(s[i])
  {
    seq(|s|, i requires 0 <= i < |s| => RebuiltEntry(s[i]))
  }

  /** A target as the repository stores it. */
  ghost predicate Stored(t: Target) { exists given :: t == Saved(given) }

  lemma StoredIsNormal(t: Target)
    requires Stored(t)
    ensures TagOf(t.tag) == t.tag && t.tag != "" && ProtocolOf(t.protocol) == t.protocol
  {
    hide TagOf, ProtocolOf;
    var given :| t == Saved(given);
    SavedStays(given);
  }

  ghost predicate AllStored(s: seq<Case>) { forall c :: c in s ==> Stored(c.target) }

  predicate NoFallback(s: seq<Case>) { forall c :: c in s ==> !FallsBack(c.target, c.outcome) }

  // ----- one entry -----

  lemma NamesAgree(c: Case)
    requires Stored(c.target)
    ensures Name(LiveEntry(c)) == Name(RebuiltEntry(c)) == c.target.tag
  {
    hide TagOf, ProtocolOf, Tenths, TargetStatus, Stored;
    StoredIsNormal(c.target);
  }

  lemma SharesAgree(c: Case, tag: string)
    requires Stored(c.target) && !FallsBack(c.target, c.outcome)
    ensures Share(LiveEntry(c), tag) == Share(RebuiltEntry(c), tag)
  {
    hide TagOf, ProtocolOf, Tenths, TargetStatus, Stored, PartOf;
    StoredIsNormal(c.target);
    NamesAgree(c);
    PartsAgree(LiveEntry(c).probe, RebuiltEntry(c).probe);
  }

  /** A stored latency is read only where there is one. */
  lemma PartsAgree(p: Probe, q: Probe)
    requires p.total == q.total && p.success == q.success && p.failed == q.failed
    requires p.success > 0 ==> p.latency == q.latency
    ensures PartOf(p) == PartOf(q)
  {
  }

  /** A stored result gives back the probe it was made of, but for the latencies of one that failed. */
  lemma RebuiltIsProbe(c: Case)
    requires Stored(c.target) && !FallsBack(c.target, c.outcome)
    ensures var p, q := LiveEntry(c).probe, RebuiltEntry(c).probe;
            && (p.success > 0 ==> q == p)
            && (p.success <= 0 ==> q == p.(latency := 0.0, min := 0.0, max := 0.0))
  {
    hide TagOf, ProtocolOf, Tenths, TargetStatus, Stored;
    StoredIsNormal(c.target);
    TwoProtocols(c.target.protocol);
  }

  lemma TwoProtocols(protocol: string)
    ensures ProtocolOf(protocol) == "TCP" || ProtocolOf(protocol) == "ICMP"
  {
  }

  // ----- whole reports -----

  ghost predicate Alike(a: seq<Entry>, b: seq<Entry>, tag: string) {
    |a| == |b| && forall i :: 0 <= i < |a| ==> Name(a[i]) == Name(b[i]) && Share(a[i], tag) == Share(b[i], tag)
  }

  lemma {:induction false} AlikeTallies(a: seq<Entry>, b: seq<Entry>, tag: string)
    requires Alike(a, b, tag)
    ensures GroupTally(a, tag) == GroupTally(b, tag)
  {
    hide Share, Name, PlusGroup;
    if a != [] { AlikeTallies(a[..|a| - 1], b[..|b| - 1], tag); }
  }

  lemma AlikeGroups(a: seq<Entry>, b: seq<Entry>)
    requires forall tag :: Alike(a, b, tag)
    ensures Groups(a) == Groups(b)
  {
    hide Share, PillarOfGroup, GroupTally;
    assert Alike(a, b, "");
    forall name ensures name in Names(a) <==> name in Names(b) {
      if name in Names(a) {
        var i :| 0 <= i < |a| && Name(a[i]) == name;
        assert b[i] in b;
      }
      if name in Names(b) {
        var i :| 0 <= i < |b| && Name(b[i]) == name;
        assert a[i] in a;
      }
    }
    forall tag ensures GroupTally(a, tag) == GroupTally(b, tag) { AlikeTallies(a, b, tag); }
  }

  ghost function Bag(s: seq<Case>): multiset<Entry> { multiset(FromResults(s)) }

  lemma BagWithout(s: seq<Case>, i: nat)
    requires i < |s|
    ensures Bag(s) == Bag(Without(s, i)) + multiset{RebuiltEntry(s[i])}
  {
    hide RebuiltEntry;
    var rest := FromResults(Without(s, i));
    assert FromResults(s) == rest[..i] + [RebuiltEntry(s[i])] + rest[i..];
    assert rest == rest[..i] + rest[i..];
  }

  /** Results are read back in an order of their own. */
  lemma {:induction false} ResultsPermute(a: seq<Case>, b: seq<Case>)
    requires multiset(a) == multiset(b)
    ensures Bag(a) == Bag(b)
  {
    hide Bag;
    if a == [] {
      assert |multiset(a)| == |multiset(b)| == |b|;
      assert a == b;
    } else {
      var n := |a| - 1;
      var i := LastElsewhere(a, b);
      ResultsPermute(a[..n], Without(b, i));
      assert Without(a, n) == a[..n];
      BagWithout(a, n);
      BagWithout(b, i);
    }
  }

  /** The rebuilt report has the groups of the live one, whatever order the targets come in, if no
      ICMP target was probed over TCP. */
  lemma RebuiltAgrees(live: seq<Case>, stored: seq<Case>)
    requires multiset(Regular(live)) == multiset(Regular(stored))
    requires AllStored(Regular(live)) && NoFallback(Regular(live))
    ensures Groups(Live(Regular(live))) == Groups(FromResults(Regular(stored)))
  {
    var a, b := Regular(live), Regular(stored);
    hide Regular, Groups;
    forall tag ensures Alike(Live(a), FromResults(a), tag) {
      forall i | 0 <= i < |a|
        ensures Name(Live(a)[i]) == Name(FromResults(a)[i]) && Share(Live(a)[i], tag) == Share(FromResults(a)[i], tag) {
        NamesAgree(a[i]);
        SharesAgree(a[i], tag);
        hide LiveEntry, RebuiltEntry, Share, Name;
      }
    }
    AlikeGroups(Live(a), FromResults(a));
    ResultsPermute(a, b);
    GroupsPermute(FromResults(a), FromResults(b));
  }

  // ----- fallback -----

  /** What the live and the rebuilt group know of the cases behind them. */
  lemma MethodCounts(s: seq<Case>, tag: string)
    requires AllStored(s)
    ensures GroupTally(Live(s), tag).probes.icmp.count > 0
            <==> exists c :: c in s && c.target.tag == tag && Pinged(c.target, c.outcome)
    ensures GroupTally(Live(s), tag).probes.tcp.count > 0
            <==> exists c :: c in s && c.target.tag == tag && !Pinged(c.target, c.outcome)
    ensures GroupTally(FromResults(s), tag).probes.icmp.count > 0
            <==> exists c :: c in s && c.target.tag == tag && c.target.protocol == "ICMP"
    ensures GroupTally(FromResults(s), tag).probes.tcp.count > 0
            <==> exists c :: c in s && c.target.tag == tag && c.target.protocol != "ICMP"
  {
    hide GroupTally, Pinged;
    LiveCounts(s, tag);
    RebuiltCounts(s, tag);
  }

  lemma {:induction false} LiveCounts(s: seq<Case>, tag: string)
    requires AllStored(s)
    ensures GroupTally(Live(s), tag).probes.icmp.count > 0
            <==> exists c :: c in s && c.target.tag == tag && Pinged(c.target, c.outcome)
    ensures GroupTally(Live(s), tag).probes.tcp.count > 0
            <==> exists c :: c in s && c.target.tag == tag && !Pinged(c.target, c.outcome)
  {
    hide PartOf, GroupTally, Share, LiveEntry, RebuiltEntry, Pinged, Stored, TallyOf;
    if s == [] {
      NothingTallied(Live(s), tag);
    } else {
      var front, c := s[..|s| - 1], s[|s| - 1];
      assert s == front + [c];
      assert c in s && forall x :: x in front ==> x in s;
      LiveCounts(front, tag);
      assert Live(s) == Live(front) + [LiveEntry(c)];
      TallySnoc(Live(front), LiveEntry(c), tag);
      OneCounts(c, tag);
    }
  }

  lemma {:induction false} RebuiltCounts(s: seq<Case>, tag: string)
    requires AllStored(s)
    ensures GroupTally(FromResults(s), tag).probes.icmp.count > 0
            <==> exists c :: c in s && c.target.tag == tag && c.target.protocol == "ICMP"
    ensures GroupTally(FromResults(s), tag).probes.tcp.count > 0
            <==> exists c :: c in s && c.target.tag == tag && c.target.protocol != "ICMP"
  {
    hide PartOf, GroupTally, Share, LiveEntry, RebuiltEntry, Pinged, Stored, TallyOf;
    if s == [] {
      NothingTallied(FromResults(s), tag);
    } else {
      var front, c := s[..|s| - 1], s[|s| - 1];
      assert s == front + [c];
      assert c in s && forall x :: x in front ==> x in s;
      RebuiltCounts(front, tag);
      assert FromResults(s) == FromResults(front) + [RebuiltEntry(c)];
      TallySnoc(FromResults(front), RebuiltEntry(c), tag);
      OneCounts(c, tag);
    }
  }

  lemma NothingTallied(s: seq<Entry>, tag: string)
    requires s == []
    ensures GroupTally(s, tag).probes.icmp.count == 0 && GroupTally(s, tag).probes.tcp.count == 0
  {
  }

  lemma OneCounts(c: Case, tag: string)
    requires Stored(c.target)
    ensures Share(LiveEntry(c), tag).probes.icmp.count ==
            if c.target.tag == tag && Pinged(c.target, c.outcome) then 1 else 0
    ensures Share(LiveEntry(c), tag).probes.tcp.count ==
            if c.target.tag == tag && !Pinged(c.target, c.outcome) then 1 else 0
    ensures Share(RebuiltEntry(c), tag).probes.icmp.count ==
            if c.target.tag == tag && c.target.protocol == "ICMP" then 1 else 0
    ensures Share(RebuiltEntry(c), tag).probes.tcp.count ==
            if c.target.tag == tag && c.target.protocol != "ICMP" then 1 else 0
  {
    hide PartOf, TagOf, ProtocolOf, Tenths, TargetStatus, Stored;
    StoredIsNormal(c.target);
    NamesAgree(c);
    PartCounts(LiveEntry(c).probe);
    PartCounts(RebuiltEntry(c).probe);
  }

  /** The targets of a group are all configured for the same method. */
  ghost predicate OneMethodPerGroup(s: seq<Case>) {
    forall c, d :: c in s && d in s && c.target.tag == d.target.tag ==> c.target.protocol == d.target.protocol
  }

  /** When no group mixes methods, the rebuilt report agrees exactly if no ICMP target was probed
      over TCP: a fallback always shows. */
  lemma RebuiltAgreesExactly(live: seq<Case>, stored: seq<Case>)
    requires multiset(Regular(live)) == multiset(Regular(stored))
    requires AllStored(Regular(live)) && OneMethodPerGroup(Regular(live))
    ensures Groups(Live(Regular(live))) == Groups(FromResults(Regular(stored))) <==> NoFallback(Regular(live))
  {
    var a, b := Regular(live), Regular(stored);
    if NoFallback(a) {
      RebuiltAgrees(live, stored);
    } else {
      hide Regular;
      var c :| c in a && FallsBack(c.target, c.outcome);
      var tag := c.target.tag;
      ResultsPermute(a, b);
      GroupsPermute(FromResults(a), FromResults(b));
      MethodCounts(a, tag);
      InGroups(a, c);
      FallbackIsIcmp(c);
      hide FallsBack;
      var x, y := Groups(Live(a))[tag], Groups(FromResults(a))[tag];
      GroupMethods(Live(a), tag);
      GroupMethods(FromResults(a), tag);
      hide Groups, GroupTally, Live, FromResults;
      assert y.protocol == "ICMP";
      assert x.protocol != "ICMP";
    }
  }

  lemma FallbackIsIcmp(c: Case)
    requires Stored(c.target) && FallsBack(c.target, c.outcome)
    ensures c.target.protocol == "ICMP" && !Pinged(c.target, c.outcome)
  {
    hide TagOf, ProtocolOf, Stored;
    StoredIsNormal(c.target);
  }

  lemma InGroups(a: seq<Case>, c: Case)
    requires AllStored(a) && c in a
    ensures c.target.tag in Groups(Live(a)) && c.target.tag in Groups(FromResults(a))
  {
    hide PillarOfGroup, GroupTally, LiveEntry, RebuiltEntry, Stored;
    NamesAgree(c);
    var i :| 0 <= i < |a| && a[i] == c;
    assert Live(a)[i] in Live(a) && FromResults(a)[i] in FromResults(a);
  }

  lemma GroupMethods(s: seq<Entry>, tag: string)
    requires tag in Groups(s)
    ensures Groups(s)[tag].protocol != "ICMP" <==> GroupTally(s, tag).probes.tcp.count > 0
  {
    hide GroupTally, Percent, PartLatency, Average;
  }

  // ----- a fallback that does not show -----

  function Plain(tag: string, protocol: string): Target {
    Saved(Target(tag, protocol, 5, None, None, None, true, false))
  }

  function Steady(ping: bool): Outcome {
    Outcome(if ping then Some(Ping(5, 5, 0, 0.0, 10.0, 10.0, 10.0)) else None, TcpResult(5, 5, 0, 10.0, 10.0, 10.0))
  }

  lemma PlainIsStored(tag: string, protocol: string)
    requires protocol == "ICMP" || protocol == "TCP"
    ensures Stored(Plain(tag, protocol)) && Plain(tag, protocol).tag == TagOf(tag)
            && Plain(tag, protocol).protocol == protocol
    ensures ProtocolOf(protocol) == protocol
  {
    hide TagOf, TrimSpace, Upper;
    PlainStays(protocol);
    UpperStays(protocol);
  }

  lemma SteadyShares(tag: string, protocol: string, ping: bool)
    requires protocol == "ICMP" || protocol == "TCP"
    ensures var c := Case(Plain(tag, protocol), Steady(ping));
            var p := Part(1, 5, 0, 50.0, 5);
            var pinged := protocol == "ICMP" && ping;
            && Name(LiveEntry(c)) == TagOf(tag) == Name(RebuiltEntry(c))
            && Share(LiveEntry(c), TagOf(tag))
                == Group(Tally(5, 5, 0, if pinged then p else NoPart(), if pinged then NoPart() else p), NoLimits())
            && Share(RebuiltEntry(c), TagOf(tag))
                == Group(Tally(5, 5, 0, if protocol == "ICMP" then p else NoPart(),
                    if protocol == "ICMP" then NoPart() else p), NoLimits())
  {
    hide TagOf, ProtocolOf, Stored;
    PlainIsStored(tag, protocol);
    StoredIsNormal(Plain(tag, protocol));
    NamesAgree(Case(Plain(tag, protocol), Steady(ping)));
    assert Tenths(10.0) == 10.0;
    hide Tenths, TargetStatus;
  }

  lemma OneGroup(s: seq<Entry>, name: string, g: Group)
    requires |s| == 3 && (forall e :: e in s ==> Name(e) == name) && GroupTally(s, name) == g
    ensures Groups(s) == map[name := PillarOfGroup(g)]
  {
    hide PillarOfGroup, GroupTally, Name;
    assert s[0] in s;
    assert Names(s) == {name};
  }

  lemma TallyOfThree(s: seq<Entry>, name: string)
    requires |s| == 3
    ensures GroupTally(s, name) == PlusGroup(PlusGroup(Share(s[0], name), Share(s[1], name)), Share(s[2], name))
  {
    hide PlusGroup, Share;
    assert s[..2][..1] == s[..1];
    PlusNothing(Share(s[0], name));
    assert GroupTally(s[..1], name) == Share(s[0], name);
  }

  /** A pinged, a fallen-back and a TCP target of one tag. */
  function MixedCases(tag: string): seq<Case> {
    [Case(Plain(tag, "ICMP"), Steady(true)), Case(Plain(tag, "ICMP"), Steady(false)),
        Case(Plain(tag, "TCP"), Steady(false))]
  }

  lemma MixedTallies(tag: string, p: Part)
    requires p == Part(1, 5, 0, 50.0, 5)
    ensures Groups(Live(MixedCases(tag)))
            == map[TagOf(tag) := PillarOfGroup(Group(Tally(15, 15, 0, p, PlusPart(p, p)), NoLimits()))]
    ensures Groups(FromResults(MixedCases(tag)))
            == map[TagOf(tag) := PillarOfGroup(Group(Tally(15, 15, 0, PlusPart(p, p), p), NoLimits()))]
  {
    var s := MixedCases(tag);
    hide LiveEntry, RebuiltEntry, Stored, TagOf, ProtocolOf, Groups, GroupTally, Share, PlusPart, NoLimits, NoPart,
        PlusGroup, PillarOfGroup, Name;
    ThreeShares(p, 5);
    SteadyShares(tag, "ICMP", true);
    SteadyShares(tag, "ICMP", false);
    SteadyShares(tag, "TCP", false);
    hide Plain, Steady;
    TallyOfThree(Live(s), TagOf(tag));
    TallyOfThree(FromResults(s), TagOf(tag));
    OneGroup(Live(s), TagOf(tag), Group(Tally(15, 15, 0, p, PlusPart(p, p)), NoLimits()));
    OneGroup(FromResults(s), TagOf(tag), Group(Tally(15, 15, 0, PlusPart(p, p), p), NoLimits()));
  }

  /** In a group that mixes methods a fallback need not show: the same group live and rebuilt. */
  lemma MixedGroupHidesFallback(tag: string)
    ensures var s := MixedCases(tag);
            && AllStored(s) && (exists c :: c in s && FallsBack(c.target, c.outcome))
            && Groups(Live(s)) == Groups(FromResults(s))
  {
    hide Groups, Live, FromResults, Stored, TagOf, ProtocolOf, PillarOfGroup, PlusPart;
    var s := MixedCases(tag);
    PlainIsStored(tag, "ICMP");
    PlainIsStored(tag, "TCP");
    assert FallsBack(s[1].target, s[1].outcome) && s[1] in s;
    hide Plain, Steady, FallsBack;
    var p := Part(1, 5, 0, 50.0, 5);
    MixedTallies(tag, p);
    SamePillar(Group(Tally(15, 15, 0, p, PlusPart(p, p)), NoLimits()),
        Group(Tally(15, 15, 0, PlusPart(p, p), p), NoLimits()), p);
  }

  lemma ThreeShares(p: Part, n: int)
    ensures var icmp, tcp := Group(Tally(n, n, 0, p, NoPart()), NoLimits()),
            Group(Tally(n, n, 0, NoPart(), p), NoLimits());
            && PlusGroup(PlusGroup(icmp, tcp), tcp)
                == Group(Tally(n + n + n, n + n + n, 0, p, PlusPart(p, p)), NoLimits())
            && PlusGroup(PlusGroup(icmp, icmp), tcp)
                == Group(Tally(n + n + n, n + n + n, 0, PlusPart(p, p), p), NoLimits())
  {
    PartNothing(p);
    PartNothing(PlusPart(p, p));
    PartNothing(NoPart());
    LimitsNothing(NoLimits());
    hide PlusPart, PlusLimits, NoPart, NoLimits;
  }

  lemma PartNothing(p: Part)
    ensures PlusPart(p, NoPart()) == p == PlusPart(NoPart(), p)
  {
  }

  lemma LimitsNothing(l: Limits)
    ensures PlusLimits(l, NoLimits()) == l
  {
  }

  lemma Doubled(p: Part)
    ensures PlusPart(p, p) == Part(2 * p.count, 2 * p.total, 2 * p.failed, 2.0 * p.weighted, 2 * p.success)
  {
  }

  lemma SamePillar(g: Group, h: Group, p: Part)
    requires g.limits == h.limits && p.count == 1 && p.total == 5 && p.failed == 0 && p.weighted == 50.0
             && p.success == 5
    requires g.probes == Tally(15, 15, 0, p, PlusPart(p, p)) && h.probes == Tally(15, 15, 0, PlusPart(p, p), p)
    ensures PillarOfGroup(g) == PillarOfGroup(h)
  {
    Doubled(p);
    hide PlusPart, Tenths, Average, Evaluated;
    assert Percent(0, 5) == Percent(0, 10);
    hide Percent;
    assert PartLatency(p) == PartLatency(PlusPart(p, p)) by { assert 50.0 / 5 as real == 100.0 / 10 as real; }
    hide PartLatency;
  }
}
