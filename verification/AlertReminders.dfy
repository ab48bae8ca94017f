/** How far apart the reminders of one unbroken firing are, for any interleaving of workers. */
module AlertReminders {
  import opened Options
  import opened Alerts
  import opened AlertTheorems

  /** The worker's reminder moves the time of the last message in the alert's row. */
  ghost predicate Reminds(w: World, e: Event, key: Key) {
    e.Remind? && e.stored && Enabled(w, e) && w.workers[e.worker].point.key == key && key in w.tables.states
  }

  ghost predicate RemindsAt(events: seq<Event>, i: nat, key: Key) {
    i < |events| && Reminds(Run(events[..i]), events[i], key)
  }

  /** The last message was sent at `from` or later. */
  ghost predicate ToldSince(t: Tables, key: Key, from: int) {
    key in t.states && t.states[key].notified.Some? && from <= t.states[key].notified.value
  }

  lemma ToldStays(w: World, e: Event, key: Key, from: int)
    requires ToldSince(w.tables, key, from) && from <= w.now && !Breaks(w, e, key)
    ensures ToldSince(Next(w, e).tables, key, from)
  {
    hide Without;
  }

  lemma RemindTells(w: World, e: Event, key: Key)
    requires Reminds(w, e, key)
    ensures ToldSince(Next(w, e).tables, key, w.now)
  {
  }

  lemma {:induction false} ToldSinceReminder(events: seq<Event>, i: nat, key: Key)
    requires RemindsAt(events, i, key) && Unbroken(events, i, key)
    ensures ToldSince(Run(events).tables, key, TimeAt(events, i))
  {
    var n := |events| - 1;
    if i == n {
      RemindTells(Run(events[..n]), events[n], key);
    } else {
      assert !BreaksAt(events, n, key);
      assert events[..n][..i] == events[..i];
      UnbrokenLast(events, i, key);
      ToldSinceReminder(events[..n], i, key);
      ClockMonotone(events[..n], i);
      ToldStays(Run(events[..n]), events[n], key, TimeAt(events, i));
    }
  }

  /** What a reminder that is due says of the past: which step read the row, and what it found. */
  ghost predicate Looked(events: seq<Event>, p: Worker, began: int, x: Point) {
    x.Due? ==>
      && x.at < |events| && events[x.at] == Look(p) && began <= TimeAt(events, x.at)
      && var t := Run(events[..x.at]).tables;
      && x.key in t.states && ReminderDue(x.rule, t.states[x.key].notified, TimeAt(events, x.at))
  }

  /** How a worker comes to have a reminder due. */
  lemma DueMoves(w: World, e: Event, p: Worker)
    requires p in Next(w, e).workers && Next(w, e).workers[p].point.Due?
    ensures p in w.workers && w.workers[p].began == Next(w, e).workers[p].began
    ensures var x := Next(w, e).workers[p].point;
            || (w.workers[p].point == x && !(e.Remind? && e.worker == p && Enabled(w, e)))
            || (e == Look(p) && Enabled(w, e) && x.at == w.steps
                && x.key in w.tables.states && ReminderDue(x.rule, w.tables.states[x.key].notified, w.now))
  {
    hide Observed, Fired, Resolved, Reminded, Removed, Ready;
  }

  lemma {:induction false} RunLooked(events: seq<Event>, p: Worker)
    requires p in Run(events).workers
    ensures Looked(events, p, Run(events).workers[p].began, Run(events).workers[p].point)
  {
    var n := |events| - 1;
    var w, e := Run(events[..n]), events[n];
    assert Run(events) == Next(w, e);
    if Run(events).workers[p].point.Due? {
      DueMoves(w, e, p);
      StepsCounted(events[..n]);
      hide Next, Enabled;
      BeganBefore(events[..n], p);
      RunLooked(events[..n], p);
      var x := w.workers[p].point;
      if x.Due? { assert x.at < n ==> events[..n][..x.at] == events[..x.at]; }
    }
  }

  /** From the moment it reads the row until it sends the reminder a worker does nothing else. */
  lemma {:induction false} DueSince(events: seq<Event>, p: Worker, j: nat)
    requires p in Run(events).workers && Run(events).workers[p].point.Due?
    requires Run(events).workers[p].point.at < j <= |events|
    ensures p in Run(events[..j]).workers && Run(events[..j]).workers[p].point == Run(events).workers[p].point
    ensures j < |events| ==> !(events[j].Remind? && events[j].worker == p && Enabled(Run(events[..j]), events[j]))
  {
    if j == |events| {
      assert events[..j] == events;
    } else {
      var n := |events| - 1;
      assert Run(events) == Next(Run(events[..n]), events[n]);
      DueMoves(Run(events[..n]), events[n], p);
      StepsCounted(events[..n]);
      hide Next, Enabled;
      assert events[..n][..j] == events[..j];
      if j < n {
        DueSince(events[..n], p, j);
      } else {
        assert events[..n] == events[..j];
      }
    }
  }

  /** When the step that sends reminder `j` read the row. */
  ghost function LookOf(events: seq<Event>, j: nat, key: Key): (a: nat)
    requires RemindsAt(events, j, key)
  {
    Run(events[..j]).workers[events[j].worker].point.at
  }

  ghost function RuleOf(events: seq<Event>, j: nat, key: Key): Rule
    requires RemindsAt(events, j, key)
  {
    Run(events[..j]).workers[events[j].worker].point.rule
  }

  /** The reminder's worker read the row before, and found it due. */
  lemma LookBefore(events: seq<Event>, j: nat, key: Key)
    requires RemindsAt(events, j, key)
    ensures var a := LookOf(events, j, key);
            && a < j && events[a] == Look(events[j].worker)
            && TimeAt(events, j) < TimeAt(events, a) + RUN_TIMEOUT
            && var t := Run(events[..a]).tables;
            key in t.states && ReminderDue(RuleOf(events, j, key), t.states[key].notified, TimeAt(events, a))
  {
    var p := events[j].worker;
    RunLooked(events[..j], p);
    var a := LookOf(events, j, key);
    hide Run;
    assert a < j ==> events[..j][..a] == events[..a] && events[..j][a] == events[a];
  }

  /** For any interleaving of any number of workers: two reminders of one unbroken firing are at least
      the interval apart if and only if the worker of the second had read the row after the first was
      stored. */
  lemma RemindersApartExactly(events: seq<Event>, i: nat, j: nat, key: Key)
    requires i < j && RemindsAt(events, i, key) && RemindsAt(events, j, key)
    requires forall m: nat :: i < m < j ==> !BreaksAt(events, m, key)
    ensures LookOf(events, j, key) < j && events[LookOf(events, j, key)] == Look(events[j].worker)
    ensures TimeAt(events, j) - TimeAt(events, i) >= RuleOf(events, j, key).repeatMinutes * 60
            <==> i < LookOf(events, j, key)
  {
    var a := LookOf(events, j, key);
    LookBefore(events, j, key);
    hide Run, BreaksAt;
    if i < a {
      ClockBetween(events, a, j);
      ToldAtLook(events, i, a, key);
    } else {
      ClockBetween(events, a, i);
    }
  }

  lemma ToldAtLook(events: seq<Event>, i: nat, a: nat, key: Key)
    requires i < a < |events| && RemindsAt(events, i, key) && forall m: nat :: i < m < a ==> !BreaksAt(events, m, key)
    ensures ToldSince(Run(events[..a]).tables, key, TimeAt(events, i))
  {
    assert events[..a][..i] == events[..i];
    hide Run, BreaksAt, Reminds;
    forall m: nat | i < m < a ensures !BreaksAt(events[..a], m, key) { PrefixSame(events, a, m, key); }
    assert RemindsAt(events[..a], i, key);
    ToldSinceReminder(events[..a], i, key);
  }

  /** The reminders that one worker sends in one unbroken firing are at least the interval apart. */
  lemma OneWorkerReminds(events: seq<Event>, i: nat, j: nat, key: Key)
    requires i < j && RemindsAt(events, i, key) && RemindsAt(events, j, key) && events[i].worker == events[j].worker
    requires forall m: nat :: i < m < j ==> !BreaksAt(events, m, key)
    ensures TimeAt(events, j) - TimeAt(events, i) >= RuleOf(events, j, key).repeatMinutes * 60
  {
    var a := LookOf(events, j, key);
    RemindersApartExactly(events, i, j, key);
    if a < i {
      assert events[..j][..i] == events[..i];
      DueSince(events[..j], events[j].worker, i);
    }
    hide Run;
  }

  /** Worker 1 has started the alert. */
  lemma Started(rule: Rule, key: Key) returns (events: seq<Event>)
    requires Accepted(rule) && !rule.immediate
    ensures var now := rule.durationMinutes * 60; var row := State(Firing, Some(0), Some(now), None);
            && Run(events).tables == Tables(map[key := row], [Notification(key, AlertFiring)]) && Run(events).now == now
            && Run(events).workers == map[1 := Evaluation(now, Between), 2 := Evaluation(now, Between)]
            && Run(events).gone == {}
  {
    hide Run;
    events := SecondLook(rule, key);
    events := Then(events, Fire(1, true));
  }

  /** Worker 1 has started the alert, and has found it firing at its next evaluation. */
  lemma OneFindsItFiring(rule: Rule, key: Key) returns (events: seq<Event>)
    requires Accepted(rule) && !rule.immediate
    ensures var now := rule.durationMinutes * 60; var row := State(Firing, Some(0), Some(now), None);
            && Run(events).tables == Tables(map[key := row], [Notification(key, AlertFiring)]) && Run(events).now == now
            && Run(events).workers == map[1 := Evaluation(now, Reminding(rule, key)), 2 := Evaluation(now, Between)]
            && Run(events).gone == {}
  {
    hide Run;
    events := Started(rule, key);
    events := Then(events, Observe(1, rule, key));
    events := Then(events, Test(1));
    events := Then(events, Fire(1, true));
  }

  /** Worker 1 has started the alert, and workers 1 and 2 have both found it firing. */
  lemma BothFindItFiring(rule: Rule, key: Key) returns (events: seq<Event>)
    requires Accepted(rule) && !rule.immediate
    ensures var now := rule.durationMinutes * 60; var row := State(Firing, Some(0), Some(now), None);
            && Run(events).tables == Tables(map[key := row], [Notification(key, AlertFiring)]) && Run(events).now == now
            && Run(events).workers
               == map[1 := Evaluation(now, Reminding(rule, key)), 2 := Evaluation(now, Reminding(rule, key))]
  {
    hide Run;
    events := OneFindsItFiring(rule, key);
    events := Then(events, Observe(2, rule, key));
    events := Then(events, Test(2));
    events := Then(events, Fire(2, true));
  }

  /** Both have read the row and found that a reminder is due. */
  lemma BothLook(rule: Rule, key: Key) returns (events: seq<Event>)
    requires Accepted(rule) && !rule.immediate && rule.repeatMinutes > 0
    ensures var w := Run(events); var now := rule.durationMinutes * 60;
            && IsFiring(w.tables, key) && w.now == now && 1 in w.workers && 2 in w.workers
            && w.workers[1].point.Due? && w.workers[1].point.key == key && w.workers[1].began == now
            && w.workers[2].point.Due? && w.workers[2].point.key == key && w.workers[2].began == now
            && w.workers[2].point.rule == rule
  {
    events := BothFindItFiring(rule, key);
    hide Run;
    events := Then(events, Look(1));
    events := Then(events, Look(2));
  }

  /** Two workers that both read the row before either has stored its reminder send two at once. */
  lemma TwoWorkersRemindTwice(rule: Rule, key: Key) returns (events: seq<Event>)
    requires 1 <= rule.durationMinutes <= 1440 && 0 < rule.repeatMinutes <= 1440 && !rule.immediate
    ensures |events| >= 2
    ensures var i, j := |events| - 2, |events| - 1;
            && RemindsAt(events, i, key) && RemindsAt(events, j, key) && TimeAt(events, i) == TimeAt(events, j)
            && RuleOf(events, j, key) == rule && IsFiring(Run(events).tables, key)
  {
    var before := BothLook(rule, key);
    hide Run;
    var middle := Then(before, Remind(1, true));
    events := Then(middle, Remind(2, true));
    assert events[..|before|] == before && events[..|middle|] == middle;
  }
}
