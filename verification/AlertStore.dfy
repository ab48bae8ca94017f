/** The job of backend/internal/scheduler/alert_job.go, method by method, on the tables that all its
workers share.  Every method is some steps of a run, so what is proved of runs holds of the tables.
*/
module AlertStore {
  import opened Options
  import opened Alerts
  import opened AlertTheorems

  /** What the telemetry says of a rule on a server, and whether the statements succeed; `seen` is
      the worker's clock when it compares. */
  datatype Reading = NoData | True(seen: int, stored: bool, committed: bool) | False(committed: bool)

  class AlertJob {
    var states: map<Key, State>
    var log: seq<Notification>
    ghost var events: seq<Event>

    ghost function View(): Tables reads this { Tables(states, log) }

    ghost predicate Valid() reads this { Run(events).tables == View() }

    ghost predicate FiringNow(key: Key) reads this { IsFiring(View(), key) }

    constructor ()
      ensures Valid() && events == [] && states == map[] && log == []
    {
      states, log := map[], [];
      events := [];
    }

    /** Between the methods a key's notifications alternate, and its stored start is the time of the
        first true evaluation of the run that is still unbroken. */
    lemma Consistent(key: Key)
      requires Valid()
      ensures Agrees(View(), key)
      ensures forall i: nat :: i < |events| && StartsRun(events, i, key) ==>
              StartOf(View(), key) == Some(TimeAt(events, i))
      ensures StartOf(View(), key).Some? ==> exists i: nat :: i < |events| && StartsRun(events, i, key)
    {
      NotificationsAlternate(events, key);
      StartIsFirstTrue(events, key);
      hide Run, StartsRun, Agrees;
    }

    /** What happens elsewhere: workers begin and give up, time passes. */
    ghost method Elsewhere(e: Event)
      requires Valid() && Run(events + [e]).tables == View()
      modifies this`events
      ensures Valid() && events == old(events) + [e]
    {
      events := events + [e];
    }

    /** `conditionSatisfiedLongEnough`: whether the alert is firing already, or the rule does not
        wait, or the unbroken run of true evaluations, this one included, has lasted long enough. */
    method ConditionSatisfiedLongEnough(worker: Worker, rule: Rule, key: Key, now: int, seen: int) returns (ready: bool)
      requires Valid() && Enabled(Run(events), Observe(worker, rule, key)) && Run(events).now == now <= seen
      modifies this`states, this`events
      ensures Valid() && events == old(events) + [Observe(worker, rule, key), Wait(seen - now), Test(worker)]
      ensures log == old(log) && states == old(states)[key := if key !in old(states) then
                  State(Waiting, Some(now), None, None)
              else
                  old(states)[key].(status := if old(states)[key].status == Firing then Firing else Waiting,
                      started := if old(states)[key].started.Some? then old(states)[key].started else Some(now))]
      ensures FiringNow(key) == old(FiringNow(key))
      ensures ready <==> old(FiringNow(key)) || rule.immediate || Lasted(events, key, rule.durationMinutes * 60)
      ensures Run(events).now == seen && worker in Run(events).workers
      ensures var x := Run(events).workers[worker].point;
              if ready then key in states && x == Passed(rule, key, states[key], |old(events)|) else x == Between
      ensures Run(events).workers[worker].began == Run(old(events)).workers[worker].began
              && Run(events).gone == Run(old(events)).gone
    {
      Compared(events, worker, rule, key, seen - now);
      hide Run, Lasted;
      var status, started := Waiting, now;
      if key in states {
        if states[key].status == Firing { status := Firing; }
        if states[key].started.Some? { started := states[key].started.value; }
        states := states[key := states[key].(status := status, started := Some(started))];
      } else {
        states := states[key := State(Waiting, Some(now), None, None)];
      }
      events := events + [Observe(worker, rule, key), Wait(seen - now), Test(worker)];
      if status == Firing { return true; }
      if rule.immediate { return true; }
      return !(seen < started + rule.durationMinutes * 60);
    }

    /** `handleFiring`: the transition with its notification, unless the alert is firing already; then a
        reminder, exactly if the rule has reminders and the last message is at least their interval old. */
    method HandleFiring(worker: Worker, rule: Rule, key: Key, now: int, committed: bool)
      returns (started: bool, reminded: bool)
      requires Valid() && Enabled(Run(events), Fire(worker, committed)) && Run(events).now == now
      requires Run(events).workers[worker].point.rule == rule && Run(events).workers[worker].point.key == key
      modifies this
      ensures Valid() && old(events) <= events
      ensures worker in Run(events).workers && Run(events).workers[worker].point == Between
      ensures started <==> committed && !old(FiringNow(key))
      ensures log == old(log) + if started then [Notification(key, AlertFiring)] else []
      ensures started ==> key in old(states) && states == old(states)[key := old(states)[key].(status := Firing,
          triggered := Some(now),
          started := if old(states)[key].started.Some? then old(states)[key].started else Some(now))]
      ensures reminded <==>
                && old(FiringNow(key)) && committed && rule.repeatMinutes > 0
                && (old(states)[key].notified.None? || old(states)[key].notified.value + rule.repeatMinutes * 60 <= now)
      ensures reminded ==> states == old(states)[key := old(states)[key].(notified := Some(now))]
      ensures !started && !reminded ==> states == old(states)
      ensures started && !rule.immediate ==>
                (Lasted(events, key, rule.durationMinutes * 60)
                 <==> forall j: nat :: Run(old(events)).workers[worker].point.at < j < |old(events)| ==>
                     !ResetsAt(old(events), j, key))
    {
      hide Run, Lasted, Enabled, Next, FiringHasStart, RowsThere, ResetsAt;
      RunRows(events);
      if committed { RowStands(Run(events), worker); }
      if committed && !IsFiring(View(), key) && !rule.immediate {
        WouldFire(Run(events), worker); StartsInTimeExactly(events, worker);
      }
      Transition(events, worker, committed);
      started, reminded := false, false;
      events := events + [Fire(worker, committed)];
      if !committed { return; }
      if key in states && states[key].status == Firing {
        events := events + [Look(worker)];
        if rule.repeatMinutes > 0 {
          var last := states[key].notified;
          if last.None? || now - last.value >= rule.repeatMinutes * 60 {
            states := states[key := states[key].(notified := Some(now))];
            events := events + [Remind(worker, true)];
            reminded := true;
          }
        }
        return;
      }
      var begun := if states[key].started.Some? then states[key].started else Some(now);
      states := states[key := states[key].(status := Firing, triggered := Some(now), started := begun)];
      log := log + [Notification(key, AlertFiring)];
      started := true;
    }

    /** `handleResolved`. */
    method HandleResolved(worker: Worker, key: Key, now: int, committed: bool)
      requires Valid() && Enabled(Run(events), Resolve(worker, key, committed)) && Run(events).now == now
      modifies this
      ensures Valid() && events == old(events) + [Resolve(worker, key, committed)]
      ensures log == old(log) + if committed && old(FiringNow(key)) then [Notification(key, AlertResolved)] else []
      ensures committed ==> !FiringNow(key) && StartOf(View(), key).None?
      ensures states == if !committed || key !in old(states) then old(states)
              else old(states)[key := State(Fine, None,
                  if old(FiringNow(key)) then Some(now) else old(states)[key].triggered, None)]
    {
      RunExtends(events, Resolve(worker, key, committed));
      hide Run;
      events := events + [Resolve(worker, key, committed)];
      if key !in states || !committed { return; }
      var previous := states[key].status;
      var row := states[key].(status := Fine, started := None, notified := None);
      if previous == Firing { row := row.(triggered := Some(now)); }
      states := states[key := row];
      if previous != Firing { return; }
      log := log + [Notification(key, AlertResolved)];
    }

    /** `DeleteRule`: the rule's states and notifications go, and those of no other rule. */
    method DeleteRule(rule: nat)
      requires Valid()
      modifies this
      ensures Valid() && events == old(events) + [Remove(OfRule(rule))]
      ensures forall k :: k in states <==> k in old(states) && k.rule != rule
      ensures forall k :: k in states ==> states[k] == old(states)[k]
      ensures forall key :: LogOf(log, key) == if key.rule == rule then [] else LogOf(old(log), key)
    {
      hide Run, LogOf;
      RunExtends(events, Remove(OfRule(rule)));
      forall key ensures LogOf(Without(log, OfRule(rule)), key) == if key.rule == rule then [] else LogOf(log, key) {
        LogWithout(log, OfRule(rule), key);
      }
      states := map k | k in states && !Concerns(OfRule(rule), k) :: states[k];
      log := Without(log, OfRule(rule));
      events := events + [Remove(OfRule(rule))];
    }

    /** Deleting a server takes its states along; no notification refers to it any more, and those of other
        servers stay. */
    method DeleteServer(server: nat)
      requires Valid()
      modifies this
      ensures Valid() && events == old(events) + [Remove(OfServer(server))]
      ensures forall k :: k in states <==> k in old(states) && k.server != server
      ensures forall k :: k in states ==> states[k] == old(states)[k]
      ensures forall key :: LogOf(log, key) == if key.server == server then [] else LogOf(old(log), key)
    {
      hide Run, LogOf;
      RunExtends(events, Remove(OfServer(server)));
      forall key
        ensures LogOf(Without(log, OfServer(server)), key) == if key.server == server then [] else LogOf(log, key)
      {
        LogWithout(log, OfServer(server), key);
      }
      states := map k | k in states && !Concerns(OfServer(server), k) :: states[k];
      log := Without(log, OfServer(server));
      events := events + [Remove(OfServer(server))];
    }

    /** The body of the loop in `evaluateRule`, with nothing in between: an alert whose condition is true
        fires exactly if it did before, or the rule does not wait, or the condition has been true for the
        configured time; one whose condition is false does not fire. */
    method Evaluate(worker: Worker, rule: Rule, key: Key, now: int, reading: Reading)
      requires Valid() && Enabled(Run(events), Observe(worker, rule, key)) && Run(events).now == now
      requires reading.True? ==>
               now <= reading.seen
                   && (reading.committed ==> reading.seen < Run(events).workers[worker].began + RUN_TIMEOUT)
      modifies this
      ensures Valid() && old(events) <= events
      ensures reading.True? && reading.stored && reading.committed ==>
              (FiringNow(key) <==>
               old(FiringNow(key)) || rule.immediate || Lasted(events, key, rule.durationMinutes * 60))
      ensures reading == False(true) ==> !FiringNow(key)
      ensures reading.NoData? || (reading.False? && !reading.committed) || (reading.True? && !reading.stored) ==>
              View() == old(View())
      ensures log == old(log)
              + if FiringNow(key) && !old(FiringNow(key)) then [Notification(key, AlertFiring)]
                else if old(FiringNow(key)) && !FiringNow(key) then [Notification(key, AlertResolved)] else []
    {
      match reading
      case NoData =>
      case True(seen, stored, committed) =>
        if !stored { return; }
        ghost var n := |events|;
        var ready := ConditionSatisfiedLongEnough(worker, rule, key, now, seen);
        if !ready { return; }
        NoResetSince(events, n, worker, rule, key, seen - now);
        var started, reminded := HandleFiring(worker, rule, key, seen, committed);
      case False(committed) => HandleResolved(worker, key, now, committed);
    }
  }

  /** The transition, and after one that found the alert firing the look at the row and the reminder. */
  lemma Transition(events: seq<Event>, p: Worker, committed: bool)
    requires Enabled(Run(events), Fire(p, committed))
    ensures var w := Run(events); var x := w.workers[p].point; var more := events + [Fire(p, committed)];
            && Run(more).tables == (if committed then Fired(w.tables, x.key, w.now) else w.tables)
            && p in Run(more).workers
            && (!committed || !IsFiring(w.tables, x.key) ==> Run(more).workers[p].point == Between)
            && (committed && IsFiring(w.tables, x.key) ==>
                  AfterLook(Run(more + [Look(p)]), Run(more + [Look(p)] + [Remind(p, true)]), w, p, x))
  {
    RunExtends(events, Fire(p, committed));
    RunExtends(events + [Fire(p, committed)], Look(p));
    RunExtends(events + [Fire(p, committed)] + [Look(p)], Remind(p, true));
    hide Run;
  }

  /** The worlds after the look and after the reminder, when the alert was found firing in world `w`. */
  ghost predicate AfterLook(looked: World, reminded: World, w: World, p: Worker, x: Point)
    requires (x.Passed? || x.Returned?) && x.key in w.tables.states
  {
    var due := ReminderDue(x.rule, w.tables.states[x.key].notified, w.now);
    && looked.tables == w.tables && p in looked.workers && p in reminded.workers
    && (!due ==> looked.workers[p].point == Between)
    && (due ==> reminded.tables == Reminded(w.tables, x.key, w.now) && reminded.workers[p].point == Between)
  }

  lemma NoResetSince(events: seq<Event>, n: nat, p: Worker, rule: Rule, key: Key, seconds: nat)
    requires |events| == n + 3 && events == events[..n] + [Observe(p, rule, key), Wait(seconds), Test(p)]
    ensures forall j: nat :: n < j < |events| ==> !ResetsAt(events, j, key)
  {
    hide Run;
  }

  lemma WouldFire(w: World, p: Worker)
    requires Enabled(w, Fire(p, true))
    ensures p in w.workers && w.workers[p].point.Passed?
  {
  }

  lemma RowStands(w: World, p: Worker)
    requires RowsThere(w) && Enabled(w, Fire(p, true))
    ensures w.workers[p].point.key in w.tables.states
  {
    assert RowThere(w, w.workers[p].point);
  }

  /** The upsert, some time, and the test. */
  lemma Compared(events: seq<Event>, p: Worker, rule: Rule, key: Key, seconds: nat)
    requires Enabled(Run(events), Observe(p, rule, key))
    ensures var w := Run(events); var more := events + [Observe(p, rule, key), Wait(seconds), Test(p)];
            var r := Run(more);
            var row := Observed(w.tables, key, w.now).states[key];
            && r.tables == Observed(w.tables, key, w.now) && r.now == w.now + seconds && r.gone == w.gone
            && p in r.workers && r.workers[p].began == w.workers[p].began
            && r.workers[p].point == (if Ready(rule, row, r.now) then Passed(rule, key, row, |events|) else Between)
            && row.started.Some?
            && (Lasted(more, key, rule.durationMinutes * 60)
                <==> r.now >= row.started.value + rule.durationMinutes * 60)
  {
    hide Run, Next, Enabled, Ready, Lasted;
    StepsCounted(events);
    var one := Then(events, Observe(p, rule, key));
    var two := Then(one, Wait(seconds));
    var three := Then(two, Test(p));
    assert three == events + [Observe(p, rule, key), Wait(seconds), Test(p)];
    ThreeSteps(Run(events), p, rule, key, seconds);
    LastedSinceStart(three, key, rule.durationMinutes * 60);
  }

  lemma ThreeSteps(w: World, p: Worker, rule: Rule, key: Key, seconds: nat)
    requires Enabled(w, Observe(p, rule, key))
    ensures var r := Next(Next(Next(w, Observe(p, rule, key)), Wait(seconds)), Test(p));
            var row := Observed(w.tables, key, w.now).states[key];
            && r.tables == Observed(w.tables, key, w.now) && r.now == w.now + seconds && r.gone == w.gone
            && p in r.workers && r.workers[p].began == w.workers[p].began
            && r.workers[p].point == (if Ready(rule, row, r.now) then Passed(rule, key, row, w.steps) else Between)
  {
    hide Ready;
  }

  /** The run at the end has lasted as long as the stored start says. */
  lemma LastedSinceStart(events: seq<Event>, key: Key, seconds: int)
    requires StartOf(Run(events).tables, key).Some?
    ensures Lasted(events, key, seconds) <==> Run(events).now >= StartOf(Run(events).tables, key).value + seconds
  {
    StartIsFirstTrue(events, key);
    hide Run, StartsRun;
  }
}
