/** How long a condition has held when its alert starts firing, for any interleaving of workers. */
module AlertTheorems {
  import opened Options
  import opened Alerts

  // ----- runs of true evaluations -----

  /** Step `i` happens: it is enabled when it comes. */
  ghost predicate Happens(events: seq<Event>, i: nat) { i < |events| && Enabled(Run(events[..i]), events[i]) }

  function TimeAt(events: seq<Event>, i: nat): int
    requires i <= |events|
  {
    Run(events[..i]).now
  }

  /** The worker is about to record its transition into firing. */
  predicate Transits(w: World, e: Event, key: Key) {
    && e.Fire? && e.committed && Enabled(w, e) && w.workers[e.worker].point.key == key && !IsFiring(w.tables, key)
  }

  /** A step that records that the condition is true: an upsert or a transition into firing. */
  predicate Sees(w: World, e: Event, key: Key) {
    (e.Observe? && e.key == key && Enabled(w, e)) || Transits(w, e, key)
  }

  /** A committed reset. */
  predicate Resets(w: World, e: Event, key: Key) { e.Resolve? && e.committed && e.key == key && Enabled(w, e) }

  predicate Breaks(w: World, e: Event, key: Key) { Resets(w, e, key) || (e.Remove? && Concerns(e.subject, key)) }

  ghost predicate SeesAt(events: seq<Event>, i: nat, key: Key) {
    i < |events| && Sees(Run(events[..i]), events[i], key)
  }

  ghost predicate ResetsAt(events: seq<Event>, i: nat, key: Key) {
    i < |events| && Resets(Run(events[..i]), events[i], key)
  }

  ghost predicate BreaksAt(events: seq<Event>, i: nat, key: Key) {
    i < |events| && Breaks(Run(events[..i]), events[i], key)
  }

  ghost predicate Unbroken(events: seq<Event>, i: nat, key: Key) {
    forall j: nat :: i < j < |events| ==> !BreaksAt(events, j, key)
  }

  /** Step `i` is the first true evaluation of the run of true evaluations that is unbroken at the
      end; evaluations without data and resets that were not committed do not break it. */
  ghost predicate StartsRun(events: seq<Event>, i: nat, key: Key) {
    && SeesAt(events, i, key) && Unbroken(events, i, key)
    && forall k: nat :: k < i && SeesAt(events, k, key) ==> !Unbroken(events[..i], k, key)
  }

  /** The unbroken run at the end began at least `seconds` ago. */
  ghost predicate Lasted(events: seq<Event>, key: Key, seconds: int) {
    exists i: nat :: i < |events| && StartsRun(events, i, key) && Run(events).now - TimeAt(events, i) >= seconds
  }

  lemma PrefixSame(events: seq<Event>, n: nat, i: nat, key: Key)
    requires i < n <= |events|
    ensures events[..n][..i] == events[..i] && events[..n][i] == events[i]
    ensures SeesAt(events[..n], i, key) <==> SeesAt(events, i, key)
    ensures BreaksAt(events[..n], i, key) <==> BreaksAt(events, i, key)
  {
    assert events[..n][..i] == events[..i];
    hide Run, Sees, Breaks;
  }

  lemma UnbrokenLast(events: seq<Event>, i: nat, key: Key)
    requires events != [] && i < |events| - 1
    ensures Unbroken(events, i, key)
            <==> Unbroken(events[..|events| - 1], i, key) && !BreaksAt(events, |events| - 1, key)
  {
    hide BreaksAt, SeesAt;
    var n := |events| - 1;
    forall j: nat | i < j < n ensures BreaksAt(events[..n], j, key) <==> BreaksAt(events, j, key) {
      PrefixSame(events, n, j, key);
    }
  }

  lemma RunLast(events: seq<Event>, i: nat, key: Key)
    requires events != [] && i < |events| - 1
    ensures StartsRun(events, i, key)
            <==> StartsRun(events[..|events| - 1], i, key) && !BreaksAt(events, |events| - 1, key)
  {
    hide BreaksAt, SeesAt, Unbroken;
    var n := |events| - 1;
    UnbrokenLast(events, i, key);
    PrefixSame(events, n, i, key);
    forall k: nat | k < i ensures SeesAt(events[..n], k, key) <==> SeesAt(events, k, key) {
      PrefixSame(events, n, k, key);
    }
  }

  /** A true evaluation at the end starts a run exactly when no run was open. */
  lemma LastStarts(events: seq<Event>, key: Key)
    requires events != [] && SeesAt(events, |events| - 1, key)
    ensures var n := |events| - 1;
            StartsRun(events, n, key) <==> !exists i: nat :: i < n && StartsRun(events[..n], i, key)
  {
    hide BreaksAt, SeesAt;
    var n := |events| - 1;
    forall k: nat | k < n ensures SeesAt(events[..n], k, key) <==> SeesAt(events, k, key) {
      PrefixSame(events, n, k, key);
    }
    hide Unbroken;
    if k: nat :| k < n && SeesAt(events[..n], k, key) && Unbroken(events[..n], k, key) {
      var i := EarliestOpen(events[..n], k, key);
    }
    assert Unbroken(events, n, key) by { NothingAfter(events, key); }
  }

  lemma NothingAfter(events: seq<Event>, key: Key)
    requires events != []
    ensures Unbroken(events, |events| - 1, key)
  {
    hide BreaksAt;
  }

  lemma {:induction false} EarliestOpen(events: seq<Event>, k: nat, key: Key) returns (i: nat)
    requires k < |events| && SeesAt(events, k, key) && Unbroken(events, k, key)
    ensures i <= k && StartsRun(events, i, key)
    decreases k
  {
    hide BreaksAt, SeesAt, Unbroken;
    if j: nat :| j < k && SeesAt(events, j, key) && Unbroken(events[..k], j, key) {
      SeesNotBreaks(events, k, key);
      Joined(events, j, k, key);
      i := EarliestOpen(events, j, key);
    } else {
      i := k;
    }
  }

  lemma SeesNotBreaks(events: seq<Event>, k: nat, key: Key)
    requires SeesAt(events, k, key)
    ensures !BreaksAt(events, k, key)
  {
    hide Run;
  }

  lemma Joined(events: seq<Event>, j: nat, k: nat, key: Key)
    requires j < k < |events| && Unbroken(events[..k], j, key) && !BreaksAt(events, k, key) && Unbroken(events, k, key)
    ensures Unbroken(events, j, key)
  {
    hide BreaksAt;
    forall m: nat | j < m < k ensures !BreaksAt(events, m, key) { PrefixSame(events, k, m, key); }
  }

  // ----- the stored start -----

  function StartOf(t: Tables, key: Key): Option<int> {
    if key in t.states then t.states[key].started else None
  }

  ghost predicate FiringHasStart(t: Tables) { forall key :: IsFiring(t, key) ==> StartOf(t, key).Some? }

  /** Between its upsert and its transition a worker's row can be reset but not disappear. */
  ghost predicate RowsThere(w: World) { forall p :: p in w.workers ==> RowThere(w, w.workers[p].point) }

  ghost predicate RowThere(w: World, x: Point) {
    x.Returned? || x.Passed? ==> x.key in w.tables.states || Gone(w, x.key)
  }

  lemma StepRows(w: World, e: Event)
    requires FiringHasStart(w.tables) && RowsThere(w)
    ensures FiringHasStart(Next(w, e).tables) && RowsThere(Next(w, e))
  {
    hide Without;
    var r := Next(w, e);
    if e.Fire? && e.worker in w.workers { assert RowThere(w, w.workers[e.worker].point); }
    forall key | IsFiring(r.tables, key) ensures StartOf(r.tables, key).Some? {
      if IsFiring(w.tables, key) { assert StartOf(w.tables, key).Some?; }
    }
    forall p | p in r.workers ensures RowThere(r, r.workers[p].point) {
      if p in w.workers { assert RowThere(w, w.workers[p].point); }
      if e.Remove? { assert RowThere(r, w.workers[p].point); }
    }
  }

  lemma {:induction false} RunRows(events: seq<Event>)
    ensures FiringHasStart(Run(events).tables) && RowsThere(Run(events))
  {
    if events != [] {
      RunRows(events[..|events| - 1]);
      StepRows(Run(events[..|events| - 1]), events[|events| - 1]);
    }
  }

  lemma StepStart(w: World, e: Event, key: Key)
    requires FiringHasStart(w.tables) && RowsThere(w)
    ensures StartOf(Next(w, e).tables, key)
            == if Breaks(w, e, key) then None
               else if Sees(w, e, key) && StartOf(w.tables, key).None? then Some(w.now)
               else StartOf(w.tables, key)
  {
    hide Without;
  }

  /** The stored start is the time of the first true evaluation of the unbroken run, whoever made it,
      and there is none exactly when there is no such run. */
  lemma {:induction false} StartIsFirstTrue(events: seq<Event>, key: Key)
    ensures forall i: nat :: i < |events| && StartsRun(events, i, key) ==>
            StartOf(Run(events).tables, key) == Some(TimeAt(events, i))
    ensures StartOf(Run(events).tables, key).Some? ==> exists i: nat :: i < |events| && StartsRun(events, i, key)
  {
    if events != [] {
      var n := |events| - 1;
      var init := events[..n];
      StartIsFirstTrue(init, key);
      RunRows(init);
      StepStart(Run(init), events[n], key);
      StartLast(events, key);
    }
  }

  lemma StartLast(events: seq<Event>, key: Key)
    requires events != []
    requires var n := |events| - 1; var w := Run(events[..n]);
             && (forall i: nat :: i < n && StartsRun(events[..n], i, key) ==>
                 StartOf(w.tables, key) == Some(TimeAt(events[..n], i)))
             && (StartOf(w.tables, key).Some? ==> exists i: nat :: i < n && StartsRun(events[..n], i, key))
             && StartOf(Run(events).tables, key)
                == (if Breaks(w, events[n], key) then None
                    else if Sees(w, events[n], key) && StartOf(w.tables, key).None? then Some(w.now)
                    else StartOf(w.tables, key))
    ensures forall i: nat :: i < |events| && StartsRun(events, i, key) ==>
            StartOf(Run(events).tables, key) == Some(TimeAt(events, i))
    ensures StartOf(Run(events).tables, key).Some? ==> exists i: nat :: i < |events| && StartsRun(events, i, key)
  {
    hide Run, StartOf, Breaks, Sees, StartsRun;
    var n := |events| - 1;
    forall i: nat | i < n
      ensures StartsRun(events, i, key) <==> StartsRun(events[..n], i, key) && !BreaksAt(events, n, key)
      ensures TimeAt(events[..n], i) == TimeAt(events, i)
    {
      RunLast(events, i, key);
      PrefixSame(events, n, i, key);
    }
    if SeesAt(events, n, key) {
      LastStarts(events, key); SeesNotBreaks(events, n, key);
    } else {
      MustSee(events, n, key);
    }
  }

  lemma MustSee(events: seq<Event>, i: nat, key: Key)
    ensures StartsRun(events, i, key) ==> SeesAt(events, i, key)
  {
    hide SeesAt, Unbroken;
  }

  // ----- one evaluation -----

  /** What a worker's point says of the past: which step its upsert was and what that returned. */
  ghost predicate Recorded(events: seq<Event>, p: Worker, began: int, x: Point) {
    x.Returned? || x.Passed? ==>
      && x.at < |events| && events[x.at] == Observe(p, x.rule, x.key) && Happens(events, x.at)
      && began <= TimeAt(events, x.at) && Run(events[..x.at]).steps == x.at
      && x.row == Observed(Run(events[..x.at]).tables, x.key, TimeAt(events, x.at)).states[x.key]
      && (x.Passed? ==> Ready(x.rule, x.row, Run(events).now))
  }

  lemma {:induction false} StepsCounted(events: seq<Event>)
    ensures Run(events).steps == |events|
  {
    if events != [] { StepsCounted(events[..|events| - 1]); hide Act, Enabled; }
  }

  lemma {:induction false} BeganBefore(events: seq<Event>, p: Worker)
    requires p in Run(events).workers
    ensures Run(events).workers[p].began <= Run(events).now
  {
    var n := |events| - 1;
    if p in Run(events[..n]).workers { BeganBefore(events[..n], p); }
    hide Observed, Fired, Resolved, Reminded, Removed;
  }

  lemma RecordedStays(events: seq<Event>, p: Worker, began: int, x: Point)
    requires events != [] && Recorded(events[..|events| - 1], p, began, x)
             && Run(events[..|events| - 1]).now <= Run(events).now
    ensures Recorded(events, p, began, x)
  {
    hide Run, Enabled;
    if x.Returned? || x.Passed? {
      assert events[..|events| - 1][..x.at] == events[..x.at];
    }
  }

  lemma {:induction false} RunRecords(events: seq<Event>, p: Worker)
    requires p in Run(events).workers
    ensures Recorded(events, p, Run(events).workers[p].began, Run(events).workers[p].point)
  {
    var n := |events| - 1;
    var w, e := Run(events[..n]), events[n];
    StepsCounted(events[..n]);
    ClockGoesOn(w, e);
    if p in w.workers {
      RunRecords(events[..n], p);
      BeganBefore(events[..n], p);
      RecordedStays(events, p, w.workers[p].began, w.workers[p].point);
    }
    assert Run(events) == Next(w, e);
    hide Run;
    PointMoves(w, e, p);
    hide Next;
  }

  lemma ClockGoesOn(w: World, e: Event)
    ensures w.now <= Next(w, e).now
  {
    hide Observed, Fired, Resolved, Reminded, Removed;
  }

  /** How a step moves a worker's point. */
  lemma PointMoves(w: World, e: Event, p: Worker)
    requires p in Next(w, e).workers
    ensures var r := Next(w, e); var x := r.workers[p].point;
            || x.Between? || x.Reminding? || x.Due?
            || (p in w.workers && r.workers[p] == w.workers[p])
            || (x.Returned? && e == Observe(p, x.rule, x.key) && Enabled(w, e) && x.at == w.steps && p in w.workers
                && r.workers[p].began == w.workers[p].began && x.row == Observed(w.tables, x.key, w.now).states[x.key])
            || (x.Passed? && p in w.workers && r.workers[p].began == w.workers[p].began && r.now == w.now
                && w.workers[p].point == Returned(x.rule, x.key, x.row, x.at) && Ready(x.rule, x.row, w.now))
  {
    hide Fired, Resolved, Reminded, Removed;
  }

  // ----- an alert starts firing -----

  lemma {:induction false} ClockMonotone(events: seq<Event>, i: nat)
    requires i <= |events|
    ensures TimeAt(events, i) <= Run(events).now
  {
    if i == |events| {
      assert events[..i] == events;
    } else {
      var n := |events| - 1;
      ClockMonotone(events[..n], i);
      assert events[..n][..i] == events[..i];
      ClockGoesOn(Run(events[..n]), events[n]);
    }
  }

  lemma ClockBetween(events: seq<Event>, i: nat, j: nat)
    requires i <= j <= |events|
    ensures TimeAt(events, i) <= TimeAt(events, j)
  {
    hide Run;
    assert events[..j][..i] == events[..i];
    ClockMonotone(events[..j], i);
  }

  lemma GoneStays(w: World, e: Event, key: Key)
    ensures Gone(w, key) ==> Gone(Next(w, e), key)
    ensures e.Remove? && Concerns(e.subject, key) ==> Gone(Next(w, e), key)
  {
    hide Observed, Fired, Resolved, Reminded, Removed;
  }

  lemma {:induction false} NotRemoved(events: seq<Event>, j: nat, key: Key)
    requires !Gone(Run(events), key) && j < |events|
    ensures !(events[j].Remove? && Concerns(events[j].subject, key))
  {
    var n := |events| - 1;
    GoneStays(Run(events[..n]), events[n], key);
    if j < n { NotRemoved(events[..n], j, key); }
  }

  lemma FiringStep(w: World, e: Event, key: Key)
    requires IsFiring(w.tables, key) && !Breaks(w, e, key)
    ensures IsFiring(Next(w, e).tables, key)
  {
    hide Without;
  }

  lemma {:induction false} FiringStays(events: seq<Event>, a: nat, key: Key)
    requires a < |events| && IsFiring(Run(events[..a + 1]).tables, key) && Unbroken(events, a, key)
    ensures IsFiring(Run(events).tables, key)
  {
    if a + 1 == |events| {
      assert events[..a + 1] == events;
    } else {
      var n := |events| - 1;
      assert events[..n][..a + 1] == events[..a + 1];
      assert !BreaksAt(events, n, key);
      UnbrokenLast(events, a, key);
      FiringStays(events[..n], a, key);
      FiringStep(Run(events[..n]), events[n], key);
    }
  }

  /** A run that is not broken goes on. */
  lemma {:induction false} RunGoesOn(events: seq<Event>, n: nat, i: nat, key: Key)
    requires i < n <= |events| && StartsRun(events[..n], i, key) && forall j: nat :: n <= j < |events| ==>
             !BreaksAt(events, j, key)
    ensures StartsRun(events, i, key)
  {
    hide StartsRun, BreaksAt;
    if n == |events| {
      assert events[..n] == events;
    } else {
      var last := |events| - 1;
      assert events[..last][..n] == events[..n];
      forall j: nat | n <= j < last ensures !BreaksAt(events[..last], j, key) { PrefixSame(events, last, j, key); }
      RunGoesOn(events[..last], n, i, key);
      RunLast(events, i, key);
    }
  }

  /** The worker's transition is the next step and will start the alert. */
  ghost predicate AboutToFire(events: seq<Event>, p: Worker) {
    var w := Run(events);
    && p in w.workers && w.workers[p].point.Passed? && Enabled(w, Fire(p, true))
    && !IsFiring(w.tables, w.workers[p].point.key)
  }

  /** The upsert on which the worker's test was passed is step `a`, and the run it saw. */
  lemma TestPassed(events: seq<Event>, p: Worker) returns (a: nat, i: nat)
    requires AboutToFire(events, p)
    ensures var w := Run(events); var x := w.workers[p].point;
            && a == x.at < |events| && events[a] == Observe(p, x.rule, x.key) && SeesAt(events, a, x.key)
            && w.now < TimeAt(events, a) + RUN_TIMEOUT && Accepted(x.rule)
            && i <= a && StartsRun(events[..a + 1], i, x.key)
            && (IsFiring(Run(events[..a + 1]).tables, x.key) || x.rule.immediate
                || w.now - TimeAt(events, i) >= x.rule.durationMinutes * 60)
  {
    var w := Run(events);
    var x := w.workers[p].point;
    a := x.at;
    RunRecords(events, p);
    Upserted(events, a);
    StartIsFirstTrue(events[..a + 1], x.key);
    hide Run, StartsRun;
    i :| i < a + 1 && StartsRun(events[..a + 1], i, x.key);
    assert events[..a + 1][..i] == events[..i];
  }

  lemma Upserted(events: seq<Event>, a: nat)
    requires Happens(events, a) && events[a].Observe?
    ensures Run(events[..a + 1]).tables == Observed(Run(events[..a]).tables, events[a].key, TimeAt(events, a))
    ensures Accepted(events[a].rule)
  {
    assert events[..a + 1] == events[..a] + [events[a]];
    RunExtends(events[..a], events[a]);
    hide Run, Observed;
  }

  lemma NoResetNoBreak(events: seq<Event>, p: Worker, key: Key, a: nat)
    requires AboutToFire(events, p) && Run(events).workers[p].point.key == key
    requires forall j: nat :: a < j < |events| ==> !ResetsAt(events, j, key)
    ensures forall j: nat :: a < j < |events| ==> !BreaksAt(events, j, key)
  {
    hide Run, Resets;
    forall j: nat | a < j < |events| ensures !BreaksAt(events, j, key) {
      assert !ResetsAt(events, j, key); NotRemoved(events, j, key);
    }
  }

  lemma FireContinues(events: seq<Event>, p: Worker)
    requires AboutToFire(events, p)
    ensures var key := Run(events).workers[p].point.key; var more := events + [Fire(p, true)];
            && Run(more).now == Run(events).now && IsFiring(Run(more).tables, key)
            && (forall i: nat :: i < |events| ==>
                more[..i] == events[..i] && (StartsRun(more, i, key) <==> StartsRun(events, i, key)))
            && TimeAt(more, |events|) == Run(events).now
  {
    hide Run, StartsRun, Next, BreaksAt;
    var key, more := Run(events).workers[p].point.key, events + [Fire(p, true)];
    RunExtends(events, Fire(p, true));
    Fires(Run(events), p);
    assert more[..|events|] == events;
    FireBreaksNothing(events, p, key);
    forall i: nat | i < |events|
      ensures more[..i] == events[..i] && (StartsRun(more, i, key) <==> StartsRun(events, i, key)) {
      assert more[..i] == events[..i];
      RunLast(more, i, key);
    }
  }

  lemma Fires(w: World, p: Worker)
    requires p in w.workers && w.workers[p].point.Passed? && Enabled(w, Fire(p, true))
             && !IsFiring(w.tables, w.workers[p].point.key)
    ensures Next(w, Fire(p, true)).now == w.now && IsFiring(Next(w, Fire(p, true)).tables, w.workers[p].point.key)
  {
  }

  lemma FireBreaksNothing(events: seq<Event>, p: Worker, key: Key)
    ensures !BreaksAt(events + [Fire(p, true)], |events|, key)
  {
    hide Run;
  }

  /** For any interleaving of any number of workers: a threshold alert that starts firing stands at
      the end of an unbroken run of true evaluations of the configured length if and only if no reset
      of it was committed between the worker's own upsert and its transition. */
  lemma StartsInTimeExactly(events: seq<Event>, p: Worker)
    requires AboutToFire(events, p) && !Run(events).workers[p].point.rule.immediate
    ensures var x := Run(events).workers[p].point; var more := events + [Fire(p, true)];
            && x.at < |events| && events[x.at] == Observe(p, x.rule, x.key)
            && IsFiring(Run(more).tables, x.key)
            && (Lasted(more, x.key, x.rule.durationMinutes * 60)
                <==> forall j: nat :: x.at < j < |events| ==> !ResetsAt(events, j, x.key))
  {
    var x, more := Run(events).workers[p].point, events + [Fire(p, true)];
    var a, i := TestPassed(events, p);
    FireContinues(events, p);
    if forall j: nat :: a < j < |events| ==> !ResetsAt(events, j, x.key) {
      NoResetNoBreak(events, p, x.key, a);
      hide Run, StartsRun, BreaksAt;
      RunGoesOn(events, a + 1, i, x.key);
      if IsFiring(Run(events[..a + 1]).tables, x.key) { FiringStays(events, a, x.key); }
      assert more[..i] == events[..i];
      assert StartsRun(more, i, x.key);
    } else {
      var j: nat :| a < j < |events| && ResetsAt(events, j, x.key);
      ResetTooLate(events, p, a, j);
    }
  }

  lemma ResetTooLate(events: seq<Event>, p: Worker, a: nat, j: nat)
    requires AboutToFire(events, p) && a < j < |events|
    requires var x := Run(events).workers[p].point;
             ResetsAt(events, j, x.key) && Run(events).now < TimeAt(events, a) + RUN_TIMEOUT && Accepted(x.rule)
    ensures var x := Run(events).workers[p].point; !Lasted(events + [Fire(p, true)], x.key, x.rule.durationMinutes * 60)
  {
    var x, more := Run(events).workers[p].point, events + [Fire(p, true)];
    FireContinues(events, p);
    assert BreaksAt(events, j, x.key);
    hide Run, BreaksAt, AboutToFire;
    forall i: nat | i < |more| && StartsRun(more, i, x.key) ensures TimeAt(more, i) >= TimeAt(events, a) {
      if i == |events| {
        ClockMonotone(events, a);
      } else {
        if i == j { SeesNotBreaks(events, j, x.key); }
        assert i > j;
        ClockBetween(events, a, i);
        assert more[..i] == events[..i];
      }
    }
  }

  // ----- one worker, and two -----

  /** From its upsert to its transition a worker does nothing else. */
  lemma {:induction false} BusySince(events: seq<Event>, p: Worker, j: nat)
    requires p in Run(events).workers
             && (Run(events).workers[p].point.Returned? || Run(events).workers[p].point.Passed?)
    requires Run(events).workers[p].point.at < j <= |events|
    ensures var w := Run(events[..j]); p in w.workers && !w.workers[p].point.Between?
  {
    if j == |events| {
      assert events[..j] == events;
    } else {
      var n := |events| - 1;
      assert Run(events) == Next(Run(events[..n]), events[n]);
      PointMoves(Run(events[..n]), events[n], p);
      StepsCounted(events[..n]);
      hide Next;
      assert events[..n][..j] == events[..j];
      BusySince(events[..n], p, j);
    }
  }

  /** If no other worker resolves alerts, a threshold alert starts firing only when the unbroken run
      of true evaluations has lasted for the configured time. */
  lemma FiresOnlyAfterDuration(events: seq<Event>, p: Worker)
    requires AboutToFire(events, p) && !Run(events).workers[p].point.rule.immediate
    requires forall j: nat :: j < |events| && events[j].Resolve? ==> events[j].worker == p
    ensures var x := Run(events).workers[p].point;
            Lasted(events + [Fire(p, true)], x.key, x.rule.durationMinutes * 60)
  {
    hide Run, Lasted, ResetsAt, Next, Enabled;
    StartsInTimeExactly(events, p);
    var x := Run(events).workers[p].point;
    forall j: nat | x.at < j < |events| ensures !ResetsAt(events, j, x.key) {
      BusySince(events, p, j);
      BusyNeverResets(events, p, j, x.key);
    }
  }

  lemma BusyNeverResets(events: seq<Event>, p: Worker, j: nat, key: Key)
    requires j < |events| && (events[j].Resolve? ==> events[j].worker == p)
    requires p in Run(events[..j]).workers && !Run(events[..j]).workers[p].point.Between?
    ensures !ResetsAt(events, j, key)
  {
    hide Run;
  }

  lemma Then(events: seq<Event>, e: Event) returns (longer: seq<Event>)
    ensures longer == events + [e] && Run(longer) == Next(Run(events), e)
  {
    RunExtends(events, e);
    longer := events + [e];
  }

  /** The condition has held for the configured time, as worker 1 finds at its second evaluation. */
  lemma SecondLook(rule: Rule, key: Key) returns (events: seq<Event>)
    requires Accepted(rule) && !rule.immediate
    ensures var now := rule.durationMinutes * 60; var row := State(Waiting, Some(0), None, None);
            Run(events) == World(Tables(map[key := row], []), now, 8,
                                 map[1 := Evaluation(now, Passed(rule, key, row, 6)), 2 := Evaluation(now, Between)],
                                     {})
  {
    var row := State(Waiting, Some(0), None, None);
    events := Then([], Begin(1));
    hide Run;
    events := Then(events, Observe(1, rule, key));
    events := Then(events, Test(1));
    assert Run(events).workers == map[1 := Evaluation(0, Between)];
    events := Then(events, Wait(rule.durationMinutes * 60));
    events := Then(events, Begin(1));
    events := Then(events, Begin(2));
    events := Then(events, Observe(1, rule, key));
    assert Run(events).tables == Tables(map[key := row], []);
    events := Then(events, Test(1));
  }

  /** Two workers, of which the second finds the condition false and resets the alert between the
      first one's upsert and its transition: the alert starts firing with no run behind it. */
  lemma TwoWorkersFireEarly(rule: Rule, key: Key) returns (events: seq<Event>)
    requires 1 <= rule.durationMinutes <= 1440 && 0 <= rule.repeatMinutes <= 1440 && !rule.immediate
    ensures AboutToFire(events, 1) && Run(events).workers[1].point.key == key
            && Run(events).workers[1].point.rule == rule
    ensures var more := events + [Fire(1, true)];
            && IsFiring(Run(more).tables, key) && LogOf(Run(more).tables.log, key) == [AlertFiring]
            && !Lasted(more, key, rule.durationMinutes * 60)
  {
    hide Run, Lasted, ResetsAt, Next;
    events := ResetInBetween(rule, key);
    StartsInTimeExactly(events, 1);
    var more := Then(events, Fire(1, true));
    FiresOnce(Run(events), key);
  }

  /** Worker 2 has reset the alert after worker 1's upsert, and worker 1 is about to start it. */
  lemma ResetInBetween(rule: Rule, key: Key) returns (events: seq<Event>)
    requires Accepted(rule) && !rule.immediate
    ensures |events| == 9 && AboutToFire(events, 1) && ResetsAt(events, 8, key)
    ensures var w := Run(events); var x := w.workers[1].point;
            1 in w.workers && x.Passed? && x.key == key && x.rule == rule && x.at == 6 && w.tables.log == []
  {
    hide Run;
    var look := SecondLook(rule, key);
    StepsCounted(look);
    events := Then(look, Resolve(2, key, true));
    assert events[..8] == look;
  }

  lemma FiresOnce(w: World, key: Key)
    requires 1 in w.workers && w.workers[1].point.Passed? && w.workers[1].point.key == key && w.tables.log == []
    requires IsFiring(Next(w, Fire(1, true)).tables, key) && !IsFiring(w.tables, key)
    ensures LogOf(Next(w, Fire(1, true)).tables.log, key) == [AlertFiring]
  {
    LogAppend([], Notification(key, AlertFiring), key);
  }
}
