/** The alert state machine of backend/internal/scheduler/alert_job.go.

Any number of workers evaluate rules against two tables, the alert states and the dashboard
notifications.  Every statement or transaction is one step, and so is a worker's own test between
them; a transaction that is not committed changes nothing.  Times are seconds.
*/
module Alerts {
  import opened Options

  type Worker = nat

  datatype Key = Key(rule: nat, server: nat)

  datatype Status = Waiting | Firing | Fine

  datatype State = State(status: Status, started: Option<int>, triggered: Option<int>, notified: Option<int>)

  datatype Kind = AlertFiring | AlertResolved

  datatype Notification = Notification(key: Key, kind: Kind)

  datatype Rule = Rule(immediate: bool, durationMinutes: int, repeatMinutes: int)

  datatype Tables = Tables(states: map<Key, State>, log: seq<Notification>)

  const RUN_TIMEOUT := 30

  // ----- the statements -----

  predicate IsFiring(t: Tables, key: Key) { key in t.states && t.states[key].status == Firing }

  /** The upsert that stores the first observation of a problem. */
  function Observed(t: Tables, key: Key, now: int): Tables {
    var row :=
      if key !in t.states then State(Waiting, Some(now), None, None)
      else
        var prior := t.states[key];
        prior.(status := if prior.status == Firing then Firing else Waiting,
             started := if prior.started.Some? then prior.started else Some(now));
    t.(states := t.states[key := row])
  }

  /** The transition into firing with its notification. */
  function Fired(t: Tables, key: Key, now: int): Tables {
    if IsFiring(t, key) then t
    else
      var row :=
        if key !in t.states then State(Firing, None, Some(now), Some(now))
        else
          var prior := t.states[key];
          prior.(status := Firing, triggered := Some(now),
              started := if prior.started.Some? then prior.started else Some(now));
      Tables(t.states[key := row], t.log + [Notification(key, AlertFiring)])
  }

  /** The reset, with a notification when the alert was firing. */
  function Resolved(t: Tables, key: Key, now: int): Tables {
    if key !in t.states then t
    else
      var prior := t.states[key];
      var row := prior.(status := Fine, started := None, notified := None,
                      triggered := if prior.status == Firing then Some(now) else prior.triggered);
      Tables(t.states[key := row], if prior.status == Firing then t.log + [Notification(key, AlertResolved)] else t.log)
  }

  /** The reminder only moves the time of the last message. */
  function Reminded(t: Tables, key: Key, now: int): Tables {
    if key !in t.states then t else t.(states := t.states[key := t.states[key].(notified := Some(now))])
  }

  /** Alert states and notifications refer to a rule and to a server. */
  datatype Subject = OfRule(rule: nat) | OfServer(server: nat)

  predicate Concerns(subject: Subject, key: Key) {
    match subject
    case OfRule(rule) => key.rule == rule
    case OfServer(server) => key.server == server
  }

  function Without(log: seq<Notification>, subject: Subject): seq<Notification> {
    if log == [] then []
    else
      var init := Without(log[..|log| - 1], subject);
      if Concerns(subject, log[|log| - 1].key) then init else init + [log[|log| - 1]]
  }

  /** Deleting a rule or a server removes its states, and no notification names it any more. */
  function Removed(t: Tables, subject: Subject): Tables {
    Tables(map k | k in t.states && !Concerns(subject, k) :: t.states[k], Without(t.log, subject))
  }

  // ----- workers -----

  /** Within one evaluation: the row the upsert returned, the test passed, the transition that found
      the alert firing already, a reminder that is due.  `at` is the number of the step that was the
      upsert, or of the one that read when the last message was sent. */
  datatype Point =
    | Between
    | Returned(rule: Rule, key: Key, row: State, at: nat)
    | Passed(rule: Rule, key: Key, row: State, at: nat)
    | Reminding(rule: Rule, key: Key)
    | Due(rule: Rule, key: Key, at: nat)

  /** A worker goes through the rules in runs; `began` is when its run began. */
  datatype Evaluation = Evaluation(began: int, point: Point)

  datatype World = World(tables: Tables, now: int, steps: nat, workers: map<Worker, Evaluation>, gone: set<Subject>)

  datatype Event =
    | Wait(seconds: nat)
    | Begin(worker: Worker)
    | Observe(worker: Worker, rule: Rule, key: Key)
    | Test(worker: Worker)
    | Fire(worker: Worker, committed: bool)
    | Look(worker: Worker)
    | Remind(worker: Worker, stored: bool)
    | Resolve(worker: Worker, key: Key, committed: bool)
    | Abandon(worker: Worker)
    | Remove(subject: Subject)

  predicate Gone(w: World, key: Key) { OfRule(key.rule) in w.gone || OfServer(key.server) in w.gone }

  /** `validateRule` accepts no other durations. */
  predicate Accepted(rule: Rule) { 1 <= rule.durationMinutes <= 1440 && 0 <= rule.repeatMinutes <= 1440 }

  predicate At(w: World, p: Worker, point: Point) { p in w.workers && w.workers[p].point == point }

  /** Every statement of a run has the run's context, which ends after thirty seconds. */
  predicate InTime(w: World, p: Worker) { p in w.workers && w.now < w.workers[p].began + RUN_TIMEOUT }

  /** The foreign keys keep a row of a deleted rule or server from being inserted. */
  predicate Enabled(w: World, e: Event) {
    match e
    case Wait(_) => true
    case Begin(p) => p in w.workers ==> w.workers[p].point == Between
    case Observe(p, rule, key) => At(w, p, Between) && InTime(w, p) && Accepted(rule) && !Gone(w, key)
    case Test(p) => p in w.workers && w.workers[p].point.Returned?
    case Fire(p, committed) => p in w.workers && w.workers[p].point.Passed?
        && (committed ==> InTime(w, p) && !Gone(w, w.workers[p].point.key))
    case Look(p) => p in w.workers && w.workers[p].point.Reminding? && InTime(w, p)
    case Remind(p, stored) => p in w.workers && w.workers[p].point.Due? && (stored ==> InTime(w, p))
    case Resolve(p, _, committed) => At(w, p, Between) && (committed ==> InTime(w, p))
    case Abandon(p) => p in w.workers
    case Remove(_) => true
  }

  /** The end of `conditionSatisfiedLongEnough`, on the row the upsert returned. */
  predicate Ready(rule: Rule, row: State, now: int) {
    row.status == Firing || rule.immediate
        || (row.started.Some? && now >= row.started.value + rule.durationMinutes * 60)
  }

  /** Whether a reminder goes out when the last message was sent at `last`. */
  predicate ReminderDue(rule: Rule, last: Option<int>, now: int) {
    rule.repeatMinutes > 0 && (last.None? || now - last.value >= rule.repeatMinutes * 60)
  }

  function Goes(w: World, p: Worker, point: Point): World
    requires p in w.workers
  {
    w.(workers := w.workers[p := w.workers[p].(point := point)])
  }

  function Act(w: World, e: Event): World
    requires Enabled(w, e)
  {
    match e
    case Wait(seconds) => w.(now := w.now + seconds)
    case Begin(p) => w.(workers := w.workers[p := Evaluation(w.now, Between)])
    case Observe(p, rule, key) =>
      var t := Observed(w.tables, key, w.now);
      Goes(w.(tables := t), p, Returned(rule, key, t.states[key], w.steps))
    case Test(p) =>
      var x := w.workers[p].point;
      Goes(w, p, if Ready(x.rule, x.row, w.now) then Passed(x.rule, x.key, x.row, x.at) else Between)
    case Fire(p, committed) =>
      var x := w.workers[p].point;
      if !committed then Goes(w, p, Between)
      else if IsFiring(w.tables, x.key) then Goes(w, p, Reminding(x.rule, x.key))
      else Goes(w.(tables := Fired(w.tables, x.key, w.now)), p, Between)
    case Look(p) =>
      var x := w.workers[p].point;
      Goes(w, p, if x.key in w.tables.states && ReminderDue(x.rule, w.tables.states[x.key].notified, w.now)
                 then Due(x.rule, x.key, w.steps) else Between)
    case Remind(p, stored) =>
      Goes(if stored then w.(tables := Reminded(w.tables, w.workers[p].point.key, w.now)) else w, p, Between)
    case Resolve(p, key, committed) => if committed then w.(tables := Resolved(w.tables, key, w.now)) else w
    case Abandon(p) => Goes(w, p, Between)
    case Remove(subject) => w.(tables := Removed(w.tables, subject), gone := w.gone + {subject})
  }

  /** A step that cannot happen leaves all but the count of steps. */
  function Next(w: World, e: Event): World {
    (if Enabled(w, e) then Act(w, e) else w).(steps := w.steps + 1)
  }

  function Beginning(): World { World(Tables(map[], []), 0, 0, map[], {}) }

  /** Any interleaving of the steps of any number of workers. */
  function Run(events: seq<Event>): World {
    if events == [] then Beginning() else Next(Run(events[..|events| - 1]), events[|events| - 1])
  }

  lemma RunExtends(events: seq<Event>, e: Event)
    ensures Run(events + [e]) == Next(Run(events), e)
  {
    assert (events + [e])[..|events|] == events;
  }

  // ----- notifications alternate -----

  /** The notifications of one rule and server, in order. */
  function LogOf(log: seq<Notification>, key: Key): seq<Kind> {
    if log == [] then []
    else
      var init := LogOf(log[..|log| - 1], key);
      if log[|log| - 1].key == key then init + [log[|log| - 1].kind] else init
  }

  /** Firing, resolved, firing, ... starting with firing. */
  ghost predicate Alternates(log: seq<Kind>) {
    forall i :: 0 <= i < |log| ==> (log[i] == AlertFiring <==> i % 2 == 0)
  }

  ghost predicate Agrees(t: Tables, key: Key) {
    var log := LogOf(t.log, key);
    && Alternates(log)
    && (IsFiring(t, key) <==> log != [] && log[|log| - 1] == AlertFiring)
  }

  lemma LogAppend(log: seq<Notification>, n: Notification, key: Key)
    ensures LogOf(log + [n], key) == if n.key == key then LogOf(log, key) + [n.kind] else LogOf(log, key)
  {
    assert (log + [n])[..|log|] == log;
  }

  lemma {:induction false} LogWithout(log: seq<Notification>, subject: Subject, key: Key)
    ensures LogOf(Without(log, subject), key) == if Concerns(subject, key) then [] else LogOf(log, key)
  {
    if log != [] {
      var n := |log| - 1;
      LogWithout(log[..n], subject, key);
      LogAppend(Without(log[..n], subject), log[n], key);
    }
  }

  /** What `Agrees` needs of one step: the key's log grows or is emptied, as its status tells. */
  lemma KeyAgrees(t: Tables, r: Tables, key: Key, kind: Option<Kind>)
    requires Agrees(t, key)
    requires LogOf(r.log, key) == LogOf(t.log, key) + (if kind.Some? then [kind.value] else [])
    requires var was, isNow := IsFiring(t, key), IsFiring(r, key);
             && (kind.None? ==> was == isNow)
             && (kind == Some(AlertFiring) ==> !was && isNow)
             && (kind == Some(AlertResolved) ==> was && !isNow)
    ensures Agrees(r, key)
  {
    hide LogOf;
    var log := LogOf(t.log, key);
    if kind.Some? { assert LogOf(r.log, key)[..|log|] == log; }
    else { assert LogOf(r.log, key) == log; }
  }

  lemma StepAgrees(w: World, e: Event, key: Key)
    requires Agrees(w.tables, key)
    ensures Agrees(Next(w, e).tables, key)
  {
    hide Agrees, Next;
    match e
    case Fire(_, _) => FireAgrees(w, e, key);
    case Resolve(_, _, _) => ResolveAgrees(w, e, key);
    case Remove(_) => RemoveAgrees(w, e, key);
    case _ => OtherAgrees(w, e, key);
  }

  lemma FireAgrees(w: World, e: Event, key: Key)
    requires e.Fire? && Agrees(w.tables, key)
    ensures Agrees(Next(w, e).tables, key)
  {
    hide Agrees, LogOf, Without;
    var t, r := w.tables, Next(w, e).tables;
    if Enabled(w, e) { LogAppend(t.log, Notification(w.workers[e.worker].point.key, AlertFiring), key); }
    KeyAgrees(t, r, key, if IsFiring(r, key) && !IsFiring(t, key) then Some(AlertFiring) else None);
  }

  lemma ResolveAgrees(w: World, e: Event, key: Key)
    requires e.Resolve? && Agrees(w.tables, key)
    ensures Agrees(Next(w, e).tables, key)
  {
    hide Agrees, LogOf, Without;
    var t, r := w.tables, Next(w, e).tables;
    LogAppend(t.log, Notification(e.key, AlertResolved), key);
    KeyAgrees(t, r, key, if IsFiring(t, key) && !IsFiring(r, key) then Some(AlertResolved) else None);
  }

  lemma RemoveAgrees(w: World, e: Event, key: Key)
    requires e.Remove? && Agrees(w.tables, key)
    ensures Agrees(Next(w, e).tables, key)
  {
    hide Agrees, LogOf, Without;
    LogWithout(w.tables.log, e.subject, key);
    if Concerns(e.subject, key) { EmptyAgrees(Next(w, e).tables, key); }
    else { KeyAgrees(w.tables, Next(w, e).tables, key, None); }
  }

  lemma OtherAgrees(w: World, e: Event, key: Key)
    requires !e.Fire? && !e.Resolve? && !e.Remove? && Agrees(w.tables, key)
    ensures Agrees(Next(w, e).tables, key)
  {
    hide Agrees, LogOf, Without;
    KeyAgrees(w.tables, Next(w, e).tables, key, None);
  }

  lemma EmptyAgrees(t: Tables, key: Key)
    requires LogOf(t.log, key) == [] && key !in t.states
    ensures Agrees(t, key)
  {
  }

  /** Whatever the workers interleave, the notifications of a rule and server alternate, starting
      with firing, and the stored status is firing exactly when the last one was. */
  lemma {:induction false} NotificationsAlternate(events: seq<Event>, key: Key)
    ensures Agrees(Run(events).tables, key)
  {
    if events != [] {
      NotificationsAlternate(events[..|events| - 1], key);
      StepAgrees(Run(events[..|events| - 1]), events[|events| - 1], key);
    }
  }
}
