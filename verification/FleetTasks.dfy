/** Tasks over every run: what never changes of them, how they are handed out, how many updates of a
server are under way and how far apart they are, and an uninstall from its request to its end.
*/
module FleetTasks {
  import opened Options
  import opened FleetRows
  import opened FleetSystem
  import P = FleetProofs
  import T = FleetTheorems

  // ----- the columns of a task -----

  /** Only status and start of a task ever change, and a closed one stays closed. */
  ghost predicate SameColumns(a: Task, b: Task) {
    b == a.(status := b.status, started := b.started) && (b.IsActive() ==> a.IsActive())
  }

  /** Whose task the event inserts. */
  predicate Inserts(e: Event, t: Id) {
    match e
    case QueueUpdate(_, task, _, _) => task == t
    case CreateTask(_, task, _, _) => task == t
    case RequestUninstall(_, _, task, _) => task == t
    case _ => false
  }

  /** Every task was there with the same columns, or is the one the event inserts. */
  ghost predicate Carried(a: Database, b: Database, e: Event) {
    && a.now <= b.now
    && forall t :: t in b.tasks ==>
         if t in a.tasks then SameColumns(a.tasks[t], b.tasks[t]) else Inserts(e, t) && b.tasks[t].created == b.now
  }

  lemma SameRows(a: Database, b: Database, e: Event)
    requires b.tasks == a.tasks && a.now <= b.now
    ensures Carried(a, b, e)
  {
  }

  lemma ClosingCarries(a: Database, b: Database, e: Event)
    requires P.DbCloses(a, b) && a.now <= b.now
    ensures Carried(a, b, e)
  {
  }

  lemma InsertCarries(db: Database, id: Id, t: Id, kind: Kind, timeout: int, automatic: bool, target: nat, e: Event)
    requires t !in db.tasks && Inserts(e, t)
    ensures Carried(db, TaskInserted(db, t, id, kind, timeout, automatic, target), e)
  {
  }

  lemma RequestCarries(db: Database, id: Id, t: Id, token: Token, e: Event)
    requires id in db.servers && t !in db.tasks && Inserts(e, t)
    ensures Carried(db, UninstallRequested(db, id, t, token), e)
  {
  }

  lemma ClaimCarries(db: Database, id: Id, picked: set<Id>, e: Event)
    requires Claimable(db, id, picked)
    ensures Carried(db, Claimed(db, picked), e)
  {
  }

  lemma ReportCarries(db: Database, t: Id, completed: bool, e: Event)
    requires t in db.tasks && db.tasks[t].status == Processing && db.tasks[t].server in db.servers
    ensures Carried(db, Reported(db, t, completed), e)
  {
  }

  lemma ConfirmCarries(db: Database, id: Id, t: Id, completed: bool, e: Event)
    requires id in db.servers && t in db.tasks
    ensures Carried(db, Confirmed(db, id, t, completed), e)
  {
  }

  lemma DeleteCarries(db: Database, id: Id, e: Event)
    ensures Carried(db, Deleted(db, id), e)
  {
  }

  lemma ExpiryCarries(db: Database, user: User, e: Event)
    ensures Carried(db, StaleUninstallsExpired(db, user), e)
  {
    hide LostUninstall;
  }

  lemma StepCarries(s: System, e: Event)
    requires Known(s) && Enabled(s, e)
    ensures Carried(s.db, Next(s, e).db, e)
  {
    hide Next, Known;
    if P.ClosesTasks(e) {
      P.ClosingDb(s, e);
      ClockGoesOn(s, e);
      hide P.DbCloses, Carried;
      ClosingCarries(s.db, Next(s, e).db, e);
    } else if P.MovesMessages(e) {
      MessageCarries(s, e);
    } else if P.Enrolls(e) {
      EnrollmentCarries(s, e);
    } else {
      OtherCarries(s, e);
    }
  }

  lemma ClockGoesOn(s: System, e: Event)
    ensures s.db.now <= Next(s, e).db.now
  {
    hide LostUninstall, HandOuts, Ordered;
  }

  lemma MessageCarries(s: System, e: Event)
    requires Known(s) && Enabled(s, e) && P.MovesMessages(e)
    ensures Carried(s.db, Next(s, e).db, e)
  {
    hide FleetRows.Claimed, FleetRows.Reported, Confirmed, HandOuts, Ordered, Carried;
    match e
    case Claim(id, picked) => ClaimCarries(s.db, id, picked, e);
    case CommitReport(i, credential) =>
      if Reportable(s.db, s.deliveries[i].task, credential) {
        ReportCarries(s.db, s.deliveries[i].task, s.deliveries[i].stage.completed, e);
      } else {
        SameRows(s.db, s.db, e);
      }
    case Confirm(i, completed) => ConfirmCarries(s.db, s.deliveries[i].server, s.deliveries[i].task, completed, e);
    case _ => SameRows(s.db, s.db, e);
  }

  lemma EnrollmentCarries(s: System, e: Event)
    requires Enabled(s, e) && P.Enrolls(e)
    ensures Carried(s.db, Next(s, e).db, e)
  {
    SameRows(s.db, Next(s, e).db, e);
    hide Carried;
  }

  lemma OtherCarries(s: System, e: Event)
    requires Known(s) && Enabled(s, e) && !P.MovesMessages(e) && !P.ClosesTasks(e) && !P.Enrolls(e)
    ensures Carried(s.db, Next(s, e).db, e)
  {
    hide UninstallRequested, Deleted, StaleUninstallsExpired, TaskInserted, LostUninstall, Carried;
    match e
    case QueueUpdate(id, task, _, target) => InsertCarries(s.db, id, task, AgentUpdate, 300, true, target, e);
    case CreateTask(id, task, kind, timeout) => InsertCarries(s.db, id, task, kind, timeout, false, 0, e);
    case RequestUninstall(id, _, task, token) => RequestCarries(s.db, id, task, token, e);
    case ExpireUninstalls(user) => ExpiryCarries(s.db, user, e);
    case DeleteServer(id, _) => DeleteCarries(s.db, id, e);
  }

  // ----- hand-outs -----

  /** A heartbeat of the server takes at most five tasks, this one among them, which waits and is in time. */
  ghost predicate HandsOut(s: System, e: Event, t: Id) {
    && e.Claim? && |e.picked| <= 5 && t in e.picked
    && t in s.db.tasks && s.db.tasks[t].server == e.id && s.db.tasks[t].status == Queued
    && s.db.now < s.db.tasks[t].expires
  }

  lemma DeliveriesGrow(s: System, e: Event)
    ensures var r := Next(s, e);
            && |s.deliveries| <= |r.deliveries|
            && (forall i :: 0 <= i < |s.deliveries| ==> r.deliveries[i].task == s.deliveries[i].task)
            && (forall i :: |s.deliveries| <= i < |r.deliveries| ==>
                  HandsOut(s, e, r.deliveries[i].task) && r.deliveries[i].server == e.id)
  {
    hide Enrolled, RolledBack, HeartbeatRecorded, FleetRows.Claimed, FleetRows.Reported, UninstallRequested,
        Confirmed, Deleted, StaleUninstallsExpired, UnclaimedExpired, OverdueTimedOut, UpdatesCompleted,
        StaleUpdatesExpired, UpdatesCancelled, TaskCancelled, PolicySet, TaskInserted, LostUninstall, Ordered;
    if e.Claim? && Enabled(s, e) {
      var r := Next(s, e);
      forall i | |s.deliveries| <= i < |r.deliveries| ensures r.deliveries[i].task in e.picked {
        assert r.deliveries[i].task == Ordered(e.picked)[i - |s.deliveries|];
      }
    }
  }

  /** Every hand-out of a run comes of a heartbeat that found the task waiting, in time. */
  lemma {:induction false} HandedOutInTime(events: seq<Event>, i: nat)
    requires i < |Run(events).deliveries|
    ensures exists k :: 0 <= k < |events| && HandsOut(Run(events[..k]), events[k], Run(events).deliveries[i].task)
  {
    hide Next, HandsOut;
    var n := |events| - 1;
    var s, e := Run(events[..n]), events[n];
    var t := Run(events).deliveries[i].task;
    DeliveriesGrow(s, e);
    if i < |s.deliveries| {
      HandedOutInTime(events[..n], i);
      var k :| 0 <= k < n && HandsOut(Run(events[..n][..k]), events[..n][k], t);
      assert events[..n][..k] == events[..k];
    } else {
      assert HandsOut(s, e, t);
    }
  }

  // ----- one active update -----

  ghost predicate ActiveUpdate(task: Task) {
    task.kind == AgentUpdate && (task.status == Queued || task.status == Processing)
  }

  /** What a step inserts. */
  lemma InsertedRow(s: System, e: Event, t: Id)
    requires Known(s) && Enabled(s, e) && Inserts(e, t)
    ensures var r := Next(s, e).db;
            && t in r.tasks && t !in s.db.tasks
            && (r.tasks[t].kind == AgentUpdate ==> NoActiveUpdate(s.db, r.tasks[t].server))
            && (r.tasks[t].automatic <==> e.QueueUpdate?)
            && (e.QueueUpdate? ==> r.tasks[t].target == e.target && r.tasks[t].server == e.id)
  {
    hide NoActiveUpdate;
  }

  /** At most one update of a server waits or is being worked on, whoever asked for it. */
  lemma {:induction false} OneActiveUpdate(events: seq<Event>, t: Id, u: Id)
    requires t in Run(events).db.tasks && u in Run(events).db.tasks
    requires var tasks := Run(events).db.tasks;
             tasks[t].server == tasks[u].server && ActiveUpdate(tasks[t]) && ActiveUpdate(tasks[u])
    ensures t == u
  {
    var front, e := events[..|events| - 1], events[|events| - 1];
    var s := Run(front);
    P.RunKeeps(front);
    T.KnownOf(s);
    assert Run(events) == Next(s, e);
    hide Run, Next, Inv, Known, Enabled;
    if Enabled(s, e) {
      StepCarries(s, e);
      if t in s.db.tasks && u in s.db.tasks {
        OneActiveUpdate(front, t, u);
      } else if t in s.db.tasks {
        InsertedRow(s, e, u);
      } else {
        InsertedRow(s, e, t);
      }
    } else {
      T.Disabled(s, e);
      OneActiveUpdate(front, t, u);
    }
  }

  // ----- the rate limit -----

  /** The version that is offered is always the configured one. */
  ghost predicate OffersConfigured(events: seq<Event>) {
    forall k :: 0 <= k < |events| && events[k].QueueUpdate? ==> events[k].configured == events[k].target
  }

  ghost predicate SameOffer(a: Task, b: Task) {
    a.kind == AgentUpdate && b.kind == AgentUpdate && a.automatic && b.automatic && a.server == b.server
        && a.target == b.target
  }

  lemma {:induction false} CreatedBefore(events: seq<Event>, t: Id)
    requires t in Run(events).db.tasks
    ensures Run(events).db.tasks[t].created <= Run(events).db.now
  {
    var front, e := events[..|events| - 1], events[|events| - 1];
    var s := Run(front);
    P.RunKeeps(front);
    T.KnownOf(s);
    assert Run(events) == Next(s, e);
    hide Run, Next, Inv, Known, Enabled;
    if Enabled(s, e) {
      StepCarries(s, e);
    } else {
      T.Disabled(s, e);
    }
    if t in s.db.tasks { CreatedBefore(front, t); }
  }

  /** An update that is queued comes an hour after every earlier one to the configured version. */
  lemma QueuedLater(s: System, e: Event, u: Id)
    requires Known(s) && Enabled(s, e) && e.QueueUpdate? && u in s.db.tasks && s.db.tasks[u].server == e.id
             && s.db.tasks[u].kind == AgentUpdate && s.db.tasks[u].target == e.configured
    ensures s.db.tasks[u].created < s.db.now - 60 * 60 && Next(s, e).db.now == s.db.now
  {
  }

  /** Two automatic updates of one server to the same version are created more than an hour apart,
      whatever became of the first, if the version offered was always the configured one. */
  lemma {:induction false} UpdatesSpaced(events: seq<Event>, t: Id, u: Id)
    requires OffersConfigured(events)
    requires t in Run(events).db.tasks && u in Run(events).db.tasks && t != u
             && SameOffer(Run(events).db.tasks[t], Run(events).db.tasks[u])
    ensures var a, b := Run(events).db.tasks[t].created, Run(events).db.tasks[u].created;
            a < b - 60 * 60 || b < a - 60 * 60
  {
    var front, e := events[..|events| - 1], events[|events| - 1];
    var s := Run(front);
    P.RunKeeps(front);
    T.KnownOf(s);
    assert Run(events) == Next(s, e) && OffersConfigured(front);
    hide Run, Next, Inv, Known, Enabled;
    if Enabled(s, e) {
      StepCarries(s, e);
      if t in s.db.tasks && u in s.db.tasks {
        UpdatesSpaced(front, t, u);
      } else if t in s.db.tasks {
        InsertedRow(s, e, u);
        QueuedLater(s, e, t);
      } else if u in s.db.tasks {
        InsertedRow(s, e, t);
        QueuedLater(s, e, u);
      }
    } else {
      T.Disabled(s, e);
      UpdatesSpaced(front, t, u);
    }
  }

  /** An enrolled server whose policy allows updates and of which none is active. */
  ghost predicate Updatable(s: System, id: Id, credential: Token) {
    && Authenticates(s.db, id, credential) && s.db.servers[id].autoUpdate && s.db.servers[id].deletion == Active
    && NoActiveUpdate(s.db, id)
  }

  lemma Enrolls() returns (events: seq<Event>)
    ensures Updatable(Run(events), 0, 2) && Run(events).db.tasks == map[] && Run(events).taskIds == {}
  {
    events := Then([], CreateServer(0, 0, 1, 60));
    hide Run;
    events := Then(events, Enroll(0, 1, 2, 3));
    events := Then(events, Heartbeat(0, 2, true, true));
    events := Then(events, SetPolicy(0, 0, true));
  }

  /** The update is queued, handed out and reported as failed. */
  lemma QueuesAndFails(before: seq<Event>, id: Id, credential: Token, t: Id, configured: nat, target: nat)
    returns (events: seq<Event>)
    requires Updatable(Run(before), id, credential) && MayQueueUpdate(Run(before).db, id, configured)
             && t !in Run(before).taskIds
    ensures var s, r := Run(before), Run(events); var now := s.db.now;
            && Updatable(r, id, credential) && r.db.now == now && r.taskIds == s.taskIds + {t}
            && r.db.tasks == s.db.tasks[t := Task(id, AgentUpdate, TaskFailed, now, now, now + 24 * 60 * 60, 300, true,
                target, 0)]
  {
    hide Run, Updatable;
    var task := Task(id, AgentUpdate, Queued, Run(before).db.now, 0, Run(before).db.now + 24 * 60 * 60, 300, true,
        target, 0);
    events := Then(before, QueueUpdate(id, t, configured, target));
    UpdatableCredential(Run(before), id, credential);
    assert Run(events).db == Run(before).db.(tasks := Run(before).db.tasks[t := task]);
    events := Handed(events, id, t);
    events := Fails(events, id, credential, t);
    StaysUpdatable(Run(before), Run(events), id, credential, t);
  }

  /** The report of a task that was just handed out. */
  lemma Fails(before: seq<Event>, id: Id, credential: Token, t: Id) returns (events: seq<Event>)
    requires Authenticates(Run(before).db, id, credential) && t in Run(before).db.tasks
    requires var s := Run(before); var task := s.db.tasks[t];
             && task.server == id && task.kind == AgentUpdate && task.status == Processing && s.deliveries != []
             && s.deliveries[|s.deliveries| - 1].task == t && s.deliveries[|s.deliveries| - 1].stage == Received
    ensures var s, r := Run(before), Run(events);
            && r.db == s.db.(tasks := s.db.tasks[t := s.db.tasks[t].(status := TaskFailed)]) && r.taskIds == s.taskIds
  {
    hide Run;
    var i := |Run(before).deliveries| - 1;
    events := Then(before, SendReport(i, false));
    events := Then(events, CommitReport(i, credential));
  }

  lemma UpdatableCredential(s: System, id: Id, credential: Token)
    requires Updatable(s, id, credential)
    ensures Authenticates(s.db, id, credential)
  {
  }

  lemma StaysUpdatable(s: System, r: System, id: Id, credential: Token, t: Id)
    requires Updatable(s, id, credential) && r.db.servers == s.db.servers && t in r.db.tasks
    requires r.db.tasks == s.db.tasks[t := r.db.tasks[t]] && !r.db.tasks[t].IsActive()
    ensures Updatable(r, id, credential)
  {
  }

  /** A waiting task is handed out, as the last message. */
  lemma Handed(before: seq<Event>, id: Id, t: Id) returns (events: seq<Event>)
    requires Claimable(Run(before).db, id, {t})
    ensures var s, r := Run(before), Run(events); var task := s.db.tasks[t];
            && events == before + [Claim(id, {t})] && r == s.(db := r.db, deliveries := r.deliveries)
            && r.db == s.db.(tasks := s.db.tasks[t := task.(status := Processing, started := s.db.now)])
            && r.deliveries == s.deliveries + [Delivery(t, id, task.kind, task.token, Received)]
  {
    var s := Run(before);
    hide Run;
    OnlyOne(t);
    assert t in s.db.tasks;
    assert Claimed(s.db, {t}).tasks == s.db.tasks[t := s.db.tasks[t].(status := Processing, started := s.db.now)];
    events := Then(before, Claim(id, {t}));
  }

  lemma OnlyOne(t: Id)
    ensures Ordered({t}) == [t]
  {
    assert {t} - {t} == {};
    assert Ordered({}) == [];
  }

  /** With another version configured than the one offered nothing holds a failed update back: two
      heartbeats at the same moment queue it, hand it out, are told that it failed and queue it again. */
  lemma RetriedAtOnce(configured: nat, target: nat) returns (events: seq<Event>)
    requires configured != target
    ensures var db := Run(events).db;
            && 1 in db.tasks && 2 in db.tasks && SameOffer(db.tasks[1], db.tasks[2])
            && db.tasks[1].target == target && db.tasks[1].created == db.tasks[2].created
            && db.tasks[1].status == TaskFailed && db.tasks[2].status == Queued
  {
    hide Run;
    events := Enrolls();
    events := QueuesAndFails(events, 0, 2, 1, configured, target);
    events := Then(events, QueueUpdate(0, 2, configured, target));
  }

  // ----- an uninstall that succeeds -----

  /** A server that waits for an uninstall whose task can be claimed, and whose agent has its credential. */
  ghost predicate CanUninstall(db: Database, id: Id, credential: Token, t: Id) {
    && Authenticates(db, id, credential) && db.servers[id].deletion == Pending
    && db.now < db.servers[id].uninstallExpires
    && t in db.tasks && db.tasks[t].server == id && db.tasks[t].kind == AgentUninstall
    && db.tasks[t].status == Queued && db.now < db.tasks[t].expires
    && db.servers[id].uninstall == Some(Hash(db.tasks[t].token))
  }

  /** The agent works on the uninstall, reports it, removes itself and confirms: then the server and all
      its tasks are gone, without any force-delete, and every other row is as it was. */
  lemma UninstallSucceeds(before: seq<Event>, id: Id, credential: Token, t: Id) returns (more: seq<Event>)
    requires CanUninstall(Run(before).db, id, credential, t)
    ensures T.Spares(more, id)
    ensures var s, r := Run(before), Run(before + more);
            && r.db.servers == s.db.servers - {id} && r.acted == s.acted + [t] && t in r.reported
            && (forall u :: u in r.db.tasks <==> u in s.db.tasks && s.db.tasks[u].server != id)
            && (forall u :: u in r.db.tasks ==> r.db.tasks[u] == s.db.tasks[u])
  {
    hide Run;
    var i := |Run(before).deliveries|;
    var events := Handed(before, id, t);
    events := Reports(events, id, credential, t);
    events := Confirms(events, id, t);
    more := [Claim(id, {t}), SendReport(i, true), CommitReport(i, credential), Act(i), Confirm(i, true)];
    assert events == before + more;
  }

  lemma Reports(before: seq<Event>, id: Id, credential: Token, t: Id) returns (events: seq<Event>)
    requires Authenticates(Run(before).db, id, credential) && t in Run(before).db.tasks
    requires var s := Run(before); var task := s.db.tasks[t];
             && task.server == id && task.kind == AgentUninstall && task.status == Processing && s.deliveries != []
             && s.deliveries[|s.deliveries| - 1] == Delivery(t, id, AgentUninstall, task.token, Received)
    ensures var s, r := Run(before), Run(events); var i := |s.deliveries| - 1;
            && events == before + [SendReport(i, true), CommitReport(i, credential)]
            && r.db.now == s.db.now
            && r.db.tasks == s.db.tasks[t := s.db.tasks[t].(status := Completed)]
            && r.db.servers == s.db.servers[id := s.db.servers[id].(deletion := Uninstalling)]
            && r.deliveries == s.deliveries[i := s.deliveries[i].(stage := Granted)] && r.acted == s.acted
            && r.reported == s.reported + {t}
  {
    hide Run;
    var i := |Run(before).deliveries| - 1;
    events := Then(before, SendReport(i, true));
    events := Then(events, CommitReport(i, credential));
  }

  lemma Confirms(before: seq<Event>, id: Id, t: Id) returns (events: seq<Event>)
    requires var s := Run(before); var i := |s.deliveries| - 1;
             && s.deliveries != [] && t in s.db.tasks
             && s.deliveries[i] == Delivery(t, id, AgentUninstall, s.db.tasks[t].token, Granted)
             && Confirmable(s.db, id, t, s.db.tasks[t].token)
    ensures var s, r := Run(before), Run(events); var i := |s.deliveries| - 1;
            && events == before + [Act(i), Confirm(i, true)]
            && r.db == Deleted(s.db, id) && r.acted == s.acted + [t] && r.reported == s.reported
  {
    hide Run, Deleted;
    var i := |Run(before).deliveries| - 1;
    events := Then(before, Act(i));
    events := Then(events, Confirm(i, true));
  }

  lemma Then(events: seq<Event>, e: Event) returns (longer: seq<Event>)
    ensures longer == events + [e] && Run(longer) == Next(Run(events), e)
  {
    T.RunSplit(events, e);
    longer := events + [e];
  }
}
