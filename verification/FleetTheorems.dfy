/** What the fleet protocol promises over every run. */
module FleetTheorems {
  import opened Options
  import opened FleetRows
  import opened FleetSystem
  import opened FleetProofs

  // ----- uninstall -----

  ghost predicate ActiveUninstall(task: Task) { task.kind == AgentUninstall && task.IsActive() }

  /** At most one uninstall task of a server is active; the server is then pending with that
      task's token, and a token is stored exactly while a server is pending or uninstalling. */
  lemma UninstallStates(events: seq<Event>)
    ensures var db := Run(events).db;
            && (forall id :: id in db.servers ==>
                               (db.servers[id].uninstall.Some?
                                <==> db.servers[id].deletion == Pending || db.servers[id].deletion == Uninstalling))
            && (forall t :: t in db.tasks && ActiveUninstall(db.tasks[t]) ==>
                              && db.tasks[t].server in db.servers
                              && db.servers[db.tasks[t].server].deletion == Pending
                              && db.servers[db.tasks[t].server].uninstall == Some(Hash(db.tasks[t].token)))
            && (forall t, u :: (t in db.tasks && u in db.tasks && db.tasks[t].server == db.tasks[u].server
                                && ActiveUninstall(db.tasks[t]) && ActiveUninstall(db.tasks[u])) ==> t == u)
  {
    var s := Run(events);
    RunKeeps(events);
    forall id | id in s.db.servers
      ensures s.db.servers[id].uninstall.Some?
              <==> s.db.servers[id].deletion == Pending || s.db.servers[id].deletion == Uninstalling
    {
      assert UninstallRow(s, id);
    }
    forall t | t in s.db.tasks && ActiveUninstall(s.db.tasks[t])
      ensures UninstallTask(s, t) && s.db.tasks[t].server in s.db.servers && UninstallRow(s, s.db.tasks[t].server)
    {
    }
  }

  /** A confirmation for a request that is no longer the newest of its server is refused; one
      that is accepted finds the server uninstalling, after the completed report of that very
      task was committed. */
  lemma OnlyCurrentConfirmations(events: seq<Event>, i: nat, completed: bool)
    requires i < |Run(events).deliveries|
    ensures var s, d := Run(events), Run(events).deliveries[i];
            Enabled(s, Confirm(i, completed)) ==>
              && d.server in s.newest && s.newest[d.server] == d.task
              && d.task in s.reported && s.db.servers[d.server].deletion == Uninstalling
  {
    RunKeeps(events);
    if Enabled(Run(events), Confirm(i, completed)) {
      ConfirmIsCurrent(Run(events), i);
    }
  }

  /** The event commits a completed report of the task. */
  ghost predicate CommitsReport(s: System, e: Event, t: Id) {
    && e.CommitReport? && Enabled(s, e) && s.deliveries[e.index].task == t && s.deliveries[e.index].stage.completed
    && Reportable(s.db, t, e.credential)
  }

  /** A task counts as reported only because some event of the run committed its report. */
  lemma {:induction false} ReportedByEvent(events: seq<Event>, t: Id)
    requires t in Run(events).reported
    ensures exists k :: 0 <= k < |events| && CommitsReport(Run(events[..k]), events[k], t)
  {
    hide Next, CommitsReport;
    var n := |events| - 1;
    var s, e := Run(events[..n]), events[n];
    NewlyReported(s, e, t);
    if t in s.reported {
      ReportedByEvent(events[..n], t);
      var k :| 0 <= k < n && CommitsReport(Run(events[..n][..k]), events[..n][k], t);
      assert events[..n][..k] == events[..k];
    } else {
      assert CommitsReport(s, e, t);
    }
  }

  lemma NewlyReported(s: System, e: Event, t: Id)
    requires t in Next(s, e).reported
    ensures t in s.reported || CommitsReport(s, e, t)
  {
    hide Enrolled, RolledBack, HeartbeatRecorded, FleetRows.Claimed, FleetRows.Reported, UninstallRequested,
        Confirmed, Deleted,
         StaleUninstallsExpired, UnclaimedExpired, OverdueTimedOut, UpdatesCompleted, StaleUpdatesExpired,
         UpdatesCancelled, TaskCancelled, PolicySet, TaskInserted, LostUninstall, HandOuts, Ordered;
  }

  // ----- the life of a task -----

  /** The task exists no longer, or will not be worked on again. */
  ghost predicate Closed(s: System, t: Id) {
    t in s.taskIds && (t in s.db.tasks ==> !s.db.tasks[t].IsActive())
  }

  /** Rows that survive keep their progress: nothing returns to the queue, nothing reopens. */
  ghost predicate Onward(a: Database, b: Database, known: set<Id>) {
    forall t :: t in b.tasks && t in known ==>
                  && t in a.tasks
                  && (b.tasks[t].status == Queued ==> a.tasks[t].status == Queued)
                  && (b.tasks[t].IsActive() ==> a.tasks[t].IsActive())
  }

  lemma RowsOnward(s: System, e: Event)
    ensures Enabled(s, e) && Known(s) ==> Onward(s.db, Next(s, e).db, s.taskIds)
  {
    hide Next, Known;
    if Enabled(s, e) && Known(s) {
      if MovesMessages(e) { MessagesOnward(s, e); }
      else if ClosesTasks(e) { ClosingDb(s, e); }
      else if Enrolls(e) { EnrollmentsOnward(s, e); }
      else { OthersOnward(s, e); }
    }
  }

  lemma EnrollmentsOnward(s: System, e: Event)
    requires Enabled(s, e) && Enrolls(e)
    ensures Onward(s.db, Next(s, e).db, s.taskIds)
  {
    hide Enrolled, RolledBack, HeartbeatRecorded;
    match e
    case Enroll(id, _, credential, rollback) => EnrolledTasks(s.db, id, credential, rollback);
    case Rollback(id, _, _) => RollbackTasks(s.db, id);
    case Heartbeat(id, _, linux, supported) => HeartbeatTasks(s.db, id, linux, supported);
    case CreateServer(_, _, _, _) =>
  }

  lemma OthersOnward(s: System, e: Event)
    requires Enabled(s, e) && !MovesMessages(e) && !ClosesTasks(e) && !Enrolls(e)
    ensures Onward(s.db, Next(s, e).db, s.taskIds)
  {
    hide UninstallRequested, Deleted, StaleUninstallsExpired, TaskInserted, LostUninstall;
    match e
    case QueueUpdate(id, task, _, target) => InsertOnward(s.db, task, id, AgentUpdate, 300, true, target, s.taskIds);
    case CreateTask(id, task, kind, timeout) => InsertOnward(s.db, task, id, kind, timeout, false, 0, s.taskIds);
    case RequestUninstall(id, _, task, token) => RequestOnward(s.db, id, task, token, s.taskIds);
    case ExpireUninstalls(user) => ExpireOnward(s.db, user);
    case DeleteServer(id, _) => DeleteOnward(s.db, id);
  }

  lemma MessagesOnward(s: System, e: Event)
    requires Enabled(s, e) && Known(s) && MovesMessages(e)
    ensures Onward(s.db, Next(s, e).db, s.taskIds)
  {
    hide FleetRows.Claimed, FleetRows.Reported, Confirmed, Deleted, HandOuts, Ordered;
    match e
    case Claim(id, picked) => ClaimOnward(s.db, id, picked);
    case CommitReport(i, credential) =>
      if Reportable(s.db, s.deliveries[i].task, credential) {
        ReportOnward(s.db, s.deliveries[i].task, s.deliveries[i].stage.completed);
      }
    case Confirm(i, completed) => ConfirmOnward(s.db, s.deliveries[i].server, s.deliveries[i].task, completed);
    case _ =>
  }

  lemma EnrolledTasks(db: Database, id: Id, credential: Token, rollback: Token)
    requires id in db.servers
    ensures Enrolled(db, id, credential, rollback).tasks == db.tasks
  {
  }

  lemma RollbackTasks(db: Database, id: Id)
    requires id in db.servers
    ensures RolledBack(db, id).tasks == db.tasks
  {
  }

  lemma HeartbeatTasks(db: Database, id: Id, linux: bool, supported: bool)
    requires id in db.servers
    ensures HeartbeatRecorded(db, id, linux, supported).tasks == db.tasks
  {
  }

  lemma InsertOnward(db: Database, t: Id, id: Id, kind: Kind, timeout: int, automatic: bool, target: nat,
      known: set<Id>)
    requires t !in known
    ensures Onward(db, TaskInserted(db, t, id, kind, timeout, automatic, target), known)
  {
  }

  lemma ClaimOnward(db: Database, id: Id, picked: set<Id>)
    requires Claimable(db, id, picked)
    ensures forall known :: Onward(db, Claimed(db, picked), known)
  {
  }

  lemma ReportOnward(db: Database, t: Id, completed: bool)
    requires t in db.tasks && db.tasks[t].status == Processing && db.tasks[t].server in db.servers
    ensures forall known :: Onward(db, Reported(db, t, completed), known)
  {
  }

  lemma ConfirmOnward(db: Database, id: Id, t: Id, completed: bool)
    requires id in db.servers && t in db.tasks
    ensures forall known :: Onward(db, Confirmed(db, id, t, completed), known)
  {
  }

  lemma RequestOnward(db: Database, id: Id, t: Id, token: Token, known: set<Id>)
    requires id in db.servers && t !in known
    ensures Onward(db, UninstallRequested(db, id, t, token), known)
  {
  }

  lemma ExpireOnward(db: Database, user: User)
    ensures forall known :: Onward(db, StaleUninstallsExpired(db, user), known)
  {
    hide LostUninstall;
  }

  lemma DeleteOnward(db: Database, id: Id)
    ensures forall known :: Onward(db, Deleted(db, id), known)
  {
  }

  // ----- histories only grow -----

  lemma HistoryGrows(s: System, e: Event)
    ensures var r := Next(s, e);
            && s.taskIds <= r.taskIds && s.accepted <= r.accepted && s.reported <= r.reported
            && (r.reported > s.reported ==> exists t :: CommitsReport(s, e, t) && r.reported == s.reported + {t})
            && (r.reported == s.reported || r.reported > s.reported)
  {
    hide Enrolled, RolledBack, HeartbeatRecorded, FleetRows.Claimed, FleetRows.Reported, UninstallRequested,
        Confirmed, Deleted,
         StaleUninstallsExpired, UnclaimedExpired, OverdueTimedOut, UpdatesCompleted, StaleUpdatesExpired,
         UpdatesCancelled, TaskCancelled, PolicySet, TaskInserted, LostUninstall, HandOuts, Ordered;
    if CommitsReport(s, e, if e.CommitReport? && Enabled(s, e) then s.deliveries[e.index].task else 0) {
      assert Next(s, e).reported == s.reported + {s.deliveries[e.index].task};
    }
  }

  lemma CredentialsStay(s: System, e: Event, c: Token)
    requires c in s.credentials && (Enabled(s, e) && e.Enroll? ==> e.credential != c)
    ensures c in Next(s, e).credentials && Next(s, e).credentials[c] == s.credentials[c]
  {
    hide Enrolled, RolledBack, HeartbeatRecorded, FleetRows.Claimed, FleetRows.Reported, UninstallRequested,
        Confirmed, Deleted,
         StaleUninstallsExpired, UnclaimedExpired, OverdueTimedOut, UpdatesCompleted, StaleUpdatesExpired,
         UpdatesCancelled, TaskCancelled, PolicySet, TaskInserted, LostUninstall, HandOuts, Ordered;
  }

  lemma RunSplit(events: seq<Event>, e: Event)
    ensures Run(events + [e]) == Next(Run(events), e)
  {
    assert (events + [e])[..|events|] == events;
  }

  /** No event reopens a closed task, reports it or acts on it. */
  lemma ClosedStays(s: System, e: Event, t: Id)
    requires Inv(s) && Closed(s, t)
    ensures Closed(Next(s, e), t)
    ensures t !in s.reported ==> t !in Next(s, e).reported
  {
    hide Inv, Next, Enabled;
    assert Known(s) by { KnownOf(s); }
    HistoryGrows(s, e);
    RowsOnward(s, e);
    if !Enabled(s, e) { Disabled(s, e); }
  }

  lemma KnownOf(s: System)
    requires Inv(s)
    ensures Known(s)
  {
  }

  lemma Disabled(s: System, e: Event)
    requires !Enabled(s, e)
    ensures Next(s, e) == s
  {
  }

  lemma {:induction false} ClosedForever(events: seq<Event>, more: seq<Event>, t: Id)
    requires Closed(Run(events), t)
    ensures Closed(Run(events + more), t)
    ensures t !in Run(events).reported ==> t !in Run(events + more).reported
  {
    hide Next, Closed;
    if more == [] {
      assert events + more == events;
    } else {
      var n := |more| - 1;
      ClosedForever(events, more[..n], t);
      RunKeeps(events + more[..n]);
      ClosedStays(Run(events + more[..n]), more[n], t);
      RunSplit(events + more[..n], more[n]);
      assert events + more[..n] + [more[n]] == events + more;
    }
  }

  /** A task is handed to an agent at most once, and waits no more from then on. */
  lemma HandedOutOnce(events: seq<Event>)
    ensures var s := Run(events);
            && (forall i, j :: 0 <= i < j < |s.deliveries| ==> s.deliveries[i].task != s.deliveries[j].task)
            && (forall i :: 0 <= i < |s.deliveries| && s.deliveries[i].task in s.db.tasks ==>
                              s.db.tasks[s.deliveries[i].task].status != Queued)
  {
    RunKeeps(events);
    var s := Run(events);
    forall i | 0 <= i < |s.deliveries| && s.deliveries[i].task in s.db.tasks
      ensures s.db.tasks[s.deliveries[i].task].status != Queued
    {
      assert DeliveryRow(s, s.deliveries[i]);
    }
  }

  /** The action of a task runs at most once, and only after its completed report was committed. */
  lemma ActedOnceAfterReport(events: seq<Event>)
    ensures var s := Run(events);
            && (forall k, l :: 0 <= k < l < |s.acted| ==> s.acted[k] != s.acted[l])
            && (forall k :: 0 <= k < |s.acted| ==> s.acted[k] in s.reported)
  {
    RunKeeps(events);
    var s := Run(events);
    forall k | 0 <= k < |s.acted| ensures s.acted[k] in s.reported {
      assert HasActed(s.deliveries, s.acted[k]);
      var i :| ActingFor(s.deliveries, i, s.acted[k]);
      assert DeliveryRow(s, s.deliveries[i]);
    }
  }

  /** Once a cancel, an expiry, a time-out or a deletion has closed a task before its report, its
      action never runs, whatever happens later. */
  lemma NeverActsAfterClosing(events: seq<Event>, more: seq<Event>, t: Id)
    requires Closed(Run(events), t) && t !in Run(events).reported
    ensures var r := Run(events + more);
            (t in r.db.tasks ==> !r.db.tasks[t].IsActive()) && t !in r.reported && t !in r.acted
  {
    ClosedForever(events, more, t);
    ActedOnceAfterReport(events + more);
  }

  // ----- enrollment -----

  /** Of the credentials issued for one enrollment token at most one is ever accepted, and each
      token enrolls one server only. */
  lemma OneCredentialAccepted(events: seq<Event>, c: Token, d: Token)
    requires c in Run(events).accepted && d in Run(events).accepted
    ensures c in Run(events).credentials && d in Run(events).credentials
    ensures Run(events).credentials[c].enrollment == Run(events).credentials[d].enrollment ==> c == d
  {
    RunKeeps(events);
  }

  lemma {:induction false} AcceptedForever(events: seq<Event>, more: seq<Event>, c: Token)
    requires c in Run(events).accepted
    ensures c in Run(events + more).accepted && c in Run(events).credentials && c in Run(events + more).credentials
    ensures Run(events + more).credentials[c] == Run(events).credentials[c]
  {
    hide Run, Next, Inv, Enabled;
    RunKeeps(events);
    CredentialKnown(Run(events), c);
    if more == [] {
      assert events + more == events;
    } else {
      var n := |more| - 1;
      var s, e := Run(events + more[..n]), more[n];
      AcceptedForever(events, more[..n], c);
      RunKeeps(events + more[..n]);
      CredentialKnown(s, c);
      HistoryGrows(s, e);
      if Enabled(s, e) { FreshCredential(s, e); }
      CredentialsStay(s, e, c);
      RunSplit(events + more[..n], more[n]);
      assert events + more[..n] + [more[n]] == events + more;
    }
  }

  lemma CredentialKnown(s: System, c: Token)
    requires Inv(s) && (c in s.accepted || c in s.credentials)
    ensures c in s.credentials && c in s.tokens
  {
    hide UninstallInvariant, DeliveryInvariant, ActionInvariant, TokensDistinct, CredentialsPaired, EnrollmentRow;
  }

  lemma FreshCredential(s: System, e: Event)
    requires Enabled(s, e)
    ensures e.Enroll? ==> e.credential !in s.tokens
  {
  }

  /** Once a credential has been accepted, neither enrolling nor rolling back can succeed for its
      server, whatever happens later. */
  lemma EnrollmentCloses(events: seq<Event>, more: seq<Event>, c: Token, token: Token, credential: Token,
                         rollback: Token, requested: Option<Id>)
    requires c in Run(events).accepted
    ensures c in Run(events).credentials
    ensures var s, id := Run(events + more), Run(events).credentials[c].server;
            && !Enabled(s, Enroll(id, token, credential, rollback))
            && !Enabled(s, Rollback(id, rollback, requested))
  {
    AcceptedForever(events, more, c);
    var s := Run(events + more);
    RunKeeps(events + more);
    hide Run;
    var id := s.credentials[c].server;
    if id in s.db.servers { assert EnrollmentRow(s, id); }
  }

  // ----- the dead end -----

  /** The server waits for an uninstall that no active task will carry out. */
  ghost predicate Stranded(s: System, id: Id) {
    && id in s.db.servers && s.db.servers[id].deletion == Pending
    && forall t :: t in s.db.tasks && s.db.tasks[t].server == id ==> !ActiveUninstall(s.db.tasks[t])
  }

  /** The server row keeps its uninstall state and gains no active uninstall task. */
  ghost predicate StillStranded(a: Database, b: Database, id: Id)
    requires id in a.servers
  {
    && id in b.servers && b.servers[id].deletion == a.servers[id].deletion
    && forall t :: t in b.tasks && b.tasks[t].server == id && ActiveUninstall(b.tasks[t]) ==>
                     t in a.tasks && a.tasks[t].server == id && ActiveUninstall(a.tasks[t])
  }

  lemma ClosingStrands(a: Database, b: Database, id: Id)
    requires DbCloses(a, b) && id in a.servers
    ensures StillStranded(a, b, id)
  {
  }

  lemma EnrollmentStrands(db: Database, i: Id, c: Token, r: Token, linux: bool, supported: bool, id: Id)
    requires i in db.servers && id in db.servers
    ensures StillStranded(db, Enrolled(db, i, c, r), id) && StillStranded(db, RolledBack(db, i), id)
    ensures StillStranded(db, HeartbeatRecorded(db, i, linux, supported), id)
  {
  }

  lemma TasksStrand(db: Database, t: Id, i: Id, kind: Kind, timeout: int, automatic: bool, target: nat,
      picked: set<Id>, id: Id)
    requires id in db.servers && kind != AgentUninstall
    ensures StillStranded(db, TaskInserted(db, t, i, kind, timeout, automatic, target), id)
    ensures Claimable(db, i, picked) ==> StillStranded(db, Claimed(db, picked), id)
  {
  }

  lemma ReportStrands(db: Database, t: Id, completed: bool, id: Id)
    requires t in db.tasks && db.tasks[t].status == Processing && db.tasks[t].server in db.servers && id in db.servers
    requires db.tasks[t].server == id ==> db.tasks[t].kind != AgentUninstall
    ensures StillStranded(db, Reported(db, t, completed), id)
  {
  }

  lemma OthersStrand(db: Database, i: Id, t: Id, token: Token, completed: bool, id: Id)
    requires i in db.servers && i != id && id in db.servers
    ensures t !in db.tasks ==> StillStranded(db, UninstallRequested(db, i, t, token), id)
    ensures StillStranded(db, Deleted(db, i), id)
    ensures t in db.tasks ==> StillStranded(db, Confirmed(db, i, t, completed), id)
  {
  }

  lemma ExpiryStrands(s: System, user: User, id: Id)
    requires Stranded(s, id)
    ensures StillStranded(s.db, StaleUninstallsExpired(s.db, user), id)
  {
  }

  lemma StrandedStays(s: System, e: Event, id: Id)
    requires Inv(s) && Stranded(s, id) && !(e.DeleteServer? && e.id == id)
    ensures Stranded(Next(s, e), id)
  {
    hide Next, Inv;
    StrandedDb(s, e, id);
  }

  lemma StrandedDb(s: System, e: Event, id: Id)
    requires Inv(s) && Stranded(s, id) && !(e.DeleteServer? && e.id == id)
    ensures StillStranded(s.db, Next(s, e).db, id)
  {
    NothingStrands(s.db, id);
    KnownOf(s);
    hide Inv, StillStranded, Enabled, Next, Stranded, Known;
    if !Enabled(s, e) {
      Disabled(s, e);
    } else if ClosesTasks(e) {
      ClosingDb(s, e);
      ClosingStrands(s.db, Next(s, e).db, id);
    } else if e.CommitReport? || e.Confirm? {
      StrandedByAgent(s, e, id);
    } else if e.RequestUninstall? || e.ExpireUninstalls? || e.DeleteServer? {
      StrandedByUser(s, e, id);
    } else {
      StrandedByOthers(s, e, id);
    }
  }

  lemma StrandedByAgent(s: System, e: Event, id: Id)
    requires Inv(s) && Stranded(s, id) && Enabled(s, e) && (e.CommitReport? || e.Confirm?)
    ensures StillStranded(s.db, Next(s, e).db, id)
  {
    hide Inv, Next, StillStranded;
    match e
    case CommitReport(i, credential) => StrandedByReport(s, i, credential, id);
    case Confirm(i, completed) => StrandedByConfirmation(s, i, completed, id);
  }

  lemma StrandedByReport(s: System, i: nat, credential: Token, id: Id)
    requires Stranded(s, id) && Enabled(s, CommitReport(i, credential))
    ensures StillStranded(s.db, Next(s, CommitReport(i, credential)).db, id)
  {
    hide FleetRows.Reported, StillStranded;
    NothingStrands(s.db, id);
    if Reportable(s.db, s.deliveries[i].task, credential) {
      ReportStrands(s.db, s.deliveries[i].task, s.deliveries[i].stage.completed, id);
    }
  }

  lemma StrandedByConfirmation(s: System, i: nat, completed: bool, id: Id)
    requires Inv(s) && Stranded(s, id) && Enabled(s, Confirm(i, completed))
    ensures StillStranded(s.db, Next(s, Confirm(i, completed)).db, id)
  {
    hide Inv, StillStranded, Confirmed, Deleted, UninstallRequested;
    ConfirmIsCurrent(s, i);
    OthersStrand(s.db, s.deliveries[i].server, s.deliveries[i].task, 0, completed, id);
  }

  lemma StrandedByUser(s: System, e: Event, id: Id)
    requires Known(s) && Stranded(s, id) && Enabled(s, e) && !(e.DeleteServer? && e.id == id)
    requires e.RequestUninstall? || e.ExpireUninstalls? || e.DeleteServer?
    ensures StillStranded(s.db, Next(s, e).db, id)
  {
    NothingStrands(s.db, id);
    hide Enrolled, RolledBack, HeartbeatRecorded, FleetRows.Claimed, FleetRows.Reported, UninstallRequested,
        Confirmed, Deleted,
         StaleUninstallsExpired, UnclaimedExpired, OverdueTimedOut, UpdatesCompleted, StaleUpdatesExpired,
         UpdatesCancelled, TaskCancelled, PolicySet, TaskInserted, LostUninstall, HandOuts, Ordered, Inv, Claimable,
         Enrollable, StillStranded;
    match e
    case RequestUninstall(i, _, task, token) => OthersStrand(s.db, i, task, token, false, id);
    case ExpireUninstalls(user) => ExpiryStrands(s, user, id);
    case DeleteServer(i, _) => OthersStrand(s.db, i, 0, 0, false, id);
  }

  lemma StrandedByOthers(s: System, e: Event, id: Id)
    requires Known(s) && Stranded(s, id) && Enabled(s, e) && !ClosesTasks(e)
    requires !e.CommitReport? && !e.Confirm? && !e.RequestUninstall? && !e.ExpireUninstalls? && !e.DeleteServer?
    ensures StillStranded(s.db, Next(s, e).db, id)
  {
    NothingStrands(s.db, id);
    hide Enrolled, RolledBack, HeartbeatRecorded, FleetRows.Claimed, FleetRows.Reported, UninstallRequested,
        Confirmed, Deleted,
         StaleUninstallsExpired, UnclaimedExpired, OverdueTimedOut, UpdatesCompleted, StaleUpdatesExpired,
         UpdatesCancelled, TaskCancelled, PolicySet, TaskInserted, LostUninstall, HandOuts, Ordered, Inv, Claimable,
         Enrollable, StillStranded;
    match e
    case CreateServer(i, _, _, _) => CreateStrands(s.db, Next(s, e).db, i, id);
    case Enroll(i, token, c, r) => EnrollableRow(s.db, i, token); EnrollmentStrands(s.db, i, c, r, false, false, id);
    case Rollback(i, _, _) => EnrollmentStrands(s.db, i, 0, 0, false, false, id);
    case Heartbeat(i, _, linux, supported) => EnrollmentStrands(s.db, i, 0, 0, linux, supported, id);
    case QueueUpdate(i, task, _, target) => TasksStrand(s.db, task, i, AgentUpdate, 300, true, target, {}, id);
    case CreateTask(i, task, kind, timeout) => TasksStrand(s.db, task, i, kind, timeout, false, 0, {}, id);
    case Claim(i, picked) => TasksStrand(s.db, 0, i, Ordinary, 0, false, 0, picked, id);
    case _ =>
  }

  lemma NothingStrands(db: Database, id: Id)
    requires id in db.servers
    ensures StillStranded(db, db, id)
  {
  }

  lemma CreateStrands(a: Database, b: Database, i: Id, id: Id)
    requires id in a.servers && i != id && i in b.servers && b.tasks == a.tasks
             && b.servers == a.servers[i := b.servers[i]]
    ensures StillStranded(a, b, id)
  {
  }

  lemma EnrollableRow(db: Database, id: Id, token: Token)
    requires Enrollable(db, id, token)
    ensures id in db.servers
  {
  }

  ghost predicate Spares(events: seq<Event>, id: Id) {
    forall k :: 0 <= k < |events| && events[k].DeleteServer? ==> events[k].id != id
  }

  /** A stranded server stays pending for ever, unless it is force-deleted. */
  lemma {:induction false} StrandedForever(events: seq<Event>, more: seq<Event>, id: Id)
    requires Stranded(Run(events), id) && Spares(more, id)
    ensures Stranded(Run(events + more), id)
  {
    hide Run, Next, Stranded, Inv;
    if more == [] {
      assert events + more == events;
    } else {
      var n := |more| - 1;
      StrandedForever(events, more[..n], id);
      RunKeeps(events + more[..n]);
      StrandedStays(Run(events + more[..n]), more[n], id);
      RunSplit(events + more[..n], more[n]);
      assert events + more[..n] + [more[n]] == events + more;
    }
  }

  /** A pending server with an active uninstall task fails once the task has run out of time and
      its owner lists the servers. */
  lemma ActiveCanFail(events: seq<Event>, id: Id, t: Id)
    requires var db := Run(events).db;
             id in db.servers && db.servers[id].deletion == Pending
             && t in db.tasks && db.tasks[t].server == id && ActiveUninstall(db.tasks[t])
    ensures exists more :: Spares(more, id) && !Stranded(Run(events + more), id)
                           && id in Run(events + more).db.servers
                           && Run(events + more).db.servers[id].deletion == Failed
  {
    hide Next, Enabled;
    var s := Run(events);
    var task := s.db.tasks[t];
    var due := if task.status == Queued then task.expires else task.started + task.timeout;
    var wait := Advance(if due > s.db.now then due - s.db.now else 0);
    var list := ExpireUninstalls(s.db.servers[id].owner);
    RunSplit(events, wait);
    RunSplit(events + [wait], list);
    hide Run;
    var more := [wait, list];
    assert events + [wait] + [list] == events + more;
    Waits(s, wait.seconds);
    ExpiryFails(Next(s, wait), id, t);
    assert Spares(more, id);
  }

  lemma Waits(s: System, seconds: nat)
    ensures Next(s, Advance(seconds)) == s.(db := s.db.(now := s.db.now + seconds))
  {
  }

  lemma ExpiryFails(s: System, id: Id, t: Id)
    requires id in s.db.servers && t in s.db.tasks && s.db.tasks[t].server == id
             && s.db.tasks[t].StaleUninstall(s.db.now)
    ensures var r := Next(s, ExpireUninstalls(s.db.servers[id].owner));
            id in r.db.servers && r.db.servers[id].deletion == Failed
  {
    assert LostUninstall(s.db, id);
    hide LostUninstall;
  }

  /** An uninstalling server fails once its confirmation is overdue and its owner lists the servers. */
  lemma UninstallingCanFail(events: seq<Event>, id: Id)
    requires id in Run(events).db.servers && Run(events).db.servers[id].deletion == Uninstalling
    ensures exists more :: Spares(more, id) && id in Run(events + more).db.servers
                           && Run(events + more).db.servers[id].deletion == Failed
  {
    hide Next, Enabled;
    var s := Run(events);
    var server := s.db.servers[id];
    var wait := Advance(if server.uninstallExpires > s.db.now then server.uninstallExpires - s.db.now else 0);
    var list := ExpireUninstalls(server.owner);
    RunSplit(events, wait);
    RunSplit(events + [wait], list);
    hide Run;
    var more := [wait, list];
    assert events + [wait] + [list] == events + more;
    Waits(s, wait.seconds);
    OverdueFails(Next(s, wait), id);
    assert Spares(more, id);
  }

  lemma OverdueFails(s: System, id: Id)
    requires id in s.db.servers && s.db.servers[id].deletion == Uninstalling
             && s.db.servers[id].uninstallExpires <= s.db.now
    ensures var r := Next(s, ExpireUninstalls(s.db.servers[id].owner));
            id in r.db.servers && r.db.servers[id].deletion == Failed
  {
    hide LostUninstall;
  }

  /** Of the servers on their way out exactly the stranded ones cannot leave that state without a
      force-delete: every other one, pending or uninstalling, can fail. */
  lemma UninstallCanEndExactly(events: seq<Event>, id: Id)
    requires id in Run(events).db.servers
    requires Run(events).db.servers[id].deletion == Pending || Run(events).db.servers[id].deletion == Uninstalling
    ensures (exists more :: Spares(more, id) && id in Run(events + more).db.servers
                            && Run(events + more).db.servers[id].deletion == Failed)
            <==> !Stranded(Run(events), id)
  {
    hide Run;
    if Stranded(Run(events), id) {
      forall more | Spares(more, id) ensures Stranded(Run(events + more), id) { StrandedForever(events, more, id); }
    } else if Run(events).db.servers[id].deletion == Uninstalling {
      UninstallingCanFail(events, id);
    } else {
      var t :| t in Run(events).db.tasks && Run(events).db.tasks[t].server == id
          && ActiveUninstall(Run(events).db.tasks[t]);
      ActiveCanFail(events, id, t);
    }
  }

  /** A pending server can leave that state without a force-delete exactly when it has an active
      uninstall task. */
  lemma PendingCanMoveExactly(events: seq<Event>, id: Id)
    requires id in Run(events).db.servers && Run(events).db.servers[id].deletion == Pending
    ensures (exists more :: Spares(more, id) && id in Run(events + more).db.servers
                            && Run(events + more).db.servers[id].deletion != Pending)
            <==> exists t :: t in Run(events).db.tasks && Run(events).db.tasks[t].server == id
                             && ActiveUninstall(Run(events).db.tasks[t])
  {
    hide Run;
    var tasks := Run(events).db.tasks;
    if t :| t in tasks && tasks[t].server == id && ActiveUninstall(tasks[t]) {
      ActiveCanFail(events, id, t);
    } else {
      forall more | Spares(more, id) ensures Stranded(Run(events + more), id) {
        StrandedForever(events, more, id);
      }
    }
  }

  /** Cancelling the uninstall task strands the server, and so does a heartbeat that finds the task
      expired before it was claimed or overdue after it was. */
  lemma CancelStrands(events: seq<Event>, id: Id, t: Id)
    requires var db := Run(events).db;
             t in db.tasks && db.tasks[t].server == id && ActiveUninstall(db.tasks[t])
    ensures Stranded(Run(events + [CancelTask(id, t)]), id)
    ensures Run(events).db.tasks[t].Unclaimed(Run(events).db.now) ==> Stranded(Run(events + [ExpireUnclaimed(id)]), id)
    ensures Run(events).db.tasks[t].Overdue(Run(events).db.now) ==> Stranded(Run(events + [TimeOutOverdue(id)]), id)
  {
    hide Run, Next;
    UninstallStates(events);
    RunSplit(events, CancelTask(id, t));
    RunSplit(events, ExpireUnclaimed(id));
    RunSplit(events, TimeOutOverdue(id));
    var s := Run(events);
    Closes(s, CancelTask(id, t), id, t);
    if s.db.tasks[t].Unclaimed(s.db.now) { Closes(s, ExpireUnclaimed(id), id, t); }
    if s.db.tasks[t].Overdue(s.db.now) { Closes(s, TimeOutOverdue(id), id, t); }
  }

  /** The server's only active uninstall task is closed. */
  lemma Closes(s: System, e: Event, id: Id, t: Id)
    requires t in s.db.tasks && s.db.tasks[t].server == id && ActiveUninstall(s.db.tasks[t])
    requires id in s.db.servers && s.db.servers[id].deletion == Pending
    requires forall u :: u in s.db.tasks && s.db.tasks[u].server == id && ActiveUninstall(s.db.tasks[u]) ==> u == t
    requires e == CancelTask(id, t) || (e == ExpireUnclaimed(id) && s.db.tasks[t].Unclaimed(s.db.now))
             || (e == TimeOutOverdue(id) && s.db.tasks[t].Overdue(s.db.now))
    ensures Stranded(Next(s, e), id)
  {
  }
}
