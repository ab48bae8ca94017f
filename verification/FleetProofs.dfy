/** Every event keeps the invariant of the fleet, so it holds after every run. */
module FleetProofs {
  import opened Options
  import opened FleetRows
  import opened FleetSystem

  // ----- what the events have in common -----

  ghost predicate SameEnrollment(a: Server, b: Server) {
    && a.credential == b.credential && a.enrollment == b.enrollment && a.enrollmentUsed == b.enrollmentUsed
    && a.bootstrapCompleted == b.bootstrapCompleted && a.rollback == b.rollback
  }

  /** The event leaves the enrollment columns and history alone; it may remove servers. */
  ghost predicate EnrollmentKept(s: System, r: System) {
    && s.credentials == r.credentials && s.accepted == r.accepted && s.tokens <= r.tokens
    && (forall id :: id in r.db.servers ==> id in s.db.servers && SameEnrollment(s.db.servers[id], r.db.servers[id]))
  }

  lemma EnrollmentFrame(s: System, r: System)
    requires EnrollmentInvariant(s) && EnrollmentKept(s, r)
    ensures EnrollmentInvariant(r)
  {
    forall id | id in r.db.servers ensures EnrollmentRow(r, id) {
      assert EnrollmentRow(s, id);
    }
  }

  /** The task is as before, or has stopped being active. */
  ghost predicate Quieter(a: Task, b: Task) {
    b == a.(status := b.status) && (b.status == a.status || !b.IsActive())
  }

  /** The event leaves the uninstall columns and history alone and activates no task; it may
      remove a server with its tasks. */
  ghost predicate UninstallKept(s: System, r: System) {
    && s.requests == r.requests && s.newest == r.newest && s.reported == r.reported
    && (forall id :: id in r.db.servers ==>
                       && id in s.db.servers
                       && var a, b := s.db.servers[id], r.db.servers[id];
                       a.uninstall == b.uninstall && a.deletion == b.deletion)
    && (forall t :: t in r.db.tasks ==>
                      && t in s.db.tasks && Quieter(s.db.tasks[t], r.db.tasks[t])
                      && (r.db.tasks[t].server in s.db.servers ==> r.db.tasks[t].server in r.db.servers))
  }

  lemma UninstallFrame(s: System, r: System)
    requires UninstallInvariant(s) && UninstallKept(s, r)
    ensures UninstallInvariant(r)
  {
    forall id | id in r.db.servers ensures UninstallRow(r, id) {
      assert UninstallRow(s, id);
    }
    forall t | t in r.db.tasks ensures UninstallTask(r, t) {
      assert UninstallTask(s, t);
    }
  }

  /** The event hands nothing out and puts no handed-out task back in the queue. */
  ghost predicate DeliveriesKept(s: System, r: System) {
    && s.deliveries == r.deliveries && s.taskIds <= r.taskIds && s.reported <= r.reported
    && (forall t :: t in s.requests ==> t in r.requests && r.requests[t] == s.requests[t])
    && (forall t :: t in r.db.tasks && t in s.taskIds ==> t in s.db.tasks && SameTask(s.db.tasks[t], r.db.tasks[t]))
  }

  /** The same task, not put back in the queue. */
  ghost predicate SameTask(a: Task, b: Task) {
    a.server == b.server && a.kind == b.kind && a.token == b.token && (b.status == Queued ==> a.status == Queued)
  }

  lemma DeliveryFrame(s: System, r: System)
    requires DeliveryInvariant(s) && DeliveriesKept(s, r)
    ensures DeliveryInvariant(r)
  {
    forall i | 0 <= i < |r.deliveries| ensures DeliveryRow(r, r.deliveries[i]) {
      assert DeliveryRow(s, s.deliveries[i]);
    }
  }

  /** The event adds no identifier that the history does not know. */
  ghost predicate IdentifiersKept(s: System, r: System) {
    && s.serverIds == r.serverIds && s.taskIds == r.taskIds && s.tokens == r.tokens
    && s.credentials == r.credentials && s.requests == r.requests && s.newest == r.newest
    && r.reported <= s.reported + s.db.tasks.Keys
    && (forall id :: id in r.db.servers ==>
        id in s.db.servers && s.db.servers[id].enrollment == r.db.servers[id].enrollment)
    && (forall t :: t in r.db.tasks ==>
                      && t in s.db.tasks && s.db.tasks[t].server == r.db.tasks[t].server
                      && (r.db.tasks[t].server in s.db.servers ==> r.db.tasks[t].server in r.db.servers))
  }

  lemma KnownFrame(s: System, r: System)
    requires Known(s) && TokensDistinct(s) && IdentifiersKept(s, r)
    ensures Known(r) && TokensDistinct(r)
  {
  }

  lemma ActionFrame(s: System, r: System)
    requires ActionInvariant(s) && s.acted == r.acted
    requires |s.deliveries| <= |r.deliveries|
    requires forall i :: 0 <= i < |s.deliveries| && s.deliveries[i].stage == Acting ==>
             r.deliveries[i] == s.deliveries[i]
    ensures ActionInvariant(r)
  {
    forall k | 0 <= k < |r.acted|
      ensures HasActed(r.deliveries, r.acted[k])
    {
      var i :| ActingFor(s.deliveries, i, s.acted[k]);
      assert ActingFor(r.deliveries, i, r.acted[k]);
    }
  }

  // ----- events that only close tasks -----

  /** Only statuses of active tasks, the clock and the update policy change. */
  ghost predicate DbCloses(a: Database, b: Database) {
    && a.tasks.Keys == b.tasks.Keys && a.servers.Keys == b.servers.Keys
    && (forall t :: t in a.tasks ==> Quieter(a.tasks[t], b.tasks[t]))
    && (forall id :: id in a.servers ==> a.servers[id] == b.servers[id].(autoUpdate := a.servers[id].autoUpdate))
  }

  lemma ExpiryCloses(db: Database, id: Id)
    ensures DbCloses(db, UnclaimedExpired(db, id)) && DbCloses(db, OverdueTimedOut(db, id))
  {
  }

  lemma UpdateCloses(db: Database, id: Id)
    ensures DbCloses(db, UpdatesCompleted(db, id)) && DbCloses(db, UpdatesCancelled(db, id))
  {
  }

  lemma StaleUpdateCloses(db: Database, id: Id)
    ensures DbCloses(db, StaleUpdatesExpired(db, id))
  {
  }

  lemma CancelCloses(db: Database, id: Id, t: Id)
    ensures DbCloses(db, TaskCancelled(db, id, t))
  {
  }

  lemma PolicyCloses(db: Database, id: Id, enabled: bool)
    requires id in db.servers
    ensures DbCloses(db, PolicySet(db, id, enabled))
  {
  }

  /** An event that leaves every column it could spoil alone. */
  lemma FrameKeeps(s: System, r: System)
    requires Inv(s) && IdentifiersKept(s, r) && EnrollmentKept(s, r) && UninstallKept(s, r) && DeliveriesKept(s, r)
             && s.acted == r.acted
    ensures Inv(r)
  {
    hide UninstallInvariant, EnrollmentInvariant, DeliveryInvariant, ActionInvariant, Known, TokensDistinct;
    hide IdentifiersKept, EnrollmentKept, UninstallKept;
    KnownFrame(s, r);
    EnrollmentFrame(s, r);
    UninstallFrame(s, r);
    DeliveryFrame(s, r);
    ActionFrame(s, r);
  }

  lemma ClosingShape(s: System, db: Database)
    requires DbCloses(s.db, db)
    ensures var r := s.(db := db); IdentifiersKept(s, r) && EnrollmentKept(s, r) && DeliveriesKept(s, r)
  {
  }

  lemma ClosingTasks(s: System, db: Database)
    requires DbCloses(s.db, db)
    ensures UninstallKept(s, s.(db := db))
  {
  }

  lemma ClosingKeeps(s: System, db: Database)
    requires Inv(s) && DbCloses(s.db, db)
    ensures Inv(s.(db := db))
  {
    hide Inv, DbCloses, IdentifiersKept, EnrollmentKept, UninstallKept, DeliveriesKept;
    ClosingShape(s, db);
    ClosingTasks(s, db);
    FrameKeeps(s, s.(db := db));
  }

  lemma DeleteKeeps(s: System, id: Id, r: System)
    requires Inv(s) && r == s.(db := Deleted(s.db, id))
    ensures Inv(r)
  {
    hide Inv;
    FrameKeeps(s, r);
  }

  // ----- events that insert a task -----

  lemma InsertKnown(s: System, t: Id, task: Task, r: System)
    requires Known(s) && task.server in s.db.servers
    requires r == s.(db := s.db.(tasks := s.db.tasks[t := task]), taskIds := s.taskIds + {t})
    ensures Known(r)
  {
  }

  lemma InsertShape(s: System, t: Id, task: Task, r: System)
    requires t !in s.taskIds && r == s.(db := s.db.(tasks := s.db.tasks[t := task]), taskIds := s.taskIds + {t})
    ensures EnrollmentKept(s, r) && DeliveriesKept(s, r)
  {
  }

  lemma InsertKeeps(s: System, t: Id, task: Task, r: System)
    requires Inv(s) && t !in s.taskIds && task.server in s.db.servers && task.kind != AgentUninstall
    requires r == s.(db := s.db.(tasks := s.db.tasks[t := task]), taskIds := s.taskIds + {t})
    ensures Inv(r)
  {
    hide UninstallInvariant, EnrollmentInvariant, DeliveryInvariant, ActionInvariant, Known, EnrollmentKept;
    InsertKnown(s, t, task, r);
    InsertedTask(s, t, r);
    InsertShape(s, t, task, r);
    EnrollmentFrame(s, r);
    DeliveryFrame(s, r);
    ActionFrame(s, r);
  }

  lemma InsertedTask(s: System, t: Id, r: System)
    requires UninstallInvariant(s) && Known(s) && t !in s.taskIds && t in r.db.tasks
             && r.db.tasks[t].kind != AgentUninstall
    requires r.db.servers == s.db.servers && r.db.tasks == s.db.tasks[t := r.db.tasks[t]]
    requires r.requests == s.requests && r.newest == s.newest && r.reported == s.reported
    ensures UninstallInvariant(r)
  {
    forall i | i in r.db.servers ensures UninstallRow(r, i) {
      assert UninstallRow(s, i);
    }
    forall u | u in r.db.tasks ensures UninstallTask(r, u) {
      if u != t { assert UninstallTask(s, u); }
    }
  }

  // ----- messages -----

  lemma MessageKeeps(s: System, i: nat, stage: Stage)
    requires Inv(s) && i < |s.deliveries| && s.deliveries[i].stage != Acting && stage != Acting && stage != Granted
    ensures Inv(WithStage(s, i, stage))
  {
    hide UninstallInvariant, EnrollmentInvariant, DeliveryInvariant, Known, TokensDistinct, ActionInvariant;
    var r := WithStage(s, i, stage);
    KnownFrame(s, r);
    EnrollmentFrame(s, r);
    UninstallFrame(s, r);
    ActionFrame(s, r);
    StageKeeps(s, i, r);
  }

  lemma StageKeeps(s: System, i: nat, r: System)
    requires DeliveryInvariant(s) && i < |s.deliveries|
    requires r.db == s.db && r.taskIds == s.taskIds && r.requests == s.requests && r.reported == s.reported
    requires exists stage :: r.deliveries == s.deliveries[i := s.deliveries[i].(stage := stage)]
                             && (stage == Granted || stage == Acting ==> s.deliveries[i].stage == Granted)
    ensures DeliveryInvariant(r)
  {
    forall j | 0 <= j < |r.deliveries| ensures DeliveryRow(r, r.deliveries[j]) {
      assert DeliveryRow(s, s.deliveries[j]);
    }
  }

  lemma ActKeeps(s: System, i: nat, r: System)
    requires Inv(s) && i < |s.deliveries| && s.deliveries[i].stage == Granted
    requires r == WithStage(s, i, Acting).(acted := s.acted + [s.deliveries[i].task])
    ensures Inv(r)
  {
    hide UninstallInvariant, EnrollmentInvariant, Known, TokensDistinct;
    KnownFrame(s, r);
    EnrollmentFrame(s, r);
    UninstallFrame(s, r);
    assert r.deliveries == s.deliveries[i := s.deliveries[i].(stage := Acting)];
    StageKeeps(s, i, r);
    var n := |s.acted|;
    forall k | 0 <= k < |r.acted|
      ensures HasActed(r.deliveries, r.acted[k])
      ensures k < n ==> r.acted[k] != r.acted[n]
    {
      if k < n {
        var j :| ActingFor(s.deliveries, j, s.acted[k]);
        assert j != i && ActingFor(r.deliveries, j, r.acted[k]);
      } else {
        assert ActingFor(r.deliveries, i, r.acted[k]);
      }
    }
  }

  // ----- enrollment -----

  lemma OtherColumnsKept(s: System, r: System)
    requires Inv(s) && UninstallKept(s, r) && DeliveriesKept(s, r) && s.acted == r.acted
    ensures UninstallInvariant(r) && DeliveryInvariant(r) && ActionInvariant(r)
  {
    hide UninstallInvariant, EnrollmentInvariant, DeliveryInvariant, Known, TokensDistinct;
    UninstallFrame(s, r);
    DeliveryFrame(s, r);
    ActionFrame(s, r);
  }

  lemma CreateKeeps(s: System, id: Id, user: User, enrollment: Token, expires: int, r: System)
    requires Inv(s) && id !in s.serverIds && enrollment !in s.tokens
    requires var server :=
             NEW_SERVER.(owner := user, enrollment := Some(Hash(enrollment)), enrollmentExpires := expires);
             r == s.(db := s.db.(servers := s.db.servers[id := server]), serverIds := s.serverIds + {id},
                     tokens := s.tokens + {enrollment})
    ensures Inv(r)
  {
    hide UninstallInvariant, EnrollmentInvariant, DeliveryInvariant, ActionInvariant, TokensDistinct, Known;
    CreatedEnrollment(s, id, enrollment, r);
    CreatedUninstall(s, id, r);
    CreatedKnown(s, id, enrollment, r);
    DeliveryFrame(s, r);
    ActionFrame(s, r);
  }

  lemma CreatedKnown(s: System, id: Id, enrollment: Token, r: System)
    requires Known(s) && TokensDistinct(s) && id in r.db.servers
    requires r.db.servers[id].enrollment == Some(Hash(enrollment))
             && r.db.servers == s.db.servers[id := r.db.servers[id]]
    requires r == s.(db := s.db.(servers := r.db.servers), serverIds := s.serverIds + {id},
                     tokens := s.tokens + {enrollment})
    ensures Known(r) && TokensDistinct(r)
  {
  }

  lemma CreatedEnrollment(s: System, id: Id, enrollment: Token, r: System)
    requires Known(s) && EnrollmentInvariant(s) && id !in s.serverIds && enrollment !in s.tokens && id in r.db.servers
    requires SameEnrollment(r.db.servers[id], NEW_SERVER.(enrollment := Some(Hash(enrollment))))
    requires r.db.servers == s.db.servers[id := r.db.servers[id]] && r.tokens == s.tokens + {enrollment}
    requires r.credentials == s.credentials && r.accepted == s.accepted
    ensures EnrollmentInvariant(r)
  {
    forall j | j in r.db.servers ensures EnrollmentRow(r, j) {
      if j != id { assert EnrollmentRow(s, j); }
    }
    assert CredentialsPaired(r);
    assert AcceptedInvariant(r);
  }

  lemma CreatedUninstall(s: System, id: Id, r: System)
    requires Known(s) && UninstallInvariant(s) && id !in s.serverIds && id in r.db.servers
    requires r.db.servers == s.db.servers[id := r.db.servers[id]] && r.db.servers[id].uninstall == None
             && r.db.servers[id].deletion == Active
    requires r.db.tasks == s.db.tasks && r.requests == s.requests && r.newest == s.newest && r.reported == s.reported
    ensures UninstallInvariant(r)
  {
    forall j | j in r.db.servers ensures UninstallRow(r, j) {
      if j != id { assert UninstallRow(s, j); }
    }
    forall t | t in r.db.tasks ensures UninstallTask(r, t) {
      assert UninstallTask(s, t);
    }
  }

  /** What `Enroll` does to its row and to the history. */
  ghost predicate EnrolledTo(s: System, id: Id, token: Token, credential: Token, rollback: Token, r: System) {
    && id in s.db.servers && id in r.db.servers && s.db.servers[id].enrollment == Some(Hash(token))
    && var a, b := s.db.servers[id], r.db.servers[id];
    && b.credential == Some(Hash(credential)) && b.enrollmentUsed && !b.bootstrapCompleted
    && b.enrollment == a.enrollment && b.uninstall == a.uninstall && b.deletion == a.deletion
    && r.db.servers == s.db.servers[id := b] && r.db.tasks == s.db.tasks
    && r == s.(db := r.db, tokens := s.tokens + {credential, rollback},
               credentials := s.credentials[credential := Credential(id, token)])
  }

  lemma EnrollKeeps(s: System, id: Id, token: Token, credential: Token, rollback: Token, r: System)
    requires Inv(s) && EnrolledTo(s, id, token, credential, rollback, r)
    requires !s.db.servers[id].enrollmentUsed && credential !in s.tokens
    ensures Inv(r)
  {
    hide UninstallInvariant, EnrollmentInvariant, DeliveryInvariant, ActionInvariant, Known, TokensDistinct;
    EnrollKnown(s, id, token, credential, rollback, r);
    EnrolledRows(s, id, token, credential, rollback, r);
    EnrolledOthers(s, id, token, credential, rollback, r);
    OtherColumnsKept(s, r);
  }

  lemma EnrolledOthers(s: System, id: Id, token: Token, credential: Token, rollback: Token, r: System)
    requires EnrolledTo(s, id, token, credential, rollback, r)
    ensures UninstallKept(s, r) && DeliveriesKept(s, r) && s.acted == r.acted
  {
  }

  lemma EnrollKnown(s: System, id: Id, token: Token, credential: Token, rollback: Token, r: System)
    requires Known(s) && TokensDistinct(s) && EnrolledTo(s, id, token, credential, rollback, r)
    ensures Known(r) && TokensDistinct(r)
  {
  }

  lemma EnrolledRows(s: System, id: Id, token: Token, credential: Token, rollback: Token, r: System)
    requires Known(s) && EnrollmentInvariant(s) && EnrolledTo(s, id, token, credential, rollback, r)
    requires !s.db.servers[id].enrollmentUsed && credential !in s.tokens
    ensures EnrollmentInvariant(r)
  {
    hide CredentialsPaired, AcceptedInvariant, EnrollmentRow;
    assert EnrollmentRow(s, id) && token in s.tokens && credential !in s.credentials;
    EnrolledPairs(s, id, token, credential, rollback, r);
    EnrolledAccepted(s, id, token, credential, rollback, r);
    EnrolledEach(s, id, token, credential, rollback, r);
  }

  lemma EnrolledEach(s: System, id: Id, token: Token, credential: Token, rollback: Token, r: System)
    requires EnrollmentInvariant(s) && EnrolledTo(s, id, token, credential, rollback, r)
    requires !s.db.servers[id].enrollmentUsed && credential !in s.credentials
    ensures forall j :: j in r.db.servers ==> EnrollmentRow(r, j)
  {
    assert forall c :: c in s.accepted ==> c in s.credentials;
    hide CredentialsPaired, AcceptedInvariant;
    forall j | j in r.db.servers ensures EnrollmentRow(r, j) {
      assert EnrollmentRow(s, j);
    }
  }

  lemma EnrolledAccepted(s: System, id: Id, token: Token, credential: Token, rollback: Token, r: System)
    requires AcceptedInvariant(s) && EnrolledTo(s, id, token, credential, rollback, r)
    requires EnrollmentRow(s, id) && !s.db.servers[id].enrollmentUsed && credential !in s.credentials
    ensures AcceptedInvariant(r)
  {
  }

  lemma EnrolledPairs(s: System, id: Id, token: Token, credential: Token, rollback: Token, r: System)
    requires CredentialsPaired(s) && EnrolledTo(s, id, token, credential, rollback, r)
    requires token in s.tokens && credential !in s.credentials
    ensures CredentialsPaired(r)
  {
  }

  lemma RollbackKeeps(s: System, id: Id, r: System)
    requires Inv(s) && id in s.db.servers && !s.db.servers[id].bootstrapCompleted && r == s.(db := RolledBack(s.db, id))
    ensures Inv(r)
  {
    hide UninstallInvariant, EnrollmentInvariant, DeliveryInvariant, ActionInvariant, Known, TokensDistinct;
    RolledBackShape(s, id, r);
    hide RolledBack, IdentifiersKept, UninstallKept, DeliveriesKept;
    KnownFrame(s, r);
    RolledBackRows(s, id, r);
    OtherColumnsKept(s, r);
  }

  lemma RolledBackShape(s: System, id: Id, r: System)
    requires id in s.db.servers && r == s.(db := RolledBack(s.db, id))
    ensures IdentifiersKept(s, r) && UninstallKept(s, r) && DeliveriesKept(s, r)
  {
  }

  lemma RolledBackRows(s: System, id: Id, r: System)
    requires EnrollmentInvariant(s) && id in s.db.servers && !s.db.servers[id].bootstrapCompleted
    requires r == s.(db := RolledBack(s.db, id))
    ensures EnrollmentInvariant(r)
  {
    forall j | j in r.db.servers ensures EnrollmentRow(r, j) {
      assert EnrollmentRow(s, j);
    }
    assert CredentialsPaired(r);
    assert EnrollmentRow(s, id);
    assert AcceptedInvariant(r);
  }

  lemma HeartbeatKeeps(s: System, id: Id, credential: Token, linux: bool, supported: bool, r: System)
    requires Inv(s) && Authenticates(s.db, id, credential)
    requires r == s.(db := HeartbeatRecorded(s.db, id, linux, supported), accepted := s.accepted + {credential})
    ensures Inv(r)
  {
    hide UninstallInvariant, EnrollmentInvariant, DeliveryInvariant, ActionInvariant, Known, TokensDistinct;
    HeartbeatShape(s, id, credential, linux, supported, r);
    hide HeartbeatRecorded, IdentifiersKept, UninstallKept, DeliveriesKept;
    KnownFrame(s, r);
    HeartbeatRows(s, id, credential, linux, supported, r);
    OtherColumnsKept(s, r);
  }

  lemma HeartbeatShape(s: System, id: Id, credential: Token, linux: bool, supported: bool, r: System)
    requires id in s.db.servers
    requires r == s.(db := HeartbeatRecorded(s.db, id, linux, supported), accepted := s.accepted + {credential})
    ensures IdentifiersKept(s, r) && UninstallKept(s, r) && DeliveriesKept(s, r)
  {
  }

  lemma HeartbeatRows(s: System, id: Id, credential: Token, linux: bool, supported: bool, r: System)
    requires EnrollmentInvariant(s) && Authenticates(s.db, id, credential)
    requires r == s.(db := HeartbeatRecorded(s.db, id, linux, supported), accepted := s.accepted + {credential})
    ensures EnrollmentInvariant(r)
  {
    HeartbeatEach(s, id, credential, linux, supported, r);
    hide EnrollmentRow;
    HeartbeatPairs(s, id, credential, linux, supported, r);
    HeartbeatAccepted(s, id, credential, linux, supported, r);
    hide CredentialsPaired, AcceptedInvariant;
  }

  lemma HeartbeatEach(s: System, id: Id, credential: Token, linux: bool, supported: bool, r: System)
    requires EnrollmentInvariant(s) && Authenticates(s.db, id, credential)
    requires r == s.(db := HeartbeatRecorded(s.db, id, linux, supported), accepted := s.accepted + {credential})
    ensures forall j :: j in r.db.servers ==> EnrollmentRow(r, j)
  {
    hide CredentialsPaired, AcceptedInvariant;
    forall j | j in r.db.servers ensures EnrollmentRow(r, j) {
      assert EnrollmentRow(s, j) && EnrollmentRow(s, id);
    }
  }

  lemma HeartbeatPairs(s: System, id: Id, credential: Token, linux: bool, supported: bool, r: System)
    requires EnrollmentInvariant(s) && Authenticates(s.db, id, credential)
    requires r == s.(db := HeartbeatRecorded(s.db, id, linux, supported), accepted := s.accepted + {credential})
    ensures CredentialsPaired(r)
  {
    hide EnrollmentRow, AcceptedInvariant;
  }

  lemma HeartbeatAccepted(s: System, id: Id, credential: Token, linux: bool, supported: bool, r: System)
    requires EnrollmentInvariant(s) && Authenticates(s.db, id, credential)
    requires r == s.(db := HeartbeatRecorded(s.db, id, linux, supported), accepted := s.accepted + {credential})
    ensures AcceptedInvariant(r)
  {
    assert EnrollmentRow(s, id);
    hide EnrollmentRow, CredentialsPaired;
  }

  // ----- claims, reports, confirmations -----

  lemma ClaimedColumns(db: Database, picked: set<Id>)
    ensures var r := Claimed(db, picked);
            && r.servers == db.servers && r.tasks.Keys == db.tasks.Keys
            && (forall u :: u in db.tasks ==> SameTask(db.tasks[u], r.tasks[u]))
  {
  }

  lemma ClaimKeeps(s: System, id: Id, picked: set<Id>, r: System)
    requires Inv(s) && Claimable(s.db, id, picked)
    requires r == s.(db := Claimed(s.db, picked), deliveries := s.deliveries + HandOuts(s.db, Ordered(picked)))
    ensures Inv(r)
  {
    ClaimedColumns(s.db, picked);
    hide FleetRows.Claimed, Claimable, HandOuts, Ordered;
    hide UninstallInvariant, EnrollmentInvariant, DeliveryInvariant, ActionInvariant, Known, TokensDistinct;
    KnownFrame(s, r);
    EnrollmentFrame(s, r);
    ActionFrame(s, r);
    ClaimedTasks(s, id, picked, r);
    ClaimedDeliveries(s, id, picked, r);
  }

  lemma ClaimedTasks(s: System, id: Id, picked: set<Id>, r: System)
    requires UninstallInvariant(s) && Claimable(s.db, id, picked)
    requires r == s.(db := Claimed(s.db, picked), deliveries := r.deliveries)
    ensures UninstallInvariant(r)
  {
    forall j | j in r.db.servers ensures UninstallRow(r, j) {
      assert UninstallRow(s, j);
    }
    forall t | t in r.db.tasks ensures UninstallTask(r, t) {
      assert UninstallTask(s, t);
    }
  }

  lemma ClaimedDeliveries(s: System, id: Id, picked: set<Id>, r: System)
    requires Known(s) && UninstallInvariant(s) && DeliveryInvariant(s) && Claimable(s.db, id, picked)
    requires r == s.(db := Claimed(s.db, picked), deliveries := s.deliveries + HandOuts(s.db, Ordered(picked)))
    ensures DeliveryInvariant(r)
  {
    hide UninstallInvariant, UninstallRow, UninstallTask, DeliveryRow, Known, HandOuts, Ordered;
    ClaimedRows(s, id, picked, r);
    ClaimedTwice(s, id, picked, r);
  }

  lemma ClaimedTwice(s: System, id: Id, picked: set<Id>, r: System)
    requires DeliveryInvariant(s) && Claimable(s.db, id, picked)
    requires r == s.(db := Claimed(s.db, picked), deliveries := s.deliveries + HandOuts(s.db, Ordered(picked)))
    ensures forall i, j :: 0 <= i < j < |r.deliveries| ==> r.deliveries[i].task != r.deliveries[j].task
  {
    hide DeliveryRow, Claimed, HandOuts, Ordered;
    var n := |s.deliveries|;
    var order := Ordered(picked);
    forall i | n <= i < |r.deliveries| ensures r.deliveries[i].task == order[i - n] && order[i - n] in picked {
      assert order[i - n] in order;
    }
    forall i, j | 0 <= i < j < |r.deliveries| ensures r.deliveries[i].task != r.deliveries[j].task {
      if i < n <= j {
        assert DeliveryRow(s, s.deliveries[i]);
        WaitingIsNew(s, s.deliveries[i], r.deliveries[j].task);
      } else if n <= i {
        assert order[i - n] != order[j - n];
      }
    }
  }

  lemma WaitingIsNew(s: System, d: Delivery, t: Id)
    requires DeliveryRow(s, d) && t in s.db.tasks && s.db.tasks[t].status == Queued
    ensures d.task != t
  {
  }

  lemma ClaimedRows(s: System, id: Id, picked: set<Id>, r: System)
    requires Known(s) && UninstallInvariant(s) && DeliveryInvariant(s) && Claimable(s.db, id, picked)
    requires r == s.(db := Claimed(s.db, picked), deliveries := s.deliveries + HandOuts(s.db, Ordered(picked)))
    ensures forall i :: 0 <= i < |r.deliveries| ==> DeliveryRow(r, r.deliveries[i])
  {
    var n := |s.deliveries|;
    var order := Ordered(picked);
    hide HandOuts, Ordered;
    forall i | 0 <= i < |r.deliveries| ensures DeliveryRow(r, r.deliveries[i]) {
      if i < n {
        assert DeliveryRow(s, s.deliveries[i]);
      } else {
        assert order[i - n] in order;
        assert r.deliveries[i].task == order[i - n] && order[i - n] in picked;
        assert UninstallTask(s, r.deliveries[i].task);
      }
    }
  }

  lemma ReportedColumns(db: Database, t: Id, completed: bool)
    requires t in db.tasks && db.tasks[t].server in db.servers && db.tasks[t].status == Processing
    ensures var r := Reported(db, t, completed);
            && r.servers.Keys == db.servers.Keys && r.tasks.Keys == db.tasks.Keys
            && (forall id :: id in db.servers ==> SameEnrollment(db.servers[id], r.servers[id]))
            && (forall u :: u in db.tasks ==> SameTask(db.tasks[u], r.tasks[u]))
  {
  }

  lemma ReportKeeps(s: System, i: nat, completed: bool, credential: Token, r: System)
    requires Inv(s) && i < |s.deliveries| && s.deliveries[i].stage == Reporting(completed)
    requires Reportable(s.db, s.deliveries[i].task, credential)
    requires r == s.(db := Reported(s.db, s.deliveries[i].task, completed),
                     deliveries := s.deliveries[i := s.deliveries[i].(stage := if completed then Granted else Dropped)],
                     reported := if completed then s.reported + {s.deliveries[i].task} else s.reported)
    ensures Inv(r)
  {
    var t := s.deliveries[i].task;
    hide FleetRows.Reported, SameEnrollment, UninstallInvariant, EnrollmentInvariant, DeliveryInvariant,
         ActionInvariant, Known, TokensDistinct, SameTask;
    ReportableRow(s.db, t, credential);
    hide Reportable;
    ReportedColumns(s.db, t, completed);
    ReportedTasks(s, t, completed, r);
    ReportedDeliveries(s, i, completed, r);
    ColumnsFrame(s, r);
    ReportedActions(s, i, if completed then Granted else Dropped, r);
  }

  lemma ReportedActions(s: System, i: nat, stage: Stage, r: System)
    requires ActionInvariant(s) && s.acted == r.acted && i < |s.deliveries| && s.deliveries[i].stage != Acting
    requires r.deliveries == s.deliveries[i := s.deliveries[i].(stage := stage)]
    ensures ActionInvariant(r)
  {
    hide ActionInvariant;
    ActionFrame(s, r);
  }

  lemma ReportableRow(db: Database, t: Id, credential: Token)
    requires Reportable(db, t, credential)
    ensures t in db.tasks && db.tasks[t].status == Processing && db.tasks[t].server in db.servers
  {
  }

  lemma ColumnsFrame(s: System, r: System)
    requires Known(s) && TokensDistinct(s) && EnrollmentInvariant(s)
    requires r == s.(db := r.db, deliveries := r.deliveries, reported := r.reported)
    requires s.reported <= r.reported <= s.reported + s.db.tasks.Keys
    requires r.db.servers.Keys == s.db.servers.Keys && r.db.tasks.Keys == s.db.tasks.Keys
    requires forall id :: id in s.db.servers ==> SameEnrollment(s.db.servers[id], r.db.servers[id])
    requires forall t :: t in s.db.tasks ==> SameTask(s.db.tasks[t], r.db.tasks[t])
    ensures Known(r) && TokensDistinct(r) && EnrollmentInvariant(r)
  {
    hide EnrollmentInvariant, Known, TokensDistinct;
    KnownFrame(s, r);
    EnrollmentFrame(s, r);
  }

  lemma ReportedTasks(s: System, task: Id, completed: bool, r: System)
    requires Known(s) && UninstallInvariant(s) && task in s.db.tasks && s.db.tasks[task].status == Processing
    requires r.db == Reported(s.db, task, completed)
             && r.reported == if completed then s.reported + {task} else s.reported
    requires r.requests == s.requests && r.newest == s.newest
    ensures UninstallInvariant(r)
  {
    hide UninstallRow, UninstallTask, Reported, Known;
    forall j | j in r.db.servers ensures UninstallRow(r, j) { ReportedRow(s, task, completed, r, j); }
    forall t | t in r.db.tasks ensures UninstallTask(r, t) { ReportedTask(s, task, completed, r, t); }
  }

  lemma ReportedTask(s: System, task: Id, completed: bool, r: System, t: Id)
    requires Known(s) && UninstallInvariant(s) && task in s.db.tasks && s.db.tasks[task].status == Processing
    requires r.db == Reported(s.db, task, completed)
             && r.reported == if completed then s.reported + {task} else s.reported
    requires r.requests == s.requests && r.newest == s.newest && t in r.db.tasks
    ensures UninstallTask(r, t)
  {
    assert UninstallTask(s, task) && UninstallTask(s, t);
    hide UninstallRow;
  }

  lemma ReportedRow(s: System, task: Id, completed: bool, r: System, j: Id)
    requires Known(s) && UninstallInvariant(s) && task in s.db.tasks && s.db.tasks[task].status == Processing
    requires r.db == Reported(s.db, task, completed)
             && r.reported == if completed then s.reported + {task} else s.reported
    requires r.requests == s.requests && r.newest == s.newest && j in r.db.servers
    ensures UninstallRow(r, j)
  {
    assert UninstallTask(s, task) && UninstallRow(s, s.db.tasks[task].server) && UninstallRow(s, j);
    if j in s.newest && s.newest[j] == task { assert s.requests[task].server == j; }
  }

  lemma ReportedDeliveries(s: System, i: nat, completed: bool, r: System)
    requires DeliveryInvariant(s) && i < |s.deliveries| && s.deliveries[i].task in s.db.tasks
    requires s.db.tasks[s.deliveries[i].task].server in s.db.servers
    requires s.db.tasks[s.deliveries[i].task].status == Processing
    requires r.db == Reported(s.db, s.deliveries[i].task, completed) && s.taskIds == r.taskIds
             && s.requests == r.requests
    requires r.reported == if completed then s.reported + {s.deliveries[i].task} else s.reported
    requires r.deliveries == s.deliveries[i := s.deliveries[i].(stage := if completed then Granted else Dropped)]
    ensures DeliveryInvariant(r)
  {
    forall j | 0 <= j < |r.deliveries| ensures DeliveryRow(r, r.deliveries[j]) {
      assert DeliveryRow(s, s.deliveries[j]);
    }
  }

  /** A confirmation that is accepted is for the newest request, whose report was committed. */
  lemma ConfirmIsCurrent(s: System, i: nat)
    requires Inv(s) && i < |s.deliveries| && s.deliveries[i].stage == Acting && s.deliveries[i].kind == AgentUninstall
    requires Confirmable(s.db, s.deliveries[i].server, s.deliveries[i].task, s.deliveries[i].token)
    ensures var d := s.deliveries[i];
            && d.server in s.newest && s.newest[d.server] == d.task
            && d.task in s.reported && s.db.servers[d.server].deletion == Uninstalling
  {
    var d := s.deliveries[i];
    assert DeliveryRow(s, d);
    assert UninstallRow(s, d.server);
  }

  lemma ConfirmedDb(db: Database, id: Id, t: Id)
    requires id in db.servers && t in db.tasks
    ensures Confirmed(db, id, t, true) == Deleted(db, id)
  {
  }

  lemma FailedColumns(db: Database, id: Id, t: Id)
    requires t in db.tasks && id in db.servers
    ensures var r := Confirmed(db, id, t, false);
            && r.servers.Keys == db.servers.Keys && r.tasks.Keys == db.tasks.Keys
            && (forall id :: id in db.servers ==> SameEnrollment(db.servers[id], r.servers[id]))
            && (forall u :: u in db.tasks ==> SameTask(db.tasks[u], r.tasks[u]))
  {
  }

  lemma ConfirmFailureKeeps(s: System, id: Id, task: Id, r: System)
    requires Inv(s) && id in s.db.servers && task in s.db.tasks && s.db.tasks[task].server == id
    requires s.db.servers[id].deletion == Uninstalling && r == s.(db := Confirmed(s.db, id, task, false))
    ensures Inv(r)
  {
    FailedColumns(s.db, id, task);
    hide Confirmed, SameEnrollment;
    hide UninstallInvariant, EnrollmentInvariant, DeliveryInvariant, ActionInvariant, Known, TokensDistinct;
    KnownFrame(s, r);
    EnrollmentFrame(s, r);
    ActionFrame(s, r);
    DeliveryFrame(s, r);
    FailedTasks(s, id, task, r);
  }

  lemma FailedTasks(s: System, id: Id, task: Id, r: System)
    requires UninstallInvariant(s) && id in s.db.servers && task in s.db.tasks
             && s.db.servers[id].deletion == Uninstalling
    requires s.db.tasks[task].server == id
    requires r == s.(db := Confirmed(s.db, id, task, false))
    ensures UninstallInvariant(r)
  {
    forall j | j in r.db.servers ensures UninstallRow(r, j) {
      assert UninstallRow(s, j);
    }
    forall t | t in r.db.tasks ensures UninstallTask(r, t) {
      assert UninstallTask(s, t);
    }
  }

  lemma RequestedColumns(db: Database, id: Id, t: Id, token: Token)
    requires id in db.servers
    ensures var r := UninstallRequested(db, id, t, token);
            && r.servers.Keys == db.servers.Keys && r.tasks.Keys == db.tasks.Keys + {t} && r.tasks[t].server == id
            && (forall id :: id in db.servers ==> SameEnrollment(db.servers[id], r.servers[id]))
            && (forall u :: u in db.tasks && u != t ==> SameTask(db.tasks[u], r.tasks[u]))
  {
  }

  lemma RequestKnown(s: System, id: Id, task: Id, token: Token, r: System)
    requires Known(s) && id in s.db.servers && task !in s.taskIds
    requires r == s.(db := UninstallRequested(s.db, id, task, token), taskIds := s.taskIds + {task},
                     tokens := s.tokens + {token},
                     requests := s.requests[task := Request(id, token)], newest := s.newest[id := task])
    ensures Known(r)
  {
    hide UninstallRequested;
    RequestedColumns(s.db, id, task, token);
  }

  lemma RequestDistinct(s: System, id: Id, task: Id, token: Token, r: System)
    requires Known(s) && TokensDistinct(s) && task !in s.taskIds && token !in s.tokens
    requires r.requests == s.requests[task := Request(id, token)]
    ensures TokensDistinct(r)
  {
  }

  lemma RequestKeeps(s: System, id: Id, task: Id, token: Token, r: System)
    requires Inv(s) && id in s.db.servers && task !in s.taskIds && token !in s.tokens
    requires s.db.servers[id].deletion == Active || s.db.servers[id].deletion == Failed
    requires r == s.(db := UninstallRequested(s.db, id, task, token), taskIds := s.taskIds + {task},
                     tokens := s.tokens + {token},
                     requests := s.requests[task := Request(id, token)], newest := s.newest[id := task])
    ensures Inv(r)
  {
    hide UninstallInvariant, EnrollmentInvariant, DeliveryInvariant, ActionInvariant, Known, TokensDistinct,
        UninstallRequested;
    RequestShape(s, id, task, token, r);
    hide EnrollmentKept;
    RequestKnown(s, id, task, token, r);
    RequestDistinct(s, id, task, token, r);
    RequestedTasks(s, id, task, token, r);
    EnrollmentFrame(s, r);
    ActionFrame(s, r);
    DeliveryFrame(s, r);
  }

  lemma RequestShape(s: System, id: Id, task: Id, token: Token, r: System)
    requires Known(s) && id in s.db.servers && task !in s.taskIds
    requires r == s.(db := UninstallRequested(s.db, id, task, token), taskIds := s.taskIds + {task},
                     tokens := s.tokens + {token},
                     requests := s.requests[task := Request(id, token)], newest := s.newest[id := task])
    ensures EnrollmentKept(s, r) && DeliveriesKept(s, r)
  {
    hide UninstallRequested, Known, EnrollmentKept, DeliveriesKept;
    RequestEnrollment(s, id, task, token, r);
    RequestDeliveries(s, id, task, token, r);
  }

  lemma RequestEnrollment(s: System, id: Id, task: Id, token: Token, r: System)
    requires Known(s) && id in s.db.servers && task !in s.taskIds
    requires r == s.(db := UninstallRequested(s.db, id, task, token), taskIds := s.taskIds + {task},
                     tokens := s.tokens + {token},
                     requests := s.requests[task := Request(id, token)], newest := s.newest[id := task])
    ensures EnrollmentKept(s, r)
  {
    hide UninstallRequested, SameEnrollment, SameTask, Known;
    RequestedColumns(s.db, id, task, token);
  }

  lemma RequestDeliveries(s: System, id: Id, task: Id, token: Token, r: System)
    requires Known(s) && id in s.db.servers && task !in s.taskIds
    requires r == s.(db := UninstallRequested(s.db, id, task, token), taskIds := s.taskIds + {task},
                     tokens := s.tokens + {token},
                     requests := s.requests[task := Request(id, token)], newest := s.newest[id := task])
    ensures DeliveriesKept(s, r)
  {
    hide UninstallRequested, SameEnrollment, SameTask;
    assert forall t :: t in s.requests ==> t != task;
    hide Known;
    RequestedColumns(s.db, id, task, token);
  }

  lemma RequestedTasks(s: System, id: Id, task: Id, token: Token, r: System)
    requires Known(s) && UninstallInvariant(s) && id in s.db.servers && task !in s.taskIds
    requires s.db.servers[id].deletion == Active || s.db.servers[id].deletion == Failed
    requires r.db == UninstallRequested(s.db, id, task, token) && r.reported == s.reported
    requires r.requests == s.requests[task := Request(id, token)] && r.newest == s.newest[id := task]
    ensures UninstallInvariant(r)
  {
    hide UninstallRow, UninstallTask, UninstallRequested, Known;
    RequestedRows(s, id, task, token, r);
    forall t | t in r.db.tasks ensures UninstallTask(r, t) { RequestedTask(s, id, task, token, r, t); }
  }

  lemma RequestedRows(s: System, id: Id, task: Id, token: Token, r: System)
    requires Known(s) && UninstallInvariant(s) && id in s.db.servers && task !in s.taskIds
    requires s.db.servers[id].deletion == Active || s.db.servers[id].deletion == Failed
    requires r.db == UninstallRequested(s.db, id, task, token) && r.reported == s.reported
    requires r.requests == s.requests[task := Request(id, token)] && r.newest == s.newest[id := task]
    ensures forall j :: j in r.db.servers ==> UninstallRow(r, j)
  {
    hide UninstallTask;
    forall j | j in r.db.servers ensures UninstallRow(r, j) {
      assert UninstallRow(s, j);
    }
  }

  lemma RequestedTask(s: System, id: Id, task: Id, token: Token, r: System, t: Id)
    requires Known(s) && UninstallInvariant(s) && id in s.db.servers && task !in s.taskIds
    requires s.db.servers[id].deletion == Active || s.db.servers[id].deletion == Failed
    requires r.db == UninstallRequested(s.db, id, task, token) && r.reported == s.reported
    requires r.requests == s.requests[task := Request(id, token)] && r.newest == s.newest[id := task]
    requires t in r.db.tasks
    ensures UninstallTask(r, t)
  {
    hide UninstallRow;
    if t != task { assert UninstallTask(s, t); }
  }

  lemma ExpiredColumns(db: Database, user: User)
    ensures var r := StaleUninstallsExpired(db, user);
            && r.servers.Keys == db.servers.Keys && r.tasks.Keys == db.tasks.Keys
            && (forall id :: id in db.servers ==> SameEnrollment(db.servers[id], r.servers[id]))
            && (forall t :: t in db.tasks ==> SameTask(db.tasks[t], r.tasks[t]))
  {
    hide LostUninstall;
  }

  lemma ExpireKeeps(s: System, user: User, r: System)
    requires Inv(s) && r == s.(db := StaleUninstallsExpired(s.db, user))
    ensures Inv(r)
  {
    ExpiredColumns(s.db, user);
    hide UninstallInvariant, EnrollmentInvariant, DeliveryInvariant, ActionInvariant, Known, TokensDistinct,
         StaleUninstallsExpired;
    KnownFrame(s, r);
    ExpiredTasks(s, user, r);
    EnrollmentFrame(s, r);
    ActionFrame(s, r);
    DeliveryFrame(s, r);
  }

  lemma ExpiredTasks(s: System, user: User, r: System)
    requires UninstallInvariant(s) && r == s.(db := StaleUninstallsExpired(s.db, user))
    ensures UninstallInvariant(r)
  {
    forall j | j in r.db.servers ensures UninstallRow(r, j) {
      assert UninstallRow(s, j);
      hide LostUninstall;
    }
    forall t | t in r.db.tasks ensures UninstallTask(r, t) {
      ExpiredTask(s, user, t, r);
    }
  }

  lemma ExpiredTask(s: System, user: User, t: Id, r: System)
    requires UninstallInvariant(s) && r == s.(db := StaleUninstallsExpired(s.db, user)) && t in r.db.tasks
    ensures UninstallTask(r, t)
  {
    assert UninstallTask(s, t);
    if s.db.tasks[t].kind == AgentUninstall && s.db.tasks[t].IsActive() && LostUninstall(s.db, s.db.tasks[t].server) {
      var u :| u in s.db.tasks && s.db.tasks[u].server == s.db.tasks[t].server
          && s.db.tasks[u].StaleUninstall(s.db.now);
      assert UninstallTask(s, u);
      assert u == t;
    }
  }

  // ----- every event, every run -----

  predicate ClosesTasks(e: Event) {
    e.Advance? || e.ConfirmVersion? || e.ExpireUnclaimed? || e.TimeOutOverdue? || e.SetPolicy?
    || e.CancelTask? || e.CancelUpdates? || e.ExpireUpdates?
  }

  lemma ClosingDb(s: System, e: Event)
    requires ClosesTasks(e) && Enabled(s, e)
    ensures DbCloses(s.db, Next(s, e).db) && Next(s, e) == s.(db := Next(s, e).db)
  {
    hide UnclaimedExpired, OverdueTimedOut, UpdatesCompleted, StaleUpdatesExpired, UpdatesCancelled, TaskCancelled,
        PolicySet;
    match e
    case Advance(_) =>
    case ConfirmVersion(id) => UpdateCloses(s.db, id);
    case ExpireUnclaimed(id) => ExpiryCloses(s.db, id);
    case TimeOutOverdue(id) => ExpiryCloses(s.db, id);
    case SetPolicy(id, _, enabled) => PolicyCloses(s.db, id, enabled);
    case CancelTask(id, task) => CancelCloses(s.db, id, task);
    case CancelUpdates(id) => UpdateCloses(s.db, id);
    case ExpireUpdates(id) => StaleUpdateCloses(s.db, id);
  }

  predicate MovesMessages(e: Event) {
    e.Claim? || e.SendReport? || e.CommitReport? || e.LoseMessage? || e.Act? || e.Confirm?
  }

  predicate Enrolls(e: Event) { e.CreateServer? || e.Enroll? || e.Rollback? || e.Heartbeat? }

  lemma MessagesKeep(s: System, e: Event)
    requires Inv(s) && Enabled(s, e) && MovesMessages(e)
    ensures Inv(Next(s, e))
  {
    hide Inv, FleetRows.Claimed, FleetRows.Reported, Confirmed, Deleted, HandOuts, Ordered;
    var r := Next(s, e);
    match e
    case Claim(id, picked) => ClaimKeeps(s, id, picked, r);
    case SendReport(i, completed) => MessageKeeps(s, i, Reporting(completed));
    case CommitReport(i, credential) => CommitKeeps(s, i, credential);
    case LoseMessage(i) => MessageKeeps(s, i, Dropped);
    case Act(i) => ActKeeps(s, i, r);
    case Confirm(i, completed) => ConfirmKeeps(s, i, completed);
  }

  lemma CommitKeeps(s: System, i: nat, credential: Token)
    requires Inv(s) && Enabled(s, CommitReport(i, credential))
    ensures Inv(Next(s, CommitReport(i, credential)))
  {
    hide Inv, FleetRows.Reported;
    var r := Next(s, CommitReport(i, credential));
    if Reportable(s.db, s.deliveries[i].task, credential) {
      ReportKeeps(s, i, s.deliveries[i].stage.completed, credential, r);
    } else {
      MessageKeeps(s, i, Dropped);
    }
  }

  lemma ConfirmKeeps(s: System, i: nat, completed: bool)
    requires Inv(s) && Enabled(s, Confirm(i, completed))
    ensures Inv(Next(s, Confirm(i, completed)))
  {
    hide Inv, Confirmed, Deleted;
    var r := Next(s, Confirm(i, completed));
    ConfirmIsCurrent(s, i);
    ConfirmedDb(s.db, s.deliveries[i].server, s.deliveries[i].task);
    if completed {
      DeleteKeeps(s, s.deliveries[i].server, r);
    } else {
      ConfirmFailureKeeps(s, s.deliveries[i].server, s.deliveries[i].task, r);
    }
  }

  lemma EnrollmentsKeep(s: System, e: Event)
    requires Inv(s) && Enabled(s, e) && Enrolls(e)
    ensures Inv(Next(s, e))
  {
    hide Inv, RolledBack, HeartbeatRecorded;
    var r := Next(s, e);
    match e
    case CreateServer(id, user, enrollment, lifetime) => CreateKeeps(s, id, user, enrollment, s.db.now + lifetime, r);
    case Enroll(id, token, credential, rollback) => EnrollKeeps(s, id, token, credential, rollback, r);
    case Rollback(id, _, _) => RollbackKeeps(s, id, r);
    case Heartbeat(id, credential, linux, supported) => HeartbeatKeeps(s, id, credential, linux, supported, r);
  }

  lemma StepKeeps(s: System, e: Event)
    requires Inv(s)
    ensures Inv(Next(s, e))
  {
    hide Inv, UninstallRequested, Deleted, StaleUninstallsExpired;
    if Enabled(s, e) {
      if MovesMessages(e) { MessagesKeep(s, e); hide Next; }
      else if Enrolls(e) { EnrollmentsKeep(s, e); hide Next; }
      else if ClosesTasks(e) { ClosingDb(s, e); ClosingKeeps(s, Next(s, e).db); hide Next; }
      else {
        var r := Next(s, e);
        match e
        case QueueUpdate(_, task, _, _) => InsertKeeps(s, task, r.db.tasks[task], r);
        case CreateTask(_, task, _, _) => InsertKeeps(s, task, r.db.tasks[task], r);
        case RequestUninstall(id, _, task, token) => RequestKeeps(s, id, task, token, r);
        case ExpireUninstalls(user) => ExpireKeeps(s, user, r);
        case DeleteServer(id, _) => DeleteKeeps(s, id, r);
      }
    }
  }

  /** The invariant holds after every run. */
  lemma {:induction false} RunKeeps(events: seq<Event>)
    ensures Inv(Run(events))
  {
    if events != [] {
      RunKeeps(events[..|events| - 1]);
      StepKeeps(Run(events[..|events| - 1]), events[|events| - 1]);
    }
  }
}
