/** The `servers` and `server_tasks` rows and the statements that change them, one function for
each SQL statement or transaction.

A hash is a value that determines its preimage; `now` is the database clock.
*/
module FleetRows {
  import opened Options

  type Id = nat
  type Token = nat
  type User = nat

  datatype Hash = Hash(preimage: Token)

  datatype DeletionStatus = Active | Pending | Uninstalling | Failed

  datatype Server = Server(
    owner: User,
    credential: Option<Hash>,
    enrollment: Option<Hash>, enrollmentExpires: int, enrollmentUsed: bool,
    rollback: Option<Hash>, rollbackExpires: int, bootstrapCompleted: bool,
    deletion: DeletionStatus, uninstall: Option<Hash>, uninstallExpires: int,
    lastSeen: Option<int>, linux: bool, uninstallSupported: bool, autoUpdate: bool)

  datatype Kind = AgentUpdate | AgentUninstall | AgentRestart | VpsReboot | Ordinary

  datatype Status = Queued | Processing | Completed | TaskFailed | Expired | TimedOut | Cancelled

  /** `token` is the confirmation token inside an uninstall payload. */
  datatype Task = Task(
    server: Id, kind: Kind, status: Status, created: int, started: int, expires: int, timeout: int,
    automatic: bool, target: nat, token: Token)
  {
    predicate IsActive() { status == Queued || status == Processing }

    predicate Overdue(now: int) { status == Processing && started + timeout <= now }

    predicate Unclaimed(now: int) { status == Queued && expires <= now }

    // ----- row changes, each the SET and WHERE of one statement -----

    function ExpiredIfUnclaimed(id: Id, now: int): Task {
      if server == id && Unclaimed(now) then this.(status := Expired) else this
    }

    function TimedOutIfOverdue(id: Id, now: int): Task {
      if server == id && Overdue(now) then this.(status := TimedOut) else this
    }

    function CompletedByVersion(id: Id): Task {
      if server == id && kind == AgentUpdate && status == Processing then this.(status := Completed) else this
    }

    function ExpiredByUninstall(id: Id): Task {
      if server == id && status == Queued then this.(status := Expired) else this
    }

    function ExpiredByPolicy(id: Id): Task {
      if server == id && kind == AgentUpdate && status == Queued && automatic then this.(status := Expired) else this
    }

    function CancelledUpdate(id: Id): Task {
      if server == id && kind == AgentUpdate && IsActive() then this.(status := Cancelled) else this
    }

    function StaleUpdate(id: Id, now: int): Task {
      if server != id || kind != AgentUpdate then this
      else if status == Queued && (expires <= now || created <= now - 15 * 60) then this.(status := Expired)
      else if Overdue(now) then this.(status := TimedOut)
      else this
    }

    predicate StaleUninstall(now: int) {
      kind == AgentUninstall && (Unclaimed(now) || Overdue(now))
    }

    function StaleUninstallClosed(now: int): Task {
      if !StaleUninstall(now) then this
      else if status == Queued then this.(status := Expired)
      else this.(status := TimedOut)
    }

    function Claimed(now: int): Task { this.(status := Processing, started := now) }

    /** An update stays in processing until the new version sends a heartbeat. */
    function Reported(completed: bool): Task {
      if completed then (if kind == AgentUpdate then this else this.(status := Completed))
      else this.(status := TaskFailed)
    }
  }

  datatype Database = Database(now: int, servers: map<Id, Server>, tasks: map<Id, Task>)

  // ----- enrollment -----

  /** The row that `Enroll` locks. */
  predicate Enrollable(db: Database, id: Id, token: Token) {
    && id in db.servers
    && var s := db.servers[id];
    && s.enrollment == Some(Hash(token)) && !s.enrollmentUsed
    && s.enrollmentExpires > db.now && s.deletion == Active
  }

  function Enrolled(db: Database, id: Id, credential: Token, rollback: Token): Database
    requires id in db.servers
  {
    db.(servers := db.servers[id := db.servers[id].(
      credential := Some(Hash(credential)), rollback := Some(Hash(rollback)), rollbackExpires := db.now + 5 * 60,
      bootstrapCompleted := false, enrollmentUsed := true)])
  }

  /** The row that `EnrollRollback` locks; the server id in the request is optional. */
  predicate CanRollBack(db: Database, id: Id, rollback: Token, requested: Option<Id>) {
    && id in db.servers
    && var s := db.servers[id];
    && s.rollback == Some(Hash(rollback)) && s.rollbackExpires > db.now && !s.bootstrapCompleted
    && (requested == None || requested == Some(id)) && s.deletion == Active
  }

  function RolledBack(db: Database, id: Id): Database
    requires id in db.servers
  {
    db.(servers := db.servers[id := db.servers[id].(credential := None, rollback := None, enrollmentUsed := false)])
  }

  /** The row that a heartbeat or a report authenticates against. */
  predicate Authenticates(db: Database, id: Id, credential: Token) {
    id in db.servers && db.servers[id].credential == Some(Hash(credential))
  }

  function HeartbeatRecorded(db: Database, id: Id, linux: bool, uninstallSupported: bool): Database
    requires id in db.servers
  {
    db.(servers := db.servers[id := db.servers[id].(
      bootstrapCompleted := true, rollback := None, lastSeen := Some(db.now),
      linux := linux, uninstallSupported := uninstallSupported)])
  }

  // ----- tasks -----

  /** The rows that one heartbeat may claim: at most five, all waiting and in time. */
  predicate Claimable(db: Database, id: Id, picked: set<Id>) {
    && |picked| <= 5
    && forall t :: t in picked ==>
                     t in db.tasks && db.tasks[t].server == id && db.tasks[t].status == Queued
                         && db.tasks[t].expires > db.now
  }

  function Claimed(db: Database, picked: set<Id>): Database {
    db.(tasks := map t | t in db.tasks :: if t in picked then db.tasks[t].Claimed(db.now) else db.tasks[t])
  }

  /** The row that `ReportTaskResult` updates. */
  predicate Reportable(db: Database, t: Id, credential: Token) {
    t in db.tasks && db.tasks[t].status == Processing && Authenticates(db, db.tasks[t].server, credential)
  }

  function Reported(db: Database, t: Id, completed: bool): Database
    requires t in db.tasks && db.tasks[t].server in db.servers
  {
    var task := db.tasks[t];
    var s := db.servers[task.server];
    var tasks := db.tasks[t := task.Reported(completed)];
    if task.kind != AgentUninstall then db.(tasks := tasks)
    else if completed then
      db.(tasks := tasks, servers := db.servers[task.server := s.(deletion := Uninstalling)])
    else
      db.(tasks := tasks, servers := db.servers[task.server := s.(deletion := Failed, uninstall := None)])
  }

  // ----- uninstall -----

  datatype UninstallAnswer = Accepted | NotFound | Offline | UnsupportedOS | Unsupported | InProgress

  function UninstallCheck(db: Database, id: Id, user: User): UninstallAnswer {
    if id !in db.servers || db.servers[id].owner != user then NotFound
    else
      var s := db.servers[id];
      if s.lastSeen == None || s.lastSeen.value < db.now - 60 then Offline
      else if !s.linux then UnsupportedOS
      else if !s.uninstallSupported then Unsupported
      else if s.deletion == Pending || s.deletion == Uninstalling then InProgress
      else Accepted
  }

  function UninstallRequested(db: Database, id: Id, t: Id, token: Token): Database
    requires id in db.servers
  {
    var server := db.servers[id].(deletion := Pending, uninstall := Some(Hash(token)),
        uninstallExpires := db.now + 15 * 60);
    var expired := map u | u in db.tasks :: db.tasks[u].ExpiredByUninstall(id);
    var task := Task(id, AgentUninstall, Queued, db.now, 0, db.now + 15 * 60, 300, false, 0, token);
    db.(servers := db.servers[id := server], tasks := expired[t := task])
  }

  /** The join that `ConfirmUninstall` requires. */
  predicate Confirmable(db: Database, id: Id, t: Id, token: Token) {
    && id in db.servers && t in db.tasks
    && db.tasks[t].server == id && db.tasks[t].kind == AgentUninstall
    && var s := db.servers[id];
    && s.uninstall == Some(Hash(token)) && s.uninstallExpires > db.now
    && (s.deletion == Pending || s.deletion == Uninstalling)
  }

  function Confirmed(db: Database, id: Id, t: Id, completed: bool): Database
    requires id in db.servers && t in db.tasks
  {
    if completed then Deleted(db, id)
    else db.(servers := db.servers[id := db.servers[id].(deletion := Failed, uninstall := None)],
             tasks := db.tasks[t := db.tasks[t].(status := TaskFailed)])
  }

  /** Removing a server removes its tasks. */
  function Deleted(db: Database, id: Id): Database {
    db.(servers := db.servers - {id}, tasks := map t | t in db.tasks && db.tasks[t].server != id :: db.tasks[t])
  }

  predicate OwnedBy(db: Database, id: Id, user: User) {
    id in db.servers && db.servers[id].owner == user
  }

  /** Some uninstall task of the server has just been closed as stale. */
  predicate LostUninstall(db: Database, id: Id) {
    exists t :: t in db.tasks && db.tasks[t].server == id && db.tasks[t].StaleUninstall(db.now)
  }

  function StaleUninstallsExpired(db: Database, user: User): Database {
    var tasks := map t | t in db.tasks ::
                     if OwnedBy(db, db.tasks[t].server, user) then db.tasks[t].StaleUninstallClosed(db.now)
                         else db.tasks[t];
    var servers := map id | id in db.servers ::
                     var s := db.servers[id];
                     if s.owner == user && (LostUninstall(db, id)
                         || (s.deletion == Uninstalling && s.uninstallExpires <= db.now))
                     then s.(deletion := Failed, uninstall := None) else s;
    db.(servers := servers, tasks := tasks)
  }

  // ----- the remaining task statements -----

  function UnclaimedExpired(db: Database, id: Id): Database {
    db.(tasks := map t | t in db.tasks :: db.tasks[t].ExpiredIfUnclaimed(id, db.now))
  }

  function OverdueTimedOut(db: Database, id: Id): Database {
    db.(tasks := map t | t in db.tasks :: db.tasks[t].TimedOutIfOverdue(id, db.now))
  }

  function UpdatesCompleted(db: Database, id: Id): Database {
    db.(tasks := map t | t in db.tasks :: db.tasks[t].CompletedByVersion(id))
  }

  function StaleUpdatesExpired(db: Database, id: Id): Database {
    db.(tasks := map t | t in db.tasks :: db.tasks[t].StaleUpdate(id, db.now))
  }

  function UpdatesCancelled(db: Database, id: Id): Database {
    db.(tasks := map t | t in db.tasks :: db.tasks[t].CancelledUpdate(id))
  }

  function TaskCancelled(db: Database, id: Id, t: Id): Database {
    if t in db.tasks && db.tasks[t].server == id && db.tasks[t].IsActive() then
      db.(tasks := db.tasks[t := db.tasks[t].(status := Cancelled)])
    else db
  }

  function PolicySet(db: Database, id: Id, enabled: bool): Database
    requires id in db.servers
  {
    db.(servers := db.servers[id := db.servers[id].(autoUpdate := enabled)],
        tasks := if enabled then db.tasks else map t | t in db.tasks :: db.tasks[t].ExpiredByPolicy(id))
  }

  /** The unique index on active updates. */
  predicate NoActiveUpdate(db: Database, id: Id) {
    forall t :: t in db.tasks && db.tasks[t].server == id && db.tasks[t].kind == AgentUpdate ==>
        !db.tasks[t].IsActive()
  }

  /** No update of this server is waiting or running, nor was the configured release queued within
      the last hour. */
  predicate MayQueueUpdate(db: Database, id: Id, configured: nat) {
    && id in db.servers && db.servers[id].autoUpdate && db.servers[id].deletion == Active
    && NoActiveUpdate(db, id)
    && forall t :: t in db.tasks && db.tasks[t].server == id && db.tasks[t].kind == AgentUpdate
                   && db.tasks[t].target == configured ==>
         db.tasks[t].created < db.now - 60 * 60
  }

  function TaskInserted(db: Database, t: Id, id: Id, kind: Kind, timeout: int, automatic: bool, target: nat): Database {
    db.(tasks := db.tasks[t := Task(id, kind, Queued, db.now, 0, db.now + 24 * 60 * 60, timeout, automatic, target, 0)])
  }
}
