/** The fleet as a distributed protocol: the database, the agents' task workers and the
messages between them, under every order of events and every pattern of lost messages.
*/
module FleetSystem {
  import opened Options
  import opened FleetRows

  /** What has become of one hand-out of a task to an agent.  `Granted` is an accepted report
      whose answer has not arrived yet; `Acting` comes after the answer. */
  datatype Stage = Received | Reporting(completed: bool) | Granted | Acting | Dropped

  /** One task in one heartbeat answer. */
  datatype Delivery = Delivery(task: Id, server: Id, kind: Kind, token: Token, stage: Stage)

  datatype Credential = Credential(server: Id, enrollment: Token)

  datatype Request = Request(server: Id, token: Token)

  /** The state of the system and, below the line of `deliveries`, the history of the run. */
  datatype System = System(
    db: Database,
    deliveries: seq<Delivery>,
    serverIds: set<Id>, taskIds: set<Id>, tokens: set<Token>,
    credentials: map<Token, Credential>,   // every credential that Enroll has issued
    accepted: set<Token>,                  // those that have sent an accepted heartbeat
    requests: map<Id, Request>,            // every uninstall task with its token
    newest: map<Id, Id>,                   // the newest uninstall task of a server
    reported: set<Id>,                     // tasks whose completed report has been committed
    acted: seq<Id>)                        // tasks whose action has run, in order

  datatype Event =
    | Advance(seconds: nat)
    | CreateServer(id: Id, user: User, enrollment: Token, lifetime: int)
    | Enroll(id: Id, token: Token, credential: Token, rollback: Token)
    | Rollback(id: Id, rollback: Token, requested: Option<Id>)
    | Heartbeat(id: Id, credential: Token, linux: bool, uninstallSupported: bool)
    | ConfirmVersion(id: Id)
    | QueueUpdate(id: Id, task: Id, configured: nat, target: nat)
    | ExpireUnclaimed(id: Id)
    | TimeOutOverdue(id: Id)
    | Claim(id: Id, picked: set<Id>)
    | SendReport(index: nat, completed: bool)
    | CommitReport(index: nat, credential: Token)
    | LoseMessage(index: nat)
    | Act(index: nat)
    | Confirm(index: nat, completed: bool)
    | RequestUninstall(id: Id, user: User, task: Id, token: Token)
    | ExpireUninstalls(user: User)
    | SetPolicy(id: Id, user: User, enabled: bool)
    | DeleteServer(id: Id, user: User)
    | CancelTask(id: Id, task: Id)
    | CancelUpdates(id: Id)
    | ExpireUpdates(id: Id)
    | CreateTask(id: Id, task: Id, kind: Kind, timeout: int)

  /** The event can happen in this state: fresh identifiers and tokens, and the row or message it needs. */
  predicate Enabled(s: System, e: Event) {
    match e
    case Advance(_) => true
    case CreateServer(id, _, enrollment, _) => id !in s.serverIds && enrollment !in s.tokens
    case Enroll(id, token, credential, rollback) =>
      Enrollable(s.db, id, token) && credential !in s.tokens && rollback !in s.tokens && credential != rollback
    case Rollback(id, rollback, requested) => CanRollBack(s.db, id, rollback, requested)
    case Heartbeat(id, credential, _, _) => Authenticates(s.db, id, credential)
    case QueueUpdate(id, task, configured, _) => MayQueueUpdate(s.db, id, configured) && task !in s.taskIds
    case Claim(id, picked) => Claimable(s.db, id, picked)
    case SendReport(i, _) => i < |s.deliveries| && s.deliveries[i].stage == Received
    case CommitReport(i, _) => i < |s.deliveries| && s.deliveries[i].stage.Reporting?
    case LoseMessage(i) => i < |s.deliveries| && s.deliveries[i].stage != Acting
    case Act(i) => i < |s.deliveries| && s.deliveries[i].stage == Granted
    case Confirm(i, _) =>
      && i < |s.deliveries| && s.deliveries[i].stage == Acting && s.deliveries[i].kind == AgentUninstall
      && Confirmable(s.db, s.deliveries[i].server, s.deliveries[i].task, s.deliveries[i].token)
    case RequestUninstall(id, user, task, token) =>
      UninstallCheck(s.db, id, user) == Accepted && task !in s.taskIds && token !in s.tokens
    case SetPolicy(id, user, _) => OwnedBy(s.db, id, user)
    case DeleteServer(id, user) => OwnedBy(s.db, id, user)
    case CreateTask(id, task, kind, _) =>
      && id in s.db.servers && task !in s.taskIds && kind != AgentUninstall
      && (kind == AgentUpdate ==> NoActiveUpdate(s.db, id))
    case _ => true
  }

  const NEW_SERVER := Server(0, None, None, 0, false, None, 0, false, Active, None, 0, None, false, false, false)

  function WithStage(s: System, i: nat, stage: Stage): System
    requires i < |s.deliveries|
  {
    s.(deliveries := s.deliveries[i := s.deliveries[i].(stage := stage)])
  }

  /** The answers to one heartbeat, in some order. */
  function HandOuts(db: Database, picked: seq<Id>): (r: seq<Delivery>)
    requires forall t :: t in picked ==> t in db.tasks
    ensures |r| == |picked|
    ensures forall i :: 0 <= i < |picked| ==>
                          var task := db.tasks[picked[i]];
                          r[i] == Delivery(picked[i], task.server, task.kind, task.token, Received)
  {
    seq(|picked|, i requires 0 <= i < |picked| =>
      var task := db.tasks[picked[i]];
      Delivery(picked[i], task.server, task.kind, task.token, Received))
  }

  ghost function Ordered(picked: set<Id>): (r: seq<Id>)
    ensures forall t :: t in picked <==> t in r
    ensures forall i, j :: 0 <= i < j < |r| ==> r[i] != r[j]
  {
    if picked == {} then []
    else
      assert (forall x :: x !in picked) ==> picked == {};
      var t :| t in picked;
      [t] + Ordered(picked - {t})
  }

  ghost function Next(s: System, e: Event): System {
    if !Enabled(s, e) then s
    else
      match e
      case Advance(seconds) => s.(db := s.db.(now := s.db.now + seconds))
      case CreateServer(id, user, enrollment, lifetime) =>
        var server := NEW_SERVER.(owner := user, enrollment := Some(Hash(enrollment)),
            enrollmentExpires := s.db.now + lifetime);
        s.(db := s.db.(servers := s.db.servers[id := server]), serverIds := s.serverIds + {id},
           tokens := s.tokens + {enrollment})
      case Enroll(id, token, credential, rollback) =>
        s.(db := Enrolled(s.db, id, credential, rollback), tokens := s.tokens + {credential, rollback},
           credentials := s.credentials[credential := Credential(id, token)])
      case Rollback(id, _, _) => s.(db := RolledBack(s.db, id))
      case Heartbeat(id, credential, linux, supported) =>
        s.(db := HeartbeatRecorded(s.db, id, linux, supported), accepted := s.accepted + {credential})
      case ConfirmVersion(id) => s.(db := UpdatesCompleted(s.db, id))
      case QueueUpdate(id, task, _, target) =>
        s.(db := TaskInserted(s.db, task, id, AgentUpdate, 300, true, target), taskIds := s.taskIds + {task})
      case ExpireUnclaimed(id) => s.(db := UnclaimedExpired(s.db, id))
      case TimeOutOverdue(id) => s.(db := OverdueTimedOut(s.db, id))
      case Claim(id, picked) =>
        s.(db := Claimed(s.db, picked), deliveries := s.deliveries + HandOuts(s.db, Ordered(picked)))
      case SendReport(i, completed) => WithStage(s, i, Reporting(completed))
      case CommitReport(i, credential) =>
        var t, completed := s.deliveries[i].task, s.deliveries[i].stage.completed;
        if !Reportable(s.db, t, credential) then WithStage(s, i, Dropped)
        else
          WithStage(s, i, if completed then Granted else Dropped).(
            db := Reported(s.db, t, completed), reported := if completed then s.reported + {t} else s.reported)
      case LoseMessage(i) => WithStage(s, i, Dropped)
      case Act(i) => WithStage(s, i, Acting).(acted := s.acted + [s.deliveries[i].task])
      case Confirm(i, completed) => s.(db := Confirmed(s.db, s.deliveries[i].server, s.deliveries[i].task, completed))
      case RequestUninstall(id, _, task, token) =>
        s.(db := UninstallRequested(s.db, id, task, token), taskIds := s.taskIds + {task}, tokens := s.tokens + {token},
           requests := s.requests[task := Request(id, token)], newest := s.newest[id := task])
      case ExpireUninstalls(user) => s.(db := StaleUninstallsExpired(s.db, user))
      case SetPolicy(id, _, enabled) => s.(db := PolicySet(s.db, id, enabled))
      case DeleteServer(id, _) => s.(db := Deleted(s.db, id))
      case CancelTask(id, task) => s.(db := TaskCancelled(s.db, id, task))
      case CancelUpdates(id) => s.(db := UpdatesCancelled(s.db, id))
      case ExpireUpdates(id) => s.(db := StaleUpdatesExpired(s.db, id))
      case CreateTask(id, task, kind, timeout) =>
        s.(db := TaskInserted(s.db, task, id, kind, timeout, false, 0), taskIds := s.taskIds + {task})
  }

  const INITIAL := System(Database(0, map[], map[]), [], {}, {}, {}, map[], {}, map[], map[], {}, [])

  /** The state after a sequence of events. */
  ghost function Run(events: seq<Event>): System {
    if events == [] then INITIAL else Next(Run(events[..|events| - 1]), events[|events| - 1])
  }

  // ----- the invariant -----

  /** Rows and history agree on identifiers and tokens. */
  ghost predicate Known(s: System) {
    && (forall id :: id in s.db.servers ==> id in s.serverIds)
    && (forall t :: t in s.db.tasks ==> t in s.taskIds && s.db.tasks[t].server in s.db.servers)
    && (forall c :: c in s.credentials ==> c in s.tokens && s.credentials[c].server in s.serverIds)
    && (forall t :: t in s.requests ==>
        t in s.taskIds && s.requests[t].token in s.tokens && s.requests[t].server in s.serverIds)
    && (forall id :: id in s.db.servers && s.db.servers[id].enrollment.Some? ==>
        s.db.servers[id].enrollment.value.preimage in s.tokens)
    && (forall id :: id in s.newest ==> s.newest[id] in s.requests && s.requests[s.newest[id]].server == id)
    && s.reported <= s.taskIds
  }

  /** An uninstall token belongs to one request only. */
  ghost predicate TokensDistinct(s: System) {
    forall t, u :: t in s.requests && u in s.requests && s.requests[t].token == s.requests[u].token ==> t == u
  }

  /** The uninstall rules of one server row. */
  ghost predicate UninstallRow(s: System, id: Id)
    requires id in s.db.servers
  {
    var server := s.db.servers[id];
    && (server.uninstall.Some? <==> server.deletion == Pending || server.deletion == Uninstalling)
    && (server.uninstall.Some? ==>
          id in s.newest && s.newest[id] in s.requests
          && server.uninstall == Some(Hash(s.requests[s.newest[id]].token)))
    && (server.uninstall.Some? ==> (server.deletion == Uninstalling <==> s.newest[id] in s.reported))
  }

  /** An active uninstall task is the newest of its server, which is pending. */
  ghost predicate UninstallTask(s: System, t: Id)
    requires t in s.db.tasks
  {
    var task := s.db.tasks[t];
    && (task.kind == AgentUninstall <==> t in s.requests)
    && (task.kind == AgentUninstall ==>
      && s.requests[t] == Request(task.server, task.token)
      && (task.IsActive() ==>
            && task.server in s.db.servers && s.db.servers[task.server].deletion == Pending
            && task.server in s.newest && s.newest[task.server] == t
            && t !in s.reported))
  }

  ghost predicate UninstallInvariant(s: System) {
    && (forall id :: id in s.db.servers ==> UninstallRow(s, id))
    && (forall t :: t in s.db.tasks ==> UninstallTask(s, t))
  }

  /** The enrollment rules of one server row. */
  ghost predicate EnrollmentRow(s: System, id: Id)
    requires id in s.db.servers
  {
    var server := s.db.servers[id];
    && (server.credential.Some? ==>
          && server.credential.value.preimage in s.credentials
          && var c := s.credentials[server.credential.value.preimage];
          && c.server == id && server.enrollment == Some(Hash(c.enrollment)))
    && (server.credential.Some? <==> server.enrollmentUsed)
    && (server.bootstrapCompleted <==> server.credential.Some? && server.credential.value.preimage in s.accepted)
    && (server.rollback.Some? ==> !server.bootstrapCompleted)
  }

  /** Credentials issued to the same server came from the same enrollment token, and the reverse. */
  ghost predicate CredentialsPaired(s: System) {
    && (forall c, d :: c in s.credentials && d in s.credentials ==>
                         (s.credentials[c].server == s.credentials[d].server
                          <==> s.credentials[c].enrollment == s.credentials[d].enrollment))
    && (forall c, id :: c in s.credentials && id in s.db.servers ==>
                          (s.credentials[c].server == id <==>
                           s.db.servers[id].enrollment == Some(Hash(s.credentials[c].enrollment))))
    && (forall c :: c in s.credentials ==> s.credentials[c].enrollment in s.tokens)
    && (forall id, j :: id in s.db.servers && j in s.db.servers && id != j ==>
        s.db.servers[id].enrollment != s.db.servers[j].enrollment)
    && (forall id :: id in s.db.servers ==> s.db.servers[id].enrollment.Some?)
  }

  /** An accepted credential is the one its server still holds, for as long as the server exists. */
  ghost predicate AcceptedInvariant(s: System) {
    && (forall c :: c in s.accepted ==> c in s.credentials)
    && (forall c, d :: c in s.accepted && d in s.accepted && s.credentials[c].server == s.credentials[d].server ==>
        c == d)
    && (forall c :: c in s.accepted && s.credentials[c].server in s.db.servers ==>
                      s.db.servers[s.credentials[c].server].credential == Some(Hash(c)))
  }

  ghost predicate EnrollmentInvariant(s: System) {
    && (forall id :: id in s.db.servers ==> EnrollmentRow(s, id))
    && CredentialsPaired(s) && AcceptedInvariant(s)
  }

  /** A hand-out matches its task, which no longer waits. */
  ghost predicate DeliveryRow(s: System, d: Delivery) {
    && d.task in s.taskIds
    && (d.task in s.db.tasks ==>
          var task := s.db.tasks[d.task];
          task.status != Queued && task.server == d.server && task.kind == d.kind && task.token == d.token)
    && (d.stage == Granted || d.stage == Acting ==> d.task in s.reported)
    && (d.kind == AgentUninstall ==> d.task in s.requests && s.requests[d.task] == Request(d.server, d.token))
  }

  /** Hand-outs: at most one for each task, and none while it waits. */
  ghost predicate DeliveryInvariant(s: System) {
    && (forall i :: 0 <= i < |s.deliveries| ==> DeliveryRow(s, s.deliveries[i]))
    && (forall i, j :: 0 <= i < j < |s.deliveries| ==> s.deliveries[i].task != s.deliveries[j].task)
  }

  ghost predicate ActingFor(deliveries: seq<Delivery>, i: int, t: Id) {
    0 <= i < |deliveries| && deliveries[i].task == t && deliveries[i].stage == Acting
  }

  ghost predicate HasActed(deliveries: seq<Delivery>, t: Id) {
    exists i :: ActingFor(deliveries, i, t)
  }

  /** An action has run exactly once for each hand-out that is acting. */
  ghost predicate ActionInvariant(s: System) {
    && (forall k :: 0 <= k < |s.acted| ==> HasActed(s.deliveries, s.acted[k]))
    && (forall k, l :: 0 <= k < l < |s.acted| ==> s.acted[k] != s.acted[l])
  }

  ghost predicate Inv(s: System) {
    Known(s) && TokensDistinct(s) && UninstallInvariant(s) && EnrollmentInvariant(s) && DeliveryInvariant(s)
        && ActionInvariant(s)
  }
}
