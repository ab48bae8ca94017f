/** The handlers of the backend as they run against the two tables, statement by statement, and
the task worker of the agent.  Every handler is one or two events of the fleet's run, so what is
proved of runs holds of the tables.
*/
module FleetStore {
  import opened Options
  import opened FleetRows
  import F = FleetSystem
  import P = FleetProofs
  import T = FleetTheorems

  class Store {
    var now: int
    var servers: map<Id, Server>
    var tasks: map<Id, Task>
    ghost var events: seq<F.Event>

    function View(): Database
      reads this
    {
      Database(now, servers, tasks)
    }

    ghost function Past(): F.System reads this { F.Run(events) }

    ghost predicate Valid() reads this { Past().db == View() }

    constructor ()
      ensures Valid() && events == [] && View() == Database(0, map[], map[])
    {
      now, servers, tasks := 0, map[], map[];
      events := [];
    }

    // ----- what holds of the tables between the handlers -----

    lemma Uninstalls()
      requires Valid()
      ensures UninstallsSound(View())
    {
      SoundAfter(events);
      hide F.Run, UninstallsSound;
    }

    static ghost predicate BothHold(servers: map<Id, Server>, id: Id, j: Id, token: Token) {
      && id in servers && j in servers
      && ((servers[id].enrollment == Some(Hash(token)) && servers[j].enrollment == Some(Hash(token)))
          || (servers[id].credential == Some(Hash(token)) && servers[j].credential == Some(Hash(token))))
    }

    /** A row is found by its credential or its enrollment token. */
    lemma ServerKeys(token: Token)
      requires Valid()
      ensures forall id, j :: BothHold(servers, id, j, token) ==> id == j
    {
      P.RunKeeps(events);
      hide F.Run, F.UninstallInvariant, F.DeliveryInvariant, F.ActionInvariant, F.TokensDistinct, F.Known;
    }

    /** Identifiers are known to the run, and a task has its server. */
    lemma Keys()
      requires Valid()
      ensures forall t :: t in tasks ==> tasks[t].server in servers
      ensures forall t :: t in tasks ==> t in Past().taskIds
      ensures forall id :: id in servers ==> id in Past().serverIds
    {
      P.RunKeeps(events);
      hide F.Run, F.UninstallInvariant, F.DeliveryInvariant, F.ActionInvariant, F.TokensDistinct;
    }

    /** What happens elsewhere: messages are sent, lost and acted on. */
    ghost method Elsewhere(e: F.Event)
      requires Valid() && F.Run(events + [e]).db == View()
      modifies this`events
      ensures Valid() && events == old(events) + [e]
    {
      events := events + [e];
    }

    method Advance(seconds: nat)
      requires Valid()
      modifies this`now, this`events
      ensures Valid() && events == old(events) + [F.Advance(seconds)] && now == old(now) + seconds
    {
      T.RunSplit(events, F.Advance(seconds));
      hide F.Run;
      now := now + seconds;
      events := events + [F.Advance(seconds)];
    }

    /** A new server, to be enrolled with this token. */
    method CreateServer(id: Id, user: User, enrollment: Token, lifetime: int)
      requires Valid() && id !in Past().serverIds && enrollment !in Past().tokens
      modifies this`servers, this`events
      ensures Valid() && events == old(events) + [F.CreateServer(id, user, enrollment, lifetime)]
      ensures id !in old(servers) && servers == old(servers)[id := Server(user, None, Some(Hash(enrollment)),
          now + lifetime, false, None, 0, false, Active, None, 0, None, false, false, false)]
      ensures forall token :: Enrollable(View(), id, token) <==> token == enrollment && lifetime > 0
    {
      hide F.Run;
      Keys();
      T.RunSplit(events, F.CreateServer(id, user, enrollment, lifetime));
      servers := servers[id :=
          F.NEW_SERVER.(owner := user, enrollment := Some(Hash(enrollment)), enrollmentExpires := now + lifetime)];
      events := events + [F.CreateServer(id, user, enrollment, lifetime)];
    }

    /** An update of the server waits or is being worked on. */
    static ghost predicate Updating(tasks: map<Id, Task>, id: Id) {
      exists t ::
        && t in tasks && tasks[t].server == id && tasks[t].kind == AgentUpdate
        && (tasks[t].status == Queued || tasks[t].status == Processing)
    }

    /** A task for an agent; uninstalls have their own request, and a second update is not inserted. */
    method CreateTask(id: Id, t: Id, kind: Kind, timeout: int) returns (inserted: bool)
      requires Valid() && id in servers && t !in Past().taskIds && kind != AgentUninstall
      modifies this`tasks, this`events
      ensures Valid() && events == old(events) + [F.CreateTask(id, t, kind, timeout)]
      ensures inserted <==> !(kind == AgentUpdate && Updating(old(tasks), id))
      ensures t !in old(tasks) && tasks == if !inserted then old(tasks)
              else old(tasks)[t := Task(id, kind, Queued, now, 0, now + 24 * 60 * 60, timeout, false, 0, 0)]
    {
      hide F.Run;
      Keys();
      CreatedDb(events, id, t, kind, timeout);
      NoneUpdating(View(), id);
      hide NoActiveUpdate, Updating;
      events := events + [F.CreateTask(id, t, kind, timeout)];
      if kind == AgentUpdate && !NoActiveUpdate(View(), id) { return false; }
      tasks := tasks[t := Task(id, kind, Queued, now, 0, now + 24 * 60 * 60, timeout, false, 0, 0)];
      return true;
    }

    // ----- updates -----

    /** `expireStaleAgentUpdateTasks`: updates that have waited for a quarter of an hour or past their
        deadline expire, those that have run too long time out, and nothing else changes. */
    method ExpireStaleUpdates(id: Id)
      requires Valid()
      modifies this`tasks, this`events
      ensures Valid() && events == old(events) + [F.ExpireUpdates(id)] && tasks.Keys == old(tasks).Keys
      ensures forall t :: t in tasks ==>
              tasks[t] == if old(tasks)[t].server != id || old(tasks)[t].kind != AgentUpdate then old(tasks)[t]
                  else if old(tasks)[t].status == Queued
                      && (old(tasks)[t].expires <= now || old(tasks)[t].created + 15 * 60 <= now)
                      then old(tasks)[t].(status := Expired)
                  else if old(tasks)[t].status == Processing && old(tasks)[t].started + old(tasks)[t].timeout <= now
                      then old(tasks)[t].(status := TimedOut)
                  else old(tasks)[t]
    {
      T.RunSplit(events, F.ExpireUpdates(id));
      hide F.Run;
      events := events + [F.ExpireUpdates(id)];
      tasks := map t | t in tasks :: tasks[t].StaleUpdate(id, now);
    }

    /** A heartbeat with the desired version completes the update that is being worked on. */
    method ConfirmVersion(id: Id)
      requires Valid()
      modifies this`tasks, this`events
      ensures Valid() && events == old(events) + [F.ConfirmVersion(id)] && tasks.Keys == old(tasks).Keys
      ensures forall t :: t in tasks ==>
              tasks[t] == if old(tasks)[t].server == id && old(tasks)[t].kind == AgentUpdate
                      && old(tasks)[t].status == Processing then old(tasks)[t].(status := Completed)
                  else old(tasks)[t]
    {
      T.RunSplit(events, F.ConfirmVersion(id));
      hide F.Run;
      events := events + [F.ConfirmVersion(id)];
      tasks := map t | t in tasks :: tasks[t].CompletedByVersion(id);
    }

    /** The automatic update of a heartbeat to version `target`: queued exactly if the server's policy
        allows it, it is not being removed, no update of it is under way, and none to the configured
        version was created within the last hour. */
    method QueueUpdate(id: Id, t: Id, configured: nat, target: nat) returns (queued: bool)
      requires Valid() && t !in Past().taskIds
      modifies this`tasks, this`events
      ensures Valid()
              && events == (if queued then old(events) + [F.QueueUpdate(id, t, configured, target)] else old(events))
      ensures queued <==>
                && id in servers && servers[id].autoUpdate && servers[id].deletion == Active
                && !Updating(old(tasks), id)
                && forall u :: u in old(tasks) && old(tasks)[u].server == id && old(tasks)[u].kind == AgentUpdate ==>
                     old(tasks)[u].target != configured || old(tasks)[u].created < now - 60 * 60
      ensures t !in old(tasks) && tasks == if !queued then old(tasks)
              else old(tasks)[t := Task(id, AgentUpdate, Queued, now, 0, now + 24 * 60 * 60, 300, true, target, 0)]
    {
      hide F.Run;
      Keys();
      T.RunSplit(events, F.QueueUpdate(id, t, configured, target));
      if !MayQueueUpdate(View(), id, configured) { return false; }
      events := events + [F.QueueUpdate(id, t, configured, target)];
      tasks := tasks[t := Task(id, AgentUpdate, Queued, now, 0, now + 24 * 60 * 60, 300, true, target, 0)];
      return true;
    }

    // ----- enrollment (agent_api) -----

    /** `Enroll`: refused, changing nothing, exactly when no row accepts the token. */
    method Enroll(token: Token, credential: Token, rollback: Token) returns (r: Option<Id>)
      requires Valid() && credential !in Past().tokens && rollback !in Past().tokens && credential != rollback
      modifies this
      ensures Valid() && events
              == (if r.Some? then old(events) + [F.Enroll(r.value, token, credential, rollback)] else old(events))
      ensures forall id :: r == Some(id) <==>
                && id in old(servers) && old(servers)[id].enrollment == Some(Hash(token))
                && !old(servers)[id].enrollmentUsed && now < old(servers)[id].enrollmentExpires
                && old(servers)[id].deletion == Active
      ensures now == old(now) && tasks == old(tasks)
      ensures r.Some? ==> servers == old(servers)[r.value := old(servers)[r.value].(
          credential := Some(Hash(credential)), rollback := Some(Hash(rollback)), rollbackExpires := now + 5 * 60,
          bootstrapCompleted := false, enrollmentUsed := true)]
      ensures r.None? ==> servers == old(servers)
    {
      hide F.Run;
      r := FindEnrollment(token);
      if r.Some? {
        var id := r.value;
        EnrolledDb(events, id, token, credential, rollback);
        var row := servers[id];
        row := row.(credential := Some(Hash(credential)));
        row := row.(rollback := Some(Hash(rollback)), rollbackExpires := now + 5 * 60);
        row := row.(bootstrapCompleted := false, enrollmentUsed := true);
        servers := servers[id := row];
        events := events + [F.Enroll(id, token, credential, rollback)];
      }
    }

    /** The row that the statement locks. */
    method FindEnrollment(token: Token) returns (r: Option<Id>)
      requires Valid()
      ensures forall id :: r == Some(id) <==>
                && id in servers && servers[id].enrollment == Some(Hash(token))
                && !servers[id].enrollmentUsed && now < servers[id].enrollmentExpires
                && servers[id].deletion == Active
    {
      ServerKeys(token);
      hide F.Run;
      if id :| id in servers && Enrollable(View(), id, token) {
        forall j | j in servers && servers[j].enrollment == Some(Hash(token)) ensures j == id {
          assert BothHold(servers, id, j, token);
        }
        return Some(id);
      }
      return None;
    }

    /** `EnrollRollback`. */
    method EnrollRollback(rollback: Token, requested: Option<Id>) returns (r: Option<Id>)
      requires Valid()
      modifies this
      ensures Valid() && events
              == (if r.Some? then old(events) + [F.Rollback(r.value, rollback, requested)] else old(events))
      ensures r.Some? <==>
              exists id :: id in old(servers) && MayRollBack(old(servers)[id], id, rollback, requested, now)
      ensures r.Some? ==>
                && r.value in old(servers) && MayRollBack(old(servers)[r.value], r.value, rollback, requested, now)
                && servers == old(servers)[r.value := old(servers)[r.value].(
                    credential := None, rollback := None, enrollmentUsed := false)]
      ensures now == old(now) && tasks == old(tasks) && (r.None? ==> servers == old(servers))
    {
      if id :| id in servers && CanRollBack(View(), id, rollback, requested) {
        T.RunSplit(events, F.Rollback(id, rollback, requested));
        hide F.Run;
        servers := servers[id := servers[id].(credential := None, enrollmentUsed := false, rollback := None)];
        events := events + [F.Rollback(id, rollback, requested)];
        return Some(id);
      }
      return None;
    }

    /** The server holds this rollback token, which has not expired, its agent has not sent a heartbeat
        yet, and it is the one asked for if one is. */
    static ghost predicate MayRollBack(server: Server, id: Id, rollback: Token, requested: Option<Id>, now: int) {
      && server.rollback == Some(Hash(rollback)) && now < server.rollbackExpires && !server.bootstrapCompleted
      && server.deletion == Active && (requested.Some? ==> requested.value == id)
    }

    // ----- heartbeat (agent_api) -----

    /** The authenticating update at the start of `Heartbeat`. */
    method RecordHeartbeat(credential: Token, linux: bool, supported: bool) returns (r: Option<Id>)
      requires Valid()
      modifies this
      ensures Valid() && events
              == (if r.Some? then old(events) + [F.Heartbeat(r.value, credential, linux, supported)] else old(events))
      ensures forall id :: r == Some(id) <==>
              id in old(servers) && old(servers)[id].credential == Some(Hash(credential))
      ensures now == old(now) && tasks == old(tasks)
      ensures r.Some? ==> servers == old(servers)[r.value := old(servers)[r.value].(
          bootstrapCompleted := true, rollback := None, lastSeen := Some(now), linux := linux,
          uninstallSupported := supported)]
      ensures r.None? ==> servers == old(servers)
    {
      ServerKeys(credential);
      if id :| id in servers && Authenticates(View(), id, credential) {
        T.RunSplit(events, F.Heartbeat(id, credential, linux, supported));
        hide F.Run;
        forall j | j in servers && servers[j].credential == Some(Hash(credential)) ensures j == id {
          assert BothHold(servers, id, j, credential);
        }
        var row := servers[id].(bootstrapCompleted := true, rollback := None);
        row := row.(lastSeen := Some(now), linux := linux, uninstallSupported := supported);
        servers := servers[id := row];
        events := events + [F.Heartbeat(id, credential, linux, supported)];
        return Some(id);
      }
      return None;
    }

    /** The two clean-up statements of `Heartbeat`: afterwards no task of the server is late, and only
        tasks that were late have been closed. */
    method ExpireTasks(id: Id)
      requires Valid()
      modifies this`tasks, this`events
      ensures Valid() && events == old(events) + [F.ExpireUnclaimed(id), F.TimeOutOverdue(id)]
      ensures LateTasksClosed(old(View()), View(), id)
      ensures LateUninstall(old(View()), id) ==> T.Stranded(Past(), id)
    {
      hide F.Run, OverdueTimedOut, UnclaimedExpired, LateTasksClosed, LateUninstall, UninstallsSound;
      TwoEvents(events, F.ExpireUnclaimed(id), F.TimeOutOverdue(id));
      Uninstalls();
      ghost var db := View();
      ExpireLate(id);
      events := events + [F.ExpireUnclaimed(id), F.TimeOutOverdue(id)];
      hide F.Next;
      LateClosed(db, id);
      if LateUninstall(db, id) { LateStrands(Past(), db, id); }
      hide T.Stranded;
    }

    method ExpireLate(id: Id)
      modifies this`tasks
      ensures View() == OverdueTimedOut(UnclaimedExpired(old(View()), id), id)
    {
      tasks := map t | t in tasks :: tasks[t].ExpiredIfUnclaimed(id, now);
      tasks := map t | t in tasks :: tasks[t].TimedOutIfOverdue(id, now);
    }

    /** `a` is dispatched before `b`: uninstalls first, then the older task. */
    static predicate Before(a: Task, b: Task) {
      if (a.kind == AgentUninstall) != (b.kind == AgentUninstall) then a.kind == AgentUninstall
      else a.created <= b.created
    }

    /** The task of the server is there to be claimed. */
    static ghost predicate Queues(tasks: map<Id, Task>, id: Id, t: Id, now: int) {
      t in tasks && tasks[t].server == id && tasks[t].status == Queued && now < tasks[t].expires
    }

    /** The claiming statement: up to five waiting tasks in dispatch order, leaving one behind
        only when five are taken. */
    method ClaimTasks(id: Id) returns (picked: set<Id>)
      requires Valid()
      modifies this`tasks, this`events
      ensures Valid() && events == old(events) + [F.Claim(id, picked)]
      ensures |picked| <= 5 && picked <= old(tasks).Keys && now == old(now)
      ensures forall t :: t in picked ==> Queues(old(tasks), id, t, now)
      ensures |picked| < 5 ==> forall t :: Queues(old(tasks), id, t, now) ==> t in picked
      ensures forall p, t :: p in picked && Queues(old(tasks), id, t, now) && t !in picked ==>
                && (old(tasks)[t].kind == AgentUninstall ==> old(tasks)[p].kind == AgentUninstall)
                && ((old(tasks)[t].kind == AgentUninstall <==> old(tasks)[p].kind == AgentUninstall) ==>
                    old(tasks)[p].created <= old(tasks)[t].created)
      ensures tasks.Keys == old(tasks).Keys && forall t :: t in tasks ==>
              tasks[t] == if t in picked then old(tasks)[t].(status := Processing, started := now) else old(tasks)[t]
      ensures forall t, later :: t in picked && now <= later ==>
              (tasks[t].Overdue(later) <==> now + old(tasks)[t].timeout <= later)
    {
      picked := FirstFive(id);
      T.RunSplit(events, F.Claim(id, picked));
      hide F.Run, F.HandOuts, F.Ordered;
      tasks := map t | t in tasks :: if t in picked then tasks[t].Claimed(now) else tasks[t];
      events := events + [F.Claim(id, picked)];
    }

    method FirstFive(id: Id) returns (picked: set<Id>)
      ensures |picked| <= 5 && picked <= tasks.Keys && forall t :: t in picked ==> Queues(tasks, id, t, now)
      ensures forall p, t :: p in picked && Queues(tasks, id, t, now) && t !in picked ==> Before(tasks[p], tasks[t])
      ensures |picked| < 5 ==> forall t :: Queues(tasks, id, t, now) ==> t in picked
    {
      picked := {};
      var left := set t | t in tasks && tasks[t].server == id && tasks[t].status == Queued && now < tasks[t].expires;
      while |picked| < 5 && left != {}
        invariant |picked| <= 5 && picked !! left
        invariant forall t :: Queues(tasks, id, t, now) <==> t in picked || t in left
        invariant forall p, t :: p in picked && t in left ==> Before(tasks[p], tasks[t])
        decreases |left|
      {
        assert forall t :: t in left ==> Queues(tasks, id, t, now);
        var first := First(left);
        picked, left := picked + {first}, left - {first};
      }
    }

    /** The task of a set that is dispatched first. */
    method First(candidates: set<Id>) returns (first: Id)
      requires candidates != {} && forall t :: t in candidates ==> t in tasks
      ensures first in candidates && forall t :: t in candidates ==> Before(tasks[first], tasks[t])
    {
      assert (forall t :: t !in candidates) ==> candidates == {};
      first :| first in candidates;
      var left := candidates - {first};
      while left != {}
        invariant left <= candidates && first in candidates
        invariant forall t :: t in candidates && t !in left ==> Before(tasks[first], tasks[t])
        decreases |left|
      {
        assert (forall t :: t !in left) ==> left == {};
        var next :| next in left;
        if !Before(tasks[first], tasks[next]) { first := next; }
        left := left - {next};
      }
    }

    // ----- results (agent_api) -----

    /** Message `message` of the run reports this result for this task. */
    ghost predicate Carries(message: nat, t: Id, completed: bool)
      reads this
    {
      message < |Past().deliveries| && Past().deliveries[message].task == t
          && Past().deliveries[message].stage == F.Reporting(completed)
    }

    /** `ReportTaskResult`: accepted exactly for a task in processing, from the holder of its server's
        credential.  Of an uninstall the server was waiting; it is then uninstalling with its token
        kept, or has failed and has no token and no active uninstall task. */
    method ReportTaskResult(t: Id, credential: Token, completed: bool, ghost message: nat) returns (ok: bool)
      requires Valid()
      modifies this
      ensures events == old(events) + [F.CommitReport(message, credential)]
      ensures old(Carries(message, t, completed)) ==> Valid()
      ensures ok <==> t in old(tasks) && old(tasks)[t].status == Processing && old(tasks)[t].server in old(servers)
                      && old(servers)[old(tasks)[t].server].credential == Some(Hash(credential))
      ensures !ok ==> View() == old(View())
      ensures ok ==> ReportStored(old(View()), View(), t, completed)
    {
      hide F.Run, Reported, ReportStored, UninstallsSound;
      Keys();
      Uninstalls();
      if Carries(message, t, completed) { CommittedDb(events, message, credential, completed); }
      ghost var db := View();
      events := events + [F.CommitReport(message, credential)];
      if !(t in tasks && tasks[t].status == Processing && Authenticates(View(), tasks[t].server, credential)) {
        return false;
      }
      StoreResult(t, completed);
      ReportMeans(db, t, completed);
      return true;
    }

    /** The statements of an accepted report. */
    method StoreResult(t: Id, completed: bool)
      requires t in tasks && tasks[t].server in servers && tasks[t].status == Processing
      modifies this`servers, this`tasks
      ensures View() == Reported(old(View()), t, completed)
    {
      var id, kind := tasks[t].server, tasks[t].kind;
      var status :=
          if kind == AgentUpdate && completed then Processing else if completed then Completed else TaskFailed;
      tasks := tasks[t := tasks[t].(status := status)];
      if kind == AgentUninstall {
        if completed {
          servers := servers[id := servers[id].(deletion := Uninstalling)];
        } else {
          servers := servers[id := servers[id].(deletion := Failed, uninstall := None)];
        }
      }
    }

    /** Message `message` of the run is the confirmation of this uninstall. */
    ghost predicate Confirms(message: nat, id: Id, t: Id, token: Token)
      reads this
    {
      && message < |Past().deliveries|
      && Past().deliveries[message] == F.Delivery(t, id, AgentUninstall, token, F.Acting)
    }

    /** `ConfirmUninstall`: accepted exactly while the server holds this task's token; the row then
        goes with all its tasks, or the uninstall has failed.  A confirmation by the agent that was
        handed the task finds its server uninstalling and its completed report committed. */
    method ConfirmUninstall(id: Id, t: Id, token: Token, completed: bool, ghost message: nat) returns (ok: bool)
      requires Valid()
      modifies this
      ensures events == old(events) + [F.Confirm(message, completed)]
      ensures old(Confirms(message, id, t, token)) ==> Valid()
      ensures ok <==>
                && id in old(servers) && old(servers)[id].uninstall == Some(Hash(token))
                && old(servers)[id].uninstallExpires > now
                && t in old(tasks) && old(tasks)[t].server == id && old(tasks)[t].kind == AgentUninstall
      ensures !ok ==> View() == old(View())
      ensures ok && completed ==>
                && now == old(now) && servers == old(servers) - {id}
                && (forall u :: u in tasks <==> u in old(tasks) && old(tasks)[u].server != id)
                && (forall u :: u in tasks ==> tasks[u] == old(tasks)[u])
      ensures ok && !completed ==>
                && now == old(now)
                && servers == old(servers)[id := old(servers)[id].(deletion := Failed, uninstall := None)]
                && tasks == old(tasks)[t := old(tasks)[t].(status := TaskFailed)]
      ensures ok && old(Confirms(message, id, t, token)) ==>
              old(servers)[id].deletion == Uninstalling && t in old(Past()).reported
    {
      hide F.Run, F.Next;
      Uninstalls();
      if Confirms(message, id, t, token) {
        ConfirmedDb(events, message, completed);
        T.OnlyCurrentConfirmations(events, message, completed);
      }
      events := events + [F.Confirm(message, completed)];
      if !Confirmable(View(), id, t, token) { return false; }
      if completed {
        ForceDelete(id);
      } else {
        servers := servers[id := servers[id].(deletion := Failed, uninstall := None)];
        tasks := tasks[t := tasks[t].(status := TaskFailed)];
      }
      return true;
    }

    /** Deleting the row deletes its tasks with it. */
    method ForceDelete(id: Id)
      modifies this`servers, this`tasks
      ensures View() == Deleted(old(View()), id)
    {
      servers := servers - {id};
      tasks := map t | t in tasks && tasks[t].server != id :: tasks[t];
    }

    // ----- server repository -----

    /** `RequestAgentUninstall`: accepted exactly for an owner's server that was seen within a minute,
        runs Linux, supports it and is not being uninstalled.  The server then waits with this token
        and this task, and no other task of it is waiting to be claimed. */
    method RequestAgentUninstall(id: Id, user: User, t: Id, token: Token) returns (answer: UninstallAnswer)
      requires Valid() && t !in Past().taskIds && token !in Past().tokens
      modifies this
      ensures Valid() && events
              == (if answer == Accepted then old(events) + [F.RequestUninstall(id, user, t, token)] else old(events))
      ensures Answers(old(View()), id, user, answer)
      ensures if answer == Accepted then UninstallWaits(old(View()), View(), id, t, token) else View() == old(View())
    {
      hide F.Run, F.Next, UninstallRequested, UninstallWaits;
      Keys();
      Uninstalls();
      RequestedDb(events, id, user, t, token);
      ghost var db := View();
      if id !in servers || servers[id].owner != user { return NotFound; }
      var row := servers[id];
      if row.lastSeen == None || row.lastSeen.value < now - 60 { return Offline; }
      if !row.linux { return UnsupportedOS; }
      if !row.uninstallSupported { return Unsupported; }
      if row.deletion == Pending || row.deletion == Uninstalling { return InProgress; }
      QueueUninstall(id, t, token);
      events := events + [F.RequestUninstall(id, user, t, token)];
      RequestMeans(db, id, t, token);
      hide UninstallsSound;
      return Accepted;
    }

    /** The statements of an accepted request. */
    method QueueUninstall(id: Id, t: Id, token: Token)
      requires id in servers
      modifies this`servers, this`tasks
      ensures View() == UninstallRequested(old(View()), id, t, token)
    {
      servers := servers[id :=
          servers[id].(deletion := Pending, uninstall := Some(Hash(token)), uninstallExpires := now + 15 * 60)];
      tasks := map u | u in tasks :: tasks[u].ExpiredByUninstall(id);
      tasks := tasks[t := Task(id, AgentUninstall, Queued, now, 0, now + 15 * 60, 300, false, 0, token)];
    }

    /** `ExpireStaleAgentUninstalls`: first the stale tasks and their servers, then the servers
        whose confirmation is overdue.  A task changes exactly if its time ran out, and a server exactly if
        a task of its did or its confirmation is overdue; it has then failed and holds no token. */
    method ExpireStaleAgentUninstalls(user: User)
      requires Valid()
      modifies this
      ensures Valid() && events == old(events) + [F.ExpireUninstalls(user)]
      ensures now == old(now) && tasks.Keys == old(tasks).Keys && servers.Keys == old(servers).Keys
      ensures forall t :: t in tasks ==> (tasks[t] != old(tasks)[t] <==> RanOut(old(View()), t, user))
      ensures forall t :: RanOut(old(View()), t, user) ==>
              tasks[t] == old(tasks)[t].(status := if old(tasks)[t].status == Queued then Expired else TimedOut)
      ensures forall id :: id in servers ==>
                && (servers[id] != old(servers)[id] <==>
                    old(servers)[id].owner == user && GivesUp(old(View()), id, user))
                && (servers[id] != old(servers)[id] ==>
                    servers[id] == old(servers)[id].(deletion := Failed, uninstall := None))
    {
      ghost var db := View();
      Uninstalls();
      T.RunSplit(events, F.ExpireUninstalls(user));
      hide F.Run;
      TasksRunOut(db, user);
      ServersGiveUp(db, user);
      hide StaleUninstallsExpired, RanOut, GivesUp, UninstallsSound;
      events := events + [F.ExpireUninstalls(user)];
      ExpireStatements(user);
    }

    method ExpireStatements(user: User)
      modifies this`servers, this`tasks
      ensures View() == StaleUninstallsExpired(old(View()), user)
    {
      hide LostUninstall, StaleUninstallsExpired, Lost, MarkedLost, MarkedOverdue;
      InTurn(View(), user);
      var lost := Lost(View(), user);
      tasks := TasksClosed(View(), user);
      servers := MarkedLost(servers, lost);
      servers := MarkedOverdue(servers, user, now);
    }

    /** `SetAgentAutoUpdate`: the owner's switch; turned off, no automatic update of the server waits
        any more, and nothing else has changed. */
    method SetAgentAutoUpdate(id: Id, user: User, enabled: bool) returns (ok: bool)
      requires Valid()
      modifies this
      ensures Valid() && events == (if ok then old(events) + [F.SetPolicy(id, user, enabled)] else old(events))
      ensures ok <==> id in old(servers) && old(servers)[id].owner == user
      ensures !ok || enabled ==> tasks == old(tasks)
      ensures now == old(now) && servers.Keys == old(servers).Keys && tasks.Keys == old(tasks).Keys
      ensures forall j :: j in servers ==>
              servers[j] == if ok && j == id then old(servers)[j].(autoUpdate := enabled) else old(servers)[j]
      ensures ok && !enabled ==>
                forall t :: t in tasks && tasks[t].server == id && tasks[t].kind == AgentUpdate && tasks[t].automatic
                    ==> tasks[t].status != Queued
      ensures forall t :: t in tasks && tasks[t] != old(tasks)[t] ==>
                && old(tasks)[t].server == id && old(tasks)[t].kind == AgentUpdate && old(tasks)[t].automatic
                && old(tasks)[t].status == Queued && tasks[t] == old(tasks)[t].(status := Expired)
    {
      hide F.Run, F.Next;
      PolicyDb(events, id, user, enabled);
      if id !in servers || servers[id].owner != user { return false; }
      servers := servers[id := servers[id].(autoUpdate := enabled)];
      if !enabled {
        tasks := map t | t in tasks :: tasks[t].ExpiredByPolicy(id);
      }
      events := events + [F.SetPolicy(id, user, enabled)];
      return true;
    }

    /** `Delete`: the owner's row and its tasks go; nothing of the server is left and nothing else is lost. */
    method Delete(id: Id, user: User) returns (ok: bool)
      requires Valid()
      modifies this
      ensures Valid() && events == (if ok then old(events) + [F.DeleteServer(id, user)] else old(events))
      ensures ok <==> id in old(servers) && old(servers)[id].owner == user
      ensures now == old(now) && servers == if ok then old(servers) - {id} else old(servers)
      ensures forall t :: t in tasks <==> t in old(tasks) && !(ok && old(tasks)[t].server == id)
      ensures forall t :: t in tasks ==> tasks[t] == old(tasks)[t] && tasks[t].server in servers
    {
      Keys();
      if id !in servers || servers[id].owner != user { return false; }
      T.RunSplit(events, F.DeleteServer(id, user));
      hide F.Run;
      events := events + [F.DeleteServer(id, user)];
      ForceDelete(id);
      return true;
    }

    // ----- server handler -----

    /** `CancelTask`: one task, or without an id every active update.  What was to be cancelled is no
        longer active, and nothing else has changed; an uninstall strands its server. */
    method CancelTask(id: Id, user: User, t: Option<Id>) returns (ok: bool)
      requires Valid()
      modifies this`tasks, this`events
      ensures Valid()
      ensures ok <==> id in servers && servers[id].owner == user
      ensures !ok ==> tasks == old(tasks) && events == old(events)
      ensures ok && t.Some? ==>
              events == old(events) + [F.CancelTask(id, t.value)]
                  && OnlyCancelled(old(View()), View(), id, {t.value})
      ensures ok && t.None? ==>
              events == old(events) + [F.CancelUpdates(id)]
                  && OnlyCancelled(old(View()), View(), id, UpdatesOf(old(View()), id))
      ensures ok && t.Some? && t.value in old(tasks) && old(tasks)[t.value].server == id
              && T.ActiveUninstall(old(tasks)[t.value]) ==>
                T.Stranded(Past(), id)
    {
      if id !in servers || servers[id].owner != user { return false; }
      hide F.Run, F.Next, TaskCancelled, UpdatesCancelled, T.Stranded, OnlyCancelled, UpdatesOf;
      ghost var db := View();
      if t.Some? {
        CancelledDb(events, id, t.value);
        if t.value in tasks && tasks[t.value].server == id && T.ActiveUninstall(tasks[t.value]) {
          T.CancelStrands(events, id, t.value);
        }
        CancelMeans(db, id, t.value);
        events := events + [F.CancelTask(id, t.value)];
        CancelOne(id, t.value);
      } else {
        CancelledDb(events, id, 0);
        UpdatesMeans(db, id);
        events := events + [F.CancelUpdates(id)];
        CancelUpdates(id);
      }
      return true;
    }

    method CancelOne(id: Id, t: Id)
      modifies this`tasks
      ensures View() == TaskCancelled(old(View()), id, t)
    {
      if t in tasks && tasks[t].server == id && (tasks[t].status == Queued || tasks[t].status == Processing) {
        tasks := tasks[t := tasks[t].(status := Cancelled)];
      }
    }

    method CancelUpdates(id: Id)
      modifies this`tasks
      ensures View() == UpdatesCancelled(old(View()), id)
    {
      tasks := map u | u in tasks :: tasks[u].CancelledUpdate(id);
    }
  }

  // ----- what the statements mean -----

  /** A token is stored exactly while a server waits or is uninstalling, and an active uninstall is
      the only one of its server, which waits with that task's token. */
  ghost predicate UninstallsSound(db: Database) {
    && (forall id :: id in db.servers ==>
          (db.servers[id].uninstall.Some? <==>
           db.servers[id].deletion == Pending || db.servers[id].deletion == Uninstalling))
    && (forall t :: t in db.tasks && T.ActiveUninstall(db.tasks[t]) ==>
          && db.tasks[t].server in db.servers && db.servers[db.tasks[t].server].deletion == Pending
          && db.servers[db.tasks[t].server].uninstall == Some(Hash(db.tasks[t].token)))
    && (forall t, u :: BothActive(db, t, u) ==> t == u)
  }

  ghost predicate BothActive(db: Database, t: Id, u: Id) {
    && t in db.tasks && u in db.tasks && db.tasks[t].server == db.tasks[u].server
    && T.ActiveUninstall(db.tasks[t]) && T.ActiveUninstall(db.tasks[u])
  }

  lemma SoundAfter(events: seq<F.Event>)
    ensures UninstallsSound(F.Run(events).db)
  {
    hide F.Run;
    T.UninstallStates(events);
  }

  /** No task of the server is late, and only tasks that were late have been closed. */
  ghost predicate LateTasksClosed(a: Database, b: Database, id: Id) {
    && b == a.(tasks := b.tasks) && b.tasks.Keys == a.tasks.Keys
    && (forall t :: t in b.tasks && b.tasks[t].server == id ==>
        && (b.tasks[t].status == Queued ==> a.now < b.tasks[t].expires)
        && (b.tasks[t].status == Processing ==> a.now < b.tasks[t].started + b.tasks[t].timeout))
    && (forall t :: t in b.tasks && b.tasks[t] != a.tasks[t] ==> ClosedLate(a.tasks[t], b.tasks[t], id, a.now))
  }

  ghost predicate ClosedLate(a: Task, b: Task, id: Id, now: int) {
    && a.server == id && b == a.(status := b.status)
    && ((a.status == Queued && a.expires <= now && b.status == Expired)
        || (a.status == Processing && a.started + a.timeout <= now && b.status == TimedOut))
  }

  ghost predicate LateUninstall(db: Database, id: Id) {
    exists t :: t in db.tasks && db.tasks[t].server == id && db.tasks[t].kind == AgentUninstall
                && ((db.tasks[t].status == Queued && db.tasks[t].expires <= db.now)
                    || (db.tasks[t].status == Processing && db.tasks[t].started + db.tasks[t].timeout <= db.now))
  }

  lemma LateClosed(db: Database, id: Id)
    ensures LateTasksClosed(db, OverdueTimedOut(UnclaimedExpired(db, id), id), id)
  {
  }

  lemma LateStrands(s: F.System, db: Database, id: Id)
    requires LateUninstall(db, id) && UninstallsSound(db) && s.db == OverdueTimedOut(UnclaimedExpired(db, id), id)
    ensures T.Stranded(s, id)
  {
    var t :| t in db.tasks && db.tasks[t].server == id && db.tasks[t].kind == AgentUninstall
             && ((db.tasks[t].status == Queued && db.tasks[t].expires <= db.now)
                 || (db.tasks[t].status == Processing && db.tasks[t].started + db.tasks[t].timeout <= db.now));
    assert forall u :: u in db.tasks && db.tasks[u].server == id && T.ActiveUninstall(db.tasks[u]) ==>
        BothActive(db, t, u);
  }

  /** Only the task has changed, and of an uninstall the server, which was waiting with its token; it
      is now uninstalling with its token kept, or has failed, and has no active uninstall. */
  ghost predicate ReportStored(a: Database, b: Database, t: Id, completed: bool)
    requires t in a.tasks
  {
    var id := a.tasks[t].server;
    && b.now == a.now && t in b.tasks && b.tasks == a.tasks[t := b.tasks[t]]
    && b.tasks[t] == a.tasks[t].(status := b.tasks[t].status)
    && b.tasks[t].status == (if !completed then TaskFailed
        else if a.tasks[t].kind == AgentUpdate then Processing else Completed)
    && (a.tasks[t].kind != AgentUninstall ==> b.servers == a.servers)
    && (a.tasks[t].kind == AgentUninstall ==>
          && id in a.servers && id in b.servers && b.servers == a.servers[id := b.servers[id]]
          && a.servers[id].deletion == Pending && a.servers[id].uninstall == Some(Hash(a.tasks[t].token))
          && b.servers[id] == a.servers[id].(deletion := b.servers[id].deletion, uninstall := b.servers[id].uninstall)
          && (completed ==>
                b.servers[id].deletion == Uninstalling && b.servers[id].uninstall == a.servers[id].uninstall)
          && (!completed ==> b.servers[id].deletion == Failed && b.servers[id].uninstall.None?)
          && forall u :: u in b.tasks && b.tasks[u].server == id ==> !T.ActiveUninstall(b.tasks[u]))
  }

  lemma ReportMeans(db: Database, t: Id, completed: bool)
    requires UninstallsSound(db) && t in db.tasks && db.tasks[t].server in db.servers
             && db.tasks[t].status == Processing
    ensures ReportStored(db, Reported(db, t, completed), t, completed)
  {
    assert T.ActiveUninstall(db.tasks[t]) ==>
             forall u :: u in db.tasks && db.tasks[u].server == db.tasks[t].server && T.ActiveUninstall(db.tasks[u]) ==>
                 BothActive(db, t, u);
  }

  /** Accepted exactly for the owner's server that was seen within a minute, runs Linux, supports it
      and holds no uninstall token. */
  ghost predicate Answers(db: Database, id: Id, user: User, answer: UninstallAnswer) {
    && (answer == NotFound <==> !(id in db.servers && db.servers[id].owner == user))
    && (answer != NotFound ==>
          var s := db.servers[id]; var online := s.lastSeen.Some? && db.now - 60 <= s.lastSeen.value;
          && (answer == Offline <==> !online)
          && (answer == UnsupportedOS <==> online && !s.linux)
          && (answer == Unsupported <==> online && s.linux && !s.uninstallSupported)
          && (answer == InProgress || answer == Accepted ==> (answer == Accepted <==> s.uninstall.None?)))
  }

  /** The server waits with this token and this task, its only active uninstall; nothing else of it
      waits to be claimed, and nothing else has changed. */
  ghost predicate UninstallWaits(a: Database, b: Database, id: Id, t: Id, token: Token) {
    && b.now == a.now && id in a.servers && id in b.servers && t in b.tasks
    && b.servers == a.servers[id := b.servers[id]]
    && b.servers[id] == a.servers[id].(deletion := Pending, uninstall := Some(Hash(token)),
        uninstallExpires := a.now + 15 * 60)
    && b.tasks.Keys == a.tasks.Keys + {t}
    && b.tasks[t] == Task(id, AgentUninstall, Queued, a.now, 0, a.now + 15 * 60, 300, false, 0, token)
    && (forall u :: u in b.tasks && b.tasks[u].server == id && T.ActiveUninstall(b.tasks[u]) <==> u == t)
    && (forall u :: u in b.tasks && b.tasks[u].server == id && b.tasks[u].status == Queued <==> u == t)
    && (forall u :: u in a.tasks && u in b.tasks && b.tasks[u] != a.tasks[u] ==>
          a.tasks[u].server == id && a.tasks[u].status == Queued && b.tasks[u] == a.tasks[u].(status := Expired))
  }

  lemma RequestMeans(db: Database, id: Id, t: Id, token: Token)
    requires UninstallsSound(db) && id in db.servers && db.servers[id].deletion != Pending && t !in db.tasks
    ensures UninstallWaits(db, UninstallRequested(db, id, t, token), id, t, token)
  {
    assert forall u :: u in db.tasks && db.tasks[u].server == id ==> !T.ActiveUninstall(db.tasks[u]);
    hide UninstallsSound;
  }

  ghost function UpdatesOf(db: Database, id: Id): set<Id> {
    set u | u in db.tasks && db.tasks[u].server == id && db.tasks[u].kind == AgentUpdate
  }

  /** No task of the server among these is active, and only active ones of them have changed. */
  ghost predicate OnlyCancelled(a: Database, b: Database, id: Id, chosen: set<Id>) {
    && b == a.(tasks := b.tasks) && b.tasks.Keys == a.tasks.Keys
    && (forall u :: u in b.tasks && u in chosen && b.tasks[u].server == id ==>
        b.tasks[u].status != Queued && b.tasks[u].status != Processing)
    && (forall u :: u in b.tasks && b.tasks[u] != a.tasks[u] ==>
          && u in chosen && a.tasks[u].server == id
          && (a.tasks[u].status == Queued || a.tasks[u].status == Processing)
          && b.tasks[u] == a.tasks[u].(status := Cancelled))
  }

  lemma CancelMeans(db: Database, id: Id, t: Id)
    ensures OnlyCancelled(db, TaskCancelled(db, id, t), id, {t})
  {
  }

  lemma UpdatesMeans(db: Database, id: Id)
    ensures OnlyCancelled(db, UpdatesCancelled(db, id), id, UpdatesOf(db, id))
  {
  }

  // ----- the statements of `ExpireStaleAgentUninstalls` -----

  /** An uninstall task of one of the user's servers that was not claimed, or not finished, in time. */
  ghost predicate RanOut(db: Database, t: Id, user: User) {
    && t in db.tasks && db.tasks[t].kind == AgentUninstall
    && db.tasks[t].server in db.servers && db.servers[db.tasks[t].server].owner == user
    && ((db.tasks[t].status == Queued && db.tasks[t].expires <= db.now)
        || (db.tasks[t].status == Processing && db.tasks[t].started + db.tasks[t].timeout <= db.now))
  }

  /** An uninstall task of the server ran out of time, or its confirmation is overdue. */
  ghost predicate GivesUp(db: Database, id: Id, user: User)
    requires id in db.servers
  {
    || (exists t :: RanOut(db, t, user) && db.tasks[t].server == id)
    || (db.servers[id].deletion == Uninstalling && db.servers[id].uninstallExpires <= db.now)
  }

  lemma TasksRunOut(db: Database, user: User)
    ensures var b := StaleUninstallsExpired(db, user);
            && b.now == db.now && b.tasks.Keys == db.tasks.Keys
            && forall t :: t in b.tasks ==>
                 && (b.tasks[t] != db.tasks[t] <==> RanOut(db, t, user))
                 && (RanOut(db, t, user) ==>
                     b.tasks[t] == db.tasks[t].(status := if db.tasks[t].status == Queued then Expired else TimedOut))
  {
    hide LostUninstall;
  }

  lemma LostRanOut(db: Database, id: Id, user: User)
    requires OwnedBy(db, id, user)
    ensures LostUninstall(db, id) <==> exists t :: RanOut(db, t, user) && db.tasks[t].server == id
  {
    if t :| RanOut(db, t, user) && db.tasks[t].server == id {
      assert db.tasks[t].StaleUninstall(db.now);
    }
    if t :| t in db.tasks && db.tasks[t].server == id && db.tasks[t].StaleUninstall(db.now) {
      assert RanOut(db, t, user);
    }
  }

  lemma ServersGiveUp(db: Database, user: User)
    requires UninstallsSound(db)
    ensures var b := StaleUninstallsExpired(db, user);
            && b.servers.Keys == db.servers.Keys
            && forall id :: id in b.servers ==>
                 && (b.servers[id] != db.servers[id] <==> db.servers[id].owner == user && GivesUp(db, id, user))
                 && (b.servers[id] != db.servers[id] ==>
                     b.servers[id] == db.servers[id].(deletion := Failed, uninstall := None))
  {
    var b := StaleUninstallsExpired(db, user);
    forall id | id in b.servers
      ensures b.servers[id] != db.servers[id] <==> db.servers[id].owner == user && GivesUp(db, id, user)
      ensures b.servers[id] != db.servers[id] ==>
              b.servers[id] == db.servers[id].(deletion := Failed, uninstall := None)
    {
      if OwnedBy(db, id, user) {
        LostRanOut(db, id, user);
        RanOutPending(db, id, user);
      }
      hide LostUninstall, RanOut, UninstallsSound;
    }
  }

  lemma RanOutPending(db: Database, id: Id, user: User)
    requires UninstallsSound(db) && id in db.servers
    ensures (exists t :: RanOut(db, t, user) && db.tasks[t].server == id) ==> db.servers[id].deletion == Pending
  {
    if t :| RanOut(db, t, user) && db.tasks[t].server == id {
      assert T.ActiveUninstall(db.tasks[t]);
    }
  }

  /** The servers of the uninstall tasks that the first statement closes. */
  function Lost(db: Database, user: User): set<Id> {
    set t | t in db.tasks && OwnedBy(db, db.tasks[t].server, user)
        && db.tasks[t].StaleUninstall(db.now) :: db.tasks[t].server
  }

  function TasksClosed(db: Database, user: User): map<Id, Task> {
    map t | t in db.tasks ::
        if OwnedBy(db, db.tasks[t].server, user) then db.tasks[t].StaleUninstallClosed(db.now) else db.tasks[t]
  }

  function MarkedLost(servers: map<Id, Server>, lost: set<Id>): map<Id, Server> {
    map id | id in servers :: if id in lost then servers[id].(deletion := Failed, uninstall := None) else servers[id]
  }

  function MarkedOverdue(servers: map<Id, Server>, user: User, now: int): map<Id, Server> {
    map id | id in servers ::
      if servers[id].owner == user && servers[id].deletion == Uninstalling && servers[id].uninstallExpires <= now
      then servers[id].(deletion := Failed, uninstall := None) else servers[id]
  }

  lemma LostServers(db: Database, user: User)
    ensures forall id :: id in Lost(db, user) <==> OwnedBy(db, id, user) && LostUninstall(db, id)
  {
    forall id | OwnedBy(db, id, user) && LostUninstall(db, id) ensures id in Lost(db, user) {
      var t :| t in db.tasks && db.tasks[t].server == id && db.tasks[t].StaleUninstall(db.now);
    }
  }

  /** One after the other they do what a single statement would. */
  lemma InTurn(db: Database, user: User)
    ensures StaleUninstallsExpired(db, user)
            == db.(tasks := TasksClosed(db, user),
                servers := MarkedOverdue(MarkedLost(db.servers, Lost(db, user)), user, db.now))
  {
    hide LostUninstall, Lost;
    LostServers(db, user);
    hide TasksClosed;
    assert StaleUninstallsExpired(db, user).tasks == TasksClosed(db, user) by { TasksInTurn(db, user); }
  }

  lemma TasksInTurn(db: Database, user: User)
    ensures StaleUninstallsExpired(db, user).tasks == TasksClosed(db, user)
  {
    hide LostUninstall;
  }

  lemma TwoEvents(events: seq<F.Event>, a: F.Event, b: F.Event)
    ensures F.Run(events + [a, b]) == F.Next(F.Next(F.Run(events), a), b)
  {
    hide F.Run, F.Next;
    T.RunSplit(events, a);
    T.RunSplit(events + [a], b);
    assert events + [a] + [b] == events + [a, b];
  }

  lemma CancelledDb(events: seq<F.Event>, id: Id, t: Id)
    ensures F.Run(events + [F.CancelTask(id, t)]).db == TaskCancelled(F.Run(events).db, id, t)
    ensures F.Run(events + [F.CancelUpdates(id)]).db == UpdatesCancelled(F.Run(events).db, id)
  {
    hide F.Run, F.Next, TaskCancelled, UpdatesCancelled;
    T.RunSplit(events, F.CancelTask(id, t));
    T.RunSplit(events, F.CancelUpdates(id));
    CancelStep(F.Run(events), id, t);
  }

  lemma RequestedDb(events: seq<F.Event>, id: Id, user: User, t: Id, token: Token)
    requires t !in F.Run(events).taskIds && token !in F.Run(events).tokens
    ensures var db := F.Run(events).db;
            UninstallCheck(db, id, user) == Accepted ==>
              F.Run(events + [F.RequestUninstall(id, user, t, token)]).db == UninstallRequested(db, id, t, token)
  {
    hide F.Run, UninstallRequested, UninstallCheck;
    T.RunSplit(events, F.RequestUninstall(id, user, t, token));
  }

  lemma EnrolledDb(events: seq<F.Event>, id: Id, token: Token, credential: Token, rollback: Token)
    requires var s := F.Run(events);
             && Enrollable(s.db, id, token)
             && credential !in s.tokens && rollback !in s.tokens && credential != rollback
    ensures F.Run(events + [F.Enroll(id, token, credential, rollback)]).db
            == Enrolled(F.Run(events).db, id, credential, rollback)
  {
    hide F.Run, Enrolled;
    T.RunSplit(events, F.Enroll(id, token, credential, rollback));
  }

  lemma CreatedDb(events: seq<F.Event>, id: Id, t: Id, kind: Kind, timeout: int)
    requires var s := F.Run(events); id in s.db.servers && t !in s.taskIds && kind != AgentUninstall
    ensures var db := F.Run(events).db;
            F.Run(events + [F.CreateTask(id, t, kind, timeout)]).db
            == if kind == AgentUpdate && !NoActiveUpdate(db, id) then db
               else TaskInserted(db, t, id, kind, timeout, false, 0)
  {
    hide F.Run, NoActiveUpdate, TaskInserted;
    T.RunSplit(events, F.CreateTask(id, t, kind, timeout));
  }

  lemma NoneUpdating(db: Database, id: Id)
    ensures NoActiveUpdate(db, id) <==> !Store.Updating(db.tasks, id)
  {
  }

  lemma PolicyDb(events: seq<F.Event>, id: Id, user: User, enabled: bool)
    ensures OwnedBy(F.Run(events).db, id, user) ==>
              F.Run(events + [F.SetPolicy(id, user, enabled)]).db == PolicySet(F.Run(events).db, id, enabled)
  {
    hide F.Run, PolicySet;
    T.RunSplit(events, F.SetPolicy(id, user, enabled));
  }

  lemma CancelStep(s: F.System, id: Id, t: Id)
    ensures F.Next(s, F.CancelTask(id, t)).db == TaskCancelled(s.db, id, t)
    ensures F.Next(s, F.CancelUpdates(id)).db == UpdatesCancelled(s.db, id)
  {
    hide TaskCancelled, UpdatesCancelled;
  }

  lemma ConfirmedDb(events: seq<F.Event>, i: nat, completed: bool)
    requires i < |F.Run(events).deliveries| && F.Run(events).deliveries[i].stage == F.Acting
    requires F.Run(events).deliveries[i].kind == AgentUninstall
    ensures var db := F.Run(events).db; var d := F.Run(events).deliveries[i];
            F.Run(events + [F.Confirm(i, completed)]).db
            == if Confirmable(db, d.server, d.task, d.token) then Confirmed(db, d.server, d.task, completed) else db
  {
    hide F.Run, Confirmed;
    T.RunSplit(events, F.Confirm(i, completed));
  }

  lemma CommittedDb(events: seq<F.Event>, i: nat, credential: Token, completed: bool)
    requires i < |F.Run(events).deliveries| && F.Run(events).deliveries[i].stage == F.Reporting(completed)
    ensures var db := F.Run(events).db; var t := F.Run(events).deliveries[i].task;
            F.Run(events + [F.CommitReport(i, credential)]).db ==
                if Reportable(db, t, credential) then Reported(db, t, completed) else db
  {
    hide F.Run, Reported;
    T.RunSplit(events, F.CommitReport(i, credential));
  }

  // ----- the agent's task worker -----

  datatype Effect = SendReport(completed: bool) | CleanUp | RunAction(kind: Kind) | ConfirmFailure

  /** `processTask`: `prepared` says whether the work before the report succeeded, `acknowledged`
      whether the backend's acceptance of the report arrived, `activated` whether the uninstall
      helper could be started. */
  method ProcessTask(kind: Kind, prepared: bool, acknowledged: bool, activated: bool) returns (effects: seq<Effect>)
    ensures |effects| >= 1 && effects[0] == SendReport(prepared)
    ensures kind != Ordinary ==> (RunAction(kind) in effects <==> prepared && acknowledged)
    ensures forall e :: e in effects && e.RunAction? ==> e == RunAction(kind) && kind != Ordinary
    ensures CleanUp in effects <==> kind == AgentUninstall && prepared && !acknowledged
    ensures ConfirmFailure in effects <==> kind == AgentUninstall && prepared && acknowledged && !activated
    ensures forall i, j :: 0 <= i < j < |effects| ==> effects[i] != effects[j]
  {
    var postAction: Option<Kind> := None;
    var completed := prepared;
    if kind != Ordinary && prepared {
      postAction := Some(kind);
    }
    effects := [SendReport(completed)];
    if !acknowledged && postAction.Some? {
      if postAction == Some(AgentUninstall) { effects := effects + [CleanUp]; }
      return;
    }
    if postAction.Some? {
      effects := effects + [RunAction(postAction.value)];
      if postAction == Some(AgentUninstall) && !activated { effects := effects + [ConfirmFailure]; }
    }
  }
}
