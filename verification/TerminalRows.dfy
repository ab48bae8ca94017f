/** The active rows of the session table: when one is left behind, and what that does to its server. */
module TerminalRows {
  import opened TerminalHub
  import opened TerminalProofs
  import opened TerminalTheorems

  /** The server's active row belongs to no session that is still going to free it. */
  ghost predicate Stuck(w: World, s: Server) {
    && s in w.active && !InUse(w, w.active[s])
    && forall i :: 0 <= i < |w.browsers| && w.browsers[i].stage.Created? ==> w.browsers[i].stage.id != w.active[s]
  }

  lemma HandlerStuck(w: World, b: nat, step: HandlerStep, s: Server)
    requires RowInv(w) && SessionInv(w) && CanHandle(w, b, step) && Stuck(w, s)
    ensures Stuck(Handled(w, b, step), s)
  {
    hide RowInv, SessionInv, Handled;
    SessionFacts(w);
    var r := Handled(w, b, step);
    if Prepares(w, b, step) {
      PreparedShape(w, b, step);
      if step.CreateRow? { RowStuck(w, b, step.id, step.outcome, s); }
    } else if Leaves(w, b, step) {
      LeaveShape(w, b, step);
      OwnSession(w, b);
      EndNarrows(At(w, b, Returned), w.browsers[b].stage.id, !step.WriteStart?);
      EndShape(At(w, b, Returned), w.browsers[b].stage.id, !step.WriteStart?);
      hide End;
    } else {
      RestShape(w, b, step);
      if step == Insert { InsertEffect(w, b); InsertStuck(w, b, s); }
          else if step == WriteStart(true) { StartStuck(w, b, s); }
    }
  }

  lemma RowStuck(w: World, b: nat, id: SessionId, outcome: RowOutcome, s: Server)
    requires RowInv(w) && CanHandle(w, b, CreateRow(id, outcome)) && Stuck(w, s)
    ensures Stuck(Handled(w, b, CreateRow(id, outcome)), s)
  {
    assert w.active[s] in w.ids;
    hide RowInv;
  }

  lemma InsertStuck(w: World, b: nat, s: Server)
    requires CanHandle(w, b, Insert) && Stuck(w, s)
    ensures Stuck(Handled(w, b, Insert), s)
  {
  }

  lemma StartStuck(w: World, b: nat, s: Server)
    requires CanHandle(w, b, WriteStart(true)) && Stuck(w, s)
    ensures Stuck(Handled(w, b, WriteStart(true)), s)
  {
  }

  lemma StuckFrame(w: World, r: World, s: Server)
    requires Stuck(w, s) && Narrower(w, r) && NoneCreated(w, r) && s in r.active && r.active[s] == w.active[s]
    ensures Stuck(r, s)
  {
    assert forall id :: InUse(r, id) ==> InUse(w, id);
    hide InUse;
  }

  lemma StuckStays(w: World, e: Event, s: Server)
    requires Inv(w) && Stuck(w, s)
    ensures Stuck(Next(w, e), s)
  {
    hide TicketInv, RegistryInv, SessionInv, RowInv, RelayInv, TalkInv, Handled, Moved, Acted, Stuck, CanHandle,
        CanMove, CanAct;
    if Enabled(w, e) {
      SessionFacts(w);
      ScansStarted(w);
      match e
      case Handler(b, step) => HandlerStuck(w, b, step, s);
      case Connection(p, move) =>
        MovedShape(w, p, move); MovedNarrows(w, p, move); StuckActive(w, s); StuckFrame(w, Next(w, e), s);
      case Ending(id, act) => ActedStuck(w, id, act, s);
      case _ => StuckActive(w, s); StuckFrame(w, Next(w, e), s);
    }
  }

  lemma StuckActive(w: World, s: Server)
    requires Stuck(w, s)
    ensures s in w.active
  {
  }

  lemma ActedStuck(w: World, id: SessionId, act: EndStep, s: Server)
    requires SessionInv(w) && CanAct(w, id, act) && Stuck(w, s)
    ensures Stuck(Acted(w, id, act), s)
  {
    hide SessionInv, Acted;
    SessionFacts(w);
    ActedShape(w, id, act);
    ActedNarrows(w, id, act);
    if act.FreeRow? { FreeStuck(w, id, act.ok, s); }
    hide CanAct;
    StuckFrame(w, Acted(w, id, act), s);
  }

  lemma FreeStuck(w: World, id: SessionId, ok: bool, s: Server)
    requires CanAct(w, id, FreeRow(ok)) && Stuck(w, s)
    ensures s in Acted(w, id, FreeRow(ok)).active && Acted(w, id, FreeRow(ok)).active[s] == w.active[s]
  {
    assert InUse(w, id);
  }

  /** Freeing the row succeeds, or the server's row is stuck. */
  lemma RowFreedOrStuck(events: seq<Event>, id: SessionId, ok: bool)
    requires Enabled(Run(events), Ending(id, FreeRow(ok)))
    ensures id in Run(events).started
    ensures var s := Run(events).started[id].session.server; var r := Run(events + [Ending(id, FreeRow(ok))]);
            (ok <==> s !in r.active) && (ok <==> !Stuck(r, s))
  {
    var w := Run(events);
    RunKeeps(events);
    RunExtends(events, Ending(id, FreeRow(ok)));
    hide Run;
    FreedOrStuck(w, id, ok);
  }

  lemma FreedOrStuck(w: World, id: SessionId, ok: bool)
    requires Inv(w) && CanAct(w, id, FreeRow(ok))
    ensures var s := w.started[id].session.server; var r := Acted(w, id, FreeRow(ok));
            (ok <==> s !in r.active) && (ok <==> !Stuck(r, s))
  {
    hide TicketInv, RegistryInv, RelayInv, TalkInv;
    SessionFacts(w);
    hide SessionInv;
    assert InUse(w, id) && HoldsRow(w, w.started[id].session.server, id);
    forall i | 0 <= i < |w.browsers| && w.browsers[i].stage.Created? ensures w.browsers[i].stage.id != id {
      assert CreatedRow(w, w.browsers[i]);
    }
    hide RowInv;
  }

  /** A server whose row is stuck gets no session again, whatever happens. */
  lemma {:induction false} StuckForever(events: seq<Event>, more: seq<Event>, s: Server)
    requires Stuck(Run(events), s)
    ensures var r := Run(events + more);
            Stuck(r, s) && forall id :: id in r.hub.sessions ==> r.hub.sessions[id].server != s
  {
    hide Run, Next, Stuck;
    if more == [] {
      assert events + more == events;
    } else {
      var front, e := more[..|more| - 1], more[|more| - 1];
      StuckForever(events, front, s);
      RunKeeps(events + front);
      StuckStays(Run(events + front), e, s);
      RunExtends(events + front, e);
      assert events + more == (events + front) + [e];
    }
    RunKeeps(events + more);
    NoneInHub(Run(events + more), s);
  }

  lemma NoneInHub(w: World, s: Server)
    requires Inv(w) && Stuck(w, s)
    ensures forall id :: id in w.hub.sessions ==> w.hub.sessions[id].server != s
  {
    hide TicketInv, RegistryInv, RelayInv, TalkInv;
    SessionFacts(w);
    hide SessionInv;
    forall id | id in w.hub.sessions ensures w.hub.sessions[id].server != s { assert InUse(w, id); }
  }

  // ----- what makes a row stuck -----

  /** An insert whose answer is lost leaves the row stuck at once. */
  lemma LostStuck(events: seq<Event>, b: nat, id: SessionId)
    requires Enabled(Run(events), Handler(b, CreateRow(id, Lost)))
    ensures Stuck(Run(events + [Handler(b, CreateRow(id, Lost))]), Run(events).browsers[b].ticket.server)
  {
    hide Run, Inv;
    RunKeeps(events);
    RunExtends(events, Handler(b, CreateRow(id, Lost)));
    LostRow(Run(events), b, id);
  }

  lemma LostRow(w: World, b: nat, id: SessionId)
    requires Inv(w) && CanHandle(w, b, CreateRow(id, Lost))
    ensures Stuck(Handled(w, b, CreateRow(id, Lost)), w.browsers[b].ticket.server)
  {
    hide TicketInv, RegistryInv, SessionInv, RelayInv, TalkInv;
    var r := Handled(w, b, CreateRow(id, Lost));
    forall i | 0 <= i < |r.browsers| && r.browsers[i].stage.Created? ensures r.browsers[i].stage.id != id {
      assert CreatedRow(w, w.browsers[i]);
    }
  }

  /** The step is a failed update of the row of one of the server's sessions, or an insert of such a
      row whose answer is lost. */
  predicate LeavesRow(w: World, e: Event, s: Server) {
    match e
    case Ending(id, FreeRow(ok)) => !ok && id in w.started && w.started[id].session.server == s
    case Handler(b, CreateRow(_, outcome)) => outcome.Lost? && Stands(w, b) && w.browsers[b].ticket.server == s
    case _ => false
  }

  /** Nothing that was used or about to be inserted is lost. */
  ghost predicate Wider(w: World, r: World) {
    && (forall id :: InUse(w, id) ==> InUse(r, id))
    && |w.browsers| <= |r.browsers|
    && (forall i :: 0 <= i < |w.browsers| && w.browsers[i].stage.Created? ==>
          r.browsers[i].stage == w.browsers[i].stage || InUse(r, w.browsers[i].stage.id))
  }

  lemma FreeFrame(w: World, r: World, s: Server)
    requires !Stuck(w, s) && Wider(w, r) && (s in r.active ==> s in w.active && r.active[s] == w.active[s])
    ensures !Stuck(r, s)
  {
    hide InUse;
    if s in r.active && !InUse(r, r.active[s]) {
      var i :| 0 <= i < |w.browsers| && w.browsers[i].stage.Created? && w.browsers[i].stage.id == w.active[s];
      assert r.browsers[i].stage == w.browsers[i].stage;
    }
  }

  lemma EndWidens(w: World, id: SessionId, notify: bool)
    requires id in w.started
    ensures Wider(w, End(w, id, notify)) && End(w, id, notify).active == w.active
  {
  }

  lemma HandlerFree(w: World, b: nat, step: HandlerStep, s: Server)
    requires SessionInv(w) && CanHandle(w, b, step) && !Stuck(w, s) && !LeavesRow(w, Handler(b, step), s)
    ensures !Stuck(Handled(w, b, step), s)
  {
    hide SessionInv, Handled, Stuck, Wider, InUse;
    var r := Handled(w, b, step);
    if step.CreateRow? { RowFree(w, b, step.id, step.outcome, s); }
    else if Prepares(w, b, step) {
      PreparedWidens(w, b, step);
      FreeFrame(w, r, s);
    } else if Leaves(w, b, step) {
      OwnSession(w, b);
      LeaveWidens(w, b, step);
      FreeFrame(w, r, s);
    } else {
      RestShape(w, b, step);
      if step == Insert { InsertWidens(w, b); FreeFrame(w, r, s); }
          else if step == WriteStart(true) { StartWidens(w, b); FreeFrame(w, r, s); }
    }
  }

  lemma RowFree(w: World, b: nat, id: SessionId, outcome: RowOutcome, s: Server)
    requires CanHandle(w, b, CreateRow(id, outcome)) && !Stuck(w, s)
             && !LeavesRow(w, Handler(b, CreateRow(id, outcome)), s)
    ensures !Stuck(Handled(w, b, CreateRow(id, outcome)), s)
  {
    var r := Handled(w, b, CreateRow(id, outcome));
    if s == w.browsers[b].ticket.server && outcome.Stored? {
      assert r.browsers[b].stage.Created? && r.browsers[b].stage.id == r.active[s];
    } else {
      FreeFrame(w, r, s);
    }
  }

  lemma PreparedWidens(w: World, b: nat, step: HandlerStep)
    requires CanHandle(w, b, step) && Prepares(w, b, step) && !step.CreateRow?
    ensures Wider(w, Handled(w, b, step)) && Handled(w, b, step).active == w.active
  {
    hide Busy;
  }

  lemma LeaveWidens(w: World, b: nat, step: HandlerStep)
    requires CanHandle(w, b, step) && Leaves(w, b, step) && w.browsers[b].stage.id in w.started
    ensures Wider(w, Handled(w, b, step)) && Handled(w, b, step).active == w.active
  {
    LeaveShape(w, b, step);
    EndWidens(At(w, b, Returned), w.browsers[b].stage.id, !step.WriteStart?);
    hide End;
  }

  lemma InsertWidens(w: World, b: nat)
    requires CanHandle(w, b, Insert)
    ensures Wider(w, Handled(w, b, Insert)) && Handled(w, b, Insert).active == w.active
  {
  }

  lemma StartWidens(w: World, b: nat)
    requires CanHandle(w, b, WriteStart(true))
    ensures Wider(w, Handled(w, b, WriteStart(true))) && Handled(w, b, WriteStart(true)).active == w.active
  {
  }

  lemma ConnectionFree(w: World, p: Peer, move: AgentStep, s: Server)
    requires SessionInv(w) && RegistryInv(w) && CanMove(w, p, move) && !Stuck(w, s)
    ensures !Stuck(Moved(w, p, move), s)
  {
    hide SessionInv, RegistryInv, Stuck, Wider, InUse;
    SessionFacts(w);
    ScansStarted(w);
    MoveWidens(w, p, move);
    FreeFrame(w, Moved(w, p, move), s);
  }

  lemma MoveWidens(w: World, p: Peer, move: AgentStep)
    requires CanMove(w, p, move) && w.hub.sessions.Keys <= w.started.Keys
    requires forall id :: p in w.agents && id in w.agents[p].toEnd ==> id in w.started
    ensures Wider(w, Moved(w, p, move)) && Moved(w, p, move).active == w.active
  {
    hide Affected;
    match move
    case EndAffected(id) => EndWidens(w, id, false); hide End;
    case Dispatch(kind, id) => if Ends(w.hub, p, kind, id) { EndWidens(w, id, false); } hide End;
    case _ =>
  }

  lemma ActFree(w: World, id: SessionId, act: EndStep, s: Server)
    requires SessionInv(w) && RowInv(w) && CanAct(w, id, act) && !Stuck(w, s) && !LeavesRow(w, Ending(id, act), s)
    ensures !Stuck(Acted(w, id, act), s)
  {
    hide SessionInv, RowInv, Stuck, Wider, InUse, Acted;
    if act.FreeRow? {
      FreedFree(w, id, act.ok, s);
    } else {
      ActWidens(w, id, act);
      FreeFrame(w, Acted(w, id, act), s);
    }
  }

  lemma ActWidens(w: World, id: SessionId, act: EndStep)
    requires CanAct(w, id, act) && !act.FreeRow?
    ensures Wider(w, Acted(w, id, act)) && Acted(w, id, act).active == w.active
  {
    if act == TimeOut { EndWidens(w, id, true); }
    hide End, Write;
  }

  /** No other server's row goes with a session. */
  lemma FreedFree(w: World, id: SessionId, ok: bool, s: Server)
    requires RowInv(w) && CanAct(w, id, FreeRow(ok)) && !Stuck(w, s) && !LeavesRow(w, Ending(id, FreeRow(ok)), s)
    ensures !Stuck(Acted(w, id, FreeRow(ok)), s)
  {
    var r := Acted(w, id, FreeRow(ok));
    var own := w.started[id].session.server;
    assert InUse(w, id) && HoldsRow(w, own, id);
    if s in r.active {
      assert w.active[s] != id;
      hide RowInv;
      if InUse(w, w.active[s]) {
        assert InUse(r, r.active[s]);
      } else {
        var i :| 0 <= i < |w.browsers| && w.browsers[i].stage.Created? && w.browsers[i].stage.id == w.active[s];
        assert r.browsers[i].stage == w.browsers[i].stage;
      }
    }
  }

  lemma StaysFree(w: World, e: Event, s: Server)
    requires Inv(w) && Enabled(w, e) && !Stuck(w, s) && !LeavesRow(w, e, s)
    ensures !Stuck(Next(w, e), s)
  {
    hide TicketInv, RegistryInv, SessionInv, RowInv, RelayInv, TalkInv, Handled, Moved, Acted, Stuck, CanHandle,
        CanMove, CanAct,
         LeavesRow, Wider;
    match e
    case Handler(b, step) => HandlerFree(w, b, step, s);
    case Connection(p, move) => ConnectionFree(w, p, move, s);
    case Ending(id, act) => ActFree(w, id, act, s);
    case _ => ClockWidens(w, e); FreeFrame(w, Next(w, e), s);
  }

  lemma ClockWidens(w: World, e: Event)
    requires Enabled(w, e) && (e.Wait? || e.CreateTicket? || e.Redeem?)
    ensures Wider(w, Next(w, e)) && Next(w, e).active == w.active
  {
  }

  /** From any reachable state, the next step leaves a server stuck if and only if it is a failed
      update of the row of one of its sessions, or an insert of such a row whose answer is lost. */
  lemma BecomesStuckExactly(events: seq<Event>, e: Event, s: Server)
    requires Enabled(Run(events), e) && !Stuck(Run(events), s)
    ensures Stuck(Run(events + [e]), s) <==> LeavesRow(Run(events), e, s)
  {
    hide Run, Inv, Stuck, Next;
    RunKeeps(events);
    RunExtends(events, e);
    if LeavesRow(Run(events), e, s) {
      if e.Ending? { RowFreedOrStuck(events, e.id, false); } else { LostStuck(events, e.browser, e.step.id); }
    } else {
      StaysFree(Run(events), e, s);
    }
  }

  // ----- two runs that leave a server stuck -----

  /** The insert's answer is lost. */
  lemma LostInsertSticks() returns (events: seq<Event>)
    ensures Stuck(Run(events), 1) && Run(events).started == map[]
  {
    hide Run, Moved, Acted, Stuck;
    events := AllChecksPass();
    LostStuck(events, 0, 20);
    events := Then(events, Handler(0, CreateRow(20, Lost)));
  }

  /** The agent cannot be told of the session, and the update that closes its row fails. */
  lemma FailedUpdateSticks() returns (events: seq<Event>)
    ensures Stuck(Run(events), 1) && 20 in Run(events).started && Run(events).hub.sessions == map[]
  {
    hide Run, Moved, Stuck, Handled;
    events := StartFails();
    events := Then(events, Ending(20, HangUp));
    RowFreedOrStuck(events, 20, false);
    events := Then(events, Ending(20, FreeRow(false)));
  }

  /** The handler's start message cannot be written. */
  lemma StartFails() returns (events: seq<Event>)
    ensures var w := Run(events);
            && w.hub.sessions == map[] && w.started == map[20 := Opening(Session(1, 3, 7, 0), 0)]
            && w.ending == map[20 := ToHangUp] && |w.browsers| == 1
  {
    hide Run, Moved, Acted;
    events := AllChecksPass();
    events := Then(events, Handler(0, CreateRow(20, Stored)));
    events := Then(events, Handler(0, Insert));
    events := Then(events, Handler(0, WriteStart(false)));
    assert Run(events).hub.sessions == map[];
  }

  // ----- a server that is not stuck can have a session -----

  lemma Fresh(used: set<nat>) returns (n: nat)
    ensures forall x :: x in used ==> x < n
  {
    n := 0;
    var left := used;
    while left != {}
      invariant left <= used
      invariant forall x :: x in used && x !in left ==> x < n
    {
      var x :| x in left;
      n := if x < n then n else x + 1;
      left := left - {x};
    }
  }

  /** One more event of a continuation. */
  lemma AndThen(events: seq<Event>, more: seq<Event>, e: Event) returns (longer: seq<Event>)
    ensures longer == more + [e] && Run(events + longer) == Next(Run(events + more), e)
  {
    longer := more + [e];
    RunExtends(events + more, e);
    assert events + longer == (events + more) + [e];
  }

  /** A handler of server `s` stands at this point, and the server has no active row. */
  ghost predicate Way(w: World, b: nat, s: Server, stage: Stage) {
    Stands(w, b) && w.browsers[b].stage == stage && w.browsers[b].ticket.server == s && s !in w.active
  }

  lemma FreeIsNotBusy(w: World, s: Server)
    requires Inv(w) && s !in w.active
    ensures !Busy(w.hub, s)
  {
    hide TicketInv, RegistryInv, RelayInv, TalkInv;
    SessionFacts(w);
    hide SessionInv;
    forall id | id in w.hub.sessions ensures w.hub.sessions[id].server != s {
      assert InUse(w, id) && HoldsRow(w, w.started[id].session.server, id);
    }
  }

  /** An agent connects and a user takes a ticket to it. */
  lemma TicketFor(events: seq<Event>, s: Server) returns (more: seq<Event>, b: nat, p: Peer)
    requires s !in Run(events).active
    ensures Way(Run(events + more), b, s, Taken)
    ensures var w := Run(events + more);
            s in w.hub.agents && w.hub.agents[s] == p && b < |w.browsers| && w.now <= w.browsers[b].ticket.expires
  {
    var w := Run(events);
    hide Run;
    p := Fresh(w.agents.Keys);
    var token := Fresh(w.issued.Keys);
    assert events + [] == events;
    more := AndThen(events, [], Connection(p, Connect(s)));
    more := AndThen(events, more, CreateTicket(token, s, 0));
    more := AndThen(events, more, Redeem(token));
    b := |w.browsers|;
  }

  lemma Admitted(w: World, b: nat, s: Server, p: Peer)
    requires Way(w, b, s, Taken) && s in w.hub.agents && w.hub.agents[s] == p && w.now <= w.browsers[b].ticket.expires
    ensures var r := Next(w, Handler(b, Admit));
            Way(r, b, s, Stage.Admitted) && s in r.hub.agents && r.hub.agents[s] == p
  {
  }

  lemma LookedUp(w: World, b: nat, s: Server, p: Peer)
    requires Way(w, b, s, Stage.Admitted) && s in w.hub.agents && w.hub.agents[s] == p
    ensures Way(Next(w, Handler(b, LookUp)), b, s, Found(p))
  {
  }

  lemma NotBusy(w: World, b: nat, s: Server, p: Peer)
    requires Inv(w) && Way(w, b, s, Found(p))
    ensures Way(Next(w, Handler(b, CheckFree)), b, s, Free(p))
  {
    FreeIsNotBusy(w, s);
    hide Inv, Busy;
  }

  lemma RowMade(w: World, b: nat, s: Server, p: Peer, id: SessionId)
    requires Way(w, b, s, Free(p)) && id !in w.ids
    ensures var r := Next(w, Handler(b, CreateRow(id, Stored)));
            Stands(r, b) && r.browsers[b].stage == Created(p, id) && r.browsers[b].ticket.server == s
  {
  }

  lemma PutIn(w: World, b: nat, s: Server)
    requires Stands(w, b) && w.browsers[b].stage.Created? && w.browsers[b].ticket.server == s
    ensures Busy(Next(w, Handler(b, Insert)).hub, s)
  {
    var r := Next(w, Handler(b, Insert));
    assert w.browsers[b].stage.id in r.hub.sessions && r.hub.sessions[w.browsers[b].stage.id].server == s;
  }

  lemma OpensAfresh(events: seq<Event>, s: Server) returns (more: seq<Event>)
    requires s !in Run(events).active
    ensures Busy(Run(events + more).hub, s)
  {
    hide Run, Next, Way, Inv;
    var b, p;
    more, b, p := TicketFor(events, s);
    var w := Run(events + more);
    Admitted(w, b, s, p);
    more := AndThen(events, more, Handler(b, Admit));
    LookedUp(Run(events + more), b, s, p);
    more := AndThen(events, more, Handler(b, LookUp));
    RunKeeps(events + more);
    NotBusy(Run(events + more), b, s, p);
    more := AndThen(events, more, Handler(b, CheckFree));
    var id := Fresh(Run(events + more).ids);
    RowMade(Run(events + more), b, s, p, id);
    more := AndThen(events, more, Handler(b, CreateRow(id, Stored)));
    PutIn(Run(events + more), b, s);
    more := AndThen(events, more, Handler(b, Insert));
  }

  function Left(phase: Phase): nat {
    match phase
    case ToNotify => 3
    case ToHangUp => 2
    case ToFreeRow => 1
  }

  /** The goroutine that ends a session goes through to a row that is freed. */
  lemma {:induction false} EndsAndFrees(events: seq<Event>, id: SessionId) returns (more: seq<Event>)
    requires id in Run(events).ending && id in Run(events).started
    ensures Run(events).started[id].session.server !in Run(events + more).active
    decreases Left(Run(events).ending[id])
  {
    hide Run, Next, Inv;
    var w := Run(events);
    RunKeeps(events);
    EndingStands(w, id);
    var act := if w.ending[id] == ToNotify then WriteClose(false)
        else if w.ending[id] == ToHangUp then HangUp else FreeRow(true);
    RunExtends(events, Ending(id, act));
    if act == FreeRow(true) {
      RowFreedOrStuck(events, id, true);
      more := [Ending(id, act)];
    } else {
      NextPhase(w, id, act);
      var rest := EndsAndFrees(events + [Ending(id, act)], id);
      more := [Ending(id, act)] + rest;
      assert events + more == events + [Ending(id, act)] + rest;
    }
  }

  lemma EndingStands(w: World, id: SessionId)
    requires Inv(w) && id in w.ending
    ensures id in w.started && Stands(w, w.started[id].browser)
  {
    hide TicketInv, RegistryInv, RowInv, RelayInv, TalkInv;
    SessionFacts(w);
    assert OpeningRow(w, id, w.started[id]);
  }

  lemma NextPhase(w: World, id: SessionId, act: EndStep)
    requires id in w.ending && id in w.started && Stands(w, w.started[id].browser)
    requires (act == WriteClose(false) && w.ending[id] == ToNotify) || (act == HangUp && w.ending[id] == ToHangUp)
    ensures var r := Next(w, Ending(id, act));
            id in r.ending && r.started == w.started && Left(r.ending[id]) < Left(w.ending[id])
  {
  }

  /** The active row is a session's in the hub, one that is being ended, or one about to be inserted. */
  lemma RowOfServer(w: World, s: Server)
    requires Inv(w) && s in w.active && !Stuck(w, s)
    ensures || Busy(w.hub, s)
            || (w.active[s] in w.ending && w.active[s] in w.started && w.started[w.active[s]].session.server == s)
            || exists i: nat :: AboutToOpen(w, i, s)
  {
    hide TicketInv, RegistryInv, RelayInv, TalkInv;
    var id := w.active[s];
    SessionFacts(w);
    hide SessionInv;
    if InUse(w, id) {
      assert HoldsRow(w, w.started[id].session.server, id);
    } else {
      var i :| 0 <= i < |w.browsers| && w.browsers[i].stage.Created? && w.browsers[i].stage.id == id;
      assert CreatedRow(w, w.browsers[i]);
      assert AboutToOpen(w, i, s);
    }
  }

  ghost predicate AboutToOpen(w: World, i: nat, s: Server) {
    Stands(w, i) && w.browsers[i].stage.Created? && w.browsers[i].ticket.server == s
  }

  lemma FreeCanOpen(events: seq<Event>, s: Server) returns (more: seq<Event>)
    requires !Stuck(Run(events), s)
    ensures Busy(Run(events + more).hub, s)
  {
    hide Run, Next, Inv, Busy, Stuck;
    var w := Run(events);
    RunKeeps(events);
    if s !in w.active {
      more := OpensAfresh(events, s);
    } else {
      RowOfServer(w, s);
      if Busy(w.hub, s) {
        more := [];
        assert events + more == events;
      } else if i: nat :| AboutToOpen(w, i, s) {
        more := [Handler(i, Insert)];
        RunExtends(events, Handler(i, Insert));
        PutIn(w, i, s);
      } else {
        var freeing := EndsAndFrees(events, w.active[s]);
        var opening := OpensAfresh(events + freeing, s);
        more := freeing + opening;
        assert events + more == events + freeing + opening;
      }
    }
  }

  /** A server can have a session in some continuation of a run if and only if it is not stuck. */
  lemma SessionPossibleExactly(events: seq<Event>, s: Server)
    ensures (exists more :: Busy(Run(events + more).hub, s)) <==> !Stuck(Run(events), s)
  {
    hide Run, Stuck;
    if Stuck(Run(events), s) {
      forall more ensures !Busy(Run(events + more).hub, s) { StuckForever(events, more, s); }
    } else {
      var more := FreeCanOpen(events, s);
    }
  }
}
