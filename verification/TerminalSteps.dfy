/** What becomes of one browser handler when nothing comes in between, and whom the end of a session
is told to.
*/
module TerminalSteps {
  import opened TerminalHub
  import opened TerminalProofs
  import T = TerminalTheorems

  // ----- one handler alone -----

  /** The steps of a browser handler, number `b`, up to the loop. */
  function Opening(token: Token, b: nat, id: SessionId): seq<Event> {
    [Redeem(token), Handler(b, Admit), Handler(b, LookUp), Handler(b, CheckFree), Handler(b, CreateRow(id, Stored)),
     Handler(b, Insert), Handler(b, WriteStart(true))]
  }

  function After(w: World, events: seq<Event>): World {
    if events == [] then w else Next(After(w, events[..|events| - 1]), events[|events| - 1])
  }

  lemma {:induction false} RunAfter(events: seq<Event>, more: seq<Event>)
    ensures Run(events + more) == After(Run(events), more)
  {
    hide Run, Next;
    if more == [] {
      assert events + more == events;
    } else {
      var front, e := more[..|more| - 1], more[|more| - 1];
      RunAfter(events, front);
      T.RunExtends(events + front, e);
      assert events + more == (events + front) + [e];
    }
  }

  lemma AfterSteps(w: World, token: Token, b: nat, id: SessionId)
    ensures After(w, Opening(token, b, id)) == Rest(Next(Next(w, Redeem(token)), Handler(b, Admit)), b, id)
  {
    hide Next;
    var all := Opening(token, b, id);
    AfterOne(w, all, 0);
    AfterOne(w, all, 1);
    AfterOne(w, all, 2);
    AfterOne(w, all, 3);
    AfterOne(w, all, 4);
    AfterOne(w, all, 5);
    AfterOne(w, all, 6);
    assert all[..7] == all;
  }

  lemma AfterOne(w: World, all: seq<Event>, i: nat)
    requires i < |all|
    ensures After(w, all[..i + 1]) == Next(After(w, all[..i]), all[i])
    ensures After(w, all[..0]) == w
  {
    assert all[..i + 1][..i] == all[..i];
  }

  /** What follows the admission. */
  function Rest(w: World, b: nat, id: SessionId): World {
    var free := Next(Next(w, Handler(b, LookUp)), Handler(b, CheckFree));
    Next(Next(Next(free, Handler(b, CreateRow(id, Stored))), Handler(b, Insert)), Handler(b, WriteStart(true)))
  }

  /** A handler that has returned, or has not begun, does nothing more. */
  lemma Idle(w: World, b: nat, step: HandlerStep)
    requires !Stands(w, b) || w.browsers[b].stage.Returned?
    ensures Next(w, Handler(b, step)) == w
  {
  }

  lemma RestIdle(w: World, b: nat, id: SessionId)
    requires !Stands(w, b) || w.browsers[b].stage.Returned?
    ensures Rest(w, b, id) == w
  {
    Idle(w, b, LookUp);
    Idle(w, b, CheckFree);
    Idle(w, b, CreateRow(id, Stored));
    Idle(w, b, Insert);
    Idle(w, b, WriteStart(true));
    hide Next;
  }

  /** The server has a connection in the hub that is not closed, no session and no active row. */
  ghost predicate Ready(w: World, server: Server) {
    && server in w.hub.agents && w.hub.agents[server] in w.agents && !w.agents[w.hub.agents[server]].closed
    && server !in w.active && forall s :: s in w.hub.sessions ==> w.hub.sessions[s].server != server
  }

  /** Its session is in the hub, was announced to the agent last and is being relayed. */
  ghost predicate Open(r: World, w: World, b: nat, ticket: Ticket, id: SessionId) {
    && Stands(r, b) && r.browsers[b].stage == Relaying(id) && r.now == w.now
    && ticket.server in w.hub.agents
    && var p := w.hub.agents[ticket.server];
    && r.hub.sessions == w.hub.sessions[id := Session(ticket.server, ticket.user, p, w.now)]
    && p in w.agents && r.agents == w.agents[p := w.agents[p].(down := w.agents[p].down + [Start(id)])]
    && r.active == w.active[ticket.server := id]
  }

  lemma RestOpens(w: World, b: nat, id: SessionId)
    requires Stands(w, b) && w.browsers[b].stage == Admitted && id !in w.ids
    ensures var r, server := Rest(w, b, id), w.browsers[b].ticket.server;
            && (Stands(r, b) && r.browsers[b].stage == Relaying(id) <==> Ready(w, server))
            && (Ready(w, server) ==> Open(r, w, b, w.browsers[b].ticket, id))
  {
    var server := w.browsers[b].ticket.server;
    var found := Next(w, Handler(b, LookUp));
    if server !in w.hub.agents {
      StopsAfterLookUp(w, b, id);
    } else {
      var p := w.hub.agents[server];
      assert found == At(w, b, Found(p));
      var free := Next(found, Handler(b, CheckFree));
      if Busy(w.hub, server) {
        assert free == At(found, b, Returned);
        StopsAfterCheck(w, b, id, free);
      } else {
        assert free == At(found, b, Free(p));
        hide Busy;
        LastSteps(free, b, id, p);
        NotBusy(w, server);
        hide Next;
        assert free.browsers[b].ticket == w.browsers[b].ticket;
      }
    }
  }

  lemma NotBusy(w: World, server: Server)
    ensures Busy(w.hub, server) <==> !forall s :: s in w.hub.sessions ==> w.hub.sessions[s].server != server
  {
  }

  lemma StopsAfterLookUp(w: World, b: nat, id: SessionId)
    requires Stands(w, b) && w.browsers[b].stage == Admitted && w.browsers[b].ticket.server !in w.hub.agents
    ensures Stands(Rest(w, b, id), b) && Rest(w, b, id).browsers[b].stage == Returned
  {
    var found := Next(w, Handler(b, LookUp));
    Idle(found, b, CheckFree);
    Idle(found, b, CreateRow(id, Stored));
    Idle(found, b, Insert);
    Idle(found, b, WriteStart(true));
  }

  lemma StopsAfterCheck(w: World, b: nat, id: SessionId, free: World)
    requires Stands(free, b) && free.browsers[b].stage == Returned
    requires free == Next(Next(w, Handler(b, LookUp)), Handler(b, CheckFree))
    ensures Rest(w, b, id) == free
  {
    Idle(free, b, CreateRow(id, Stored));
    Idle(free, b, Insert);
    Idle(free, b, WriteStart(true));
    hide Next;
  }

  /** The row, the insert and the start message. */
  lemma LastSteps(w: World, b: nat, id: SessionId, p: Peer)
    requires Stands(w, b) && w.browsers[b].stage == Free(p) && id !in w.ids
    requires var server := w.browsers[b].ticket.server; server in w.hub.agents && w.hub.agents[server] == p
    ensures var stored := Next(w, Handler(b, CreateRow(id, Stored)));
            var r := Next(Next(stored, Handler(b, Insert)), Handler(b, WriteStart(true)));
            var server := w.browsers[b].ticket.server;
            var ready := server !in w.active && p in w.agents && !w.agents[p].closed;
            && (Stands(r, b) && r.browsers[b].stage == Relaying(id) <==> ready)
            && (ready ==> Open(r, w, b, w.browsers[b].ticket, id))
  {
    var server := w.browsers[b].ticket.server;
    var stored := Next(w, Handler(b, CreateRow(id, Stored)));
    if server in w.active {
      assert stored == w;
      StillFree(w, b);
    } else {
      assert stored == HoldRow(At(w, b, Created(p, id)), server, id);
      hide Next;
      InsertsAndStarts(stored, b, id, p);
    }
  }

  lemma StillFree(w: World, b: nat)
    requires Stands(w, b) && w.browsers[b].stage.Free?
    ensures Next(w, Handler(b, Insert)) == w && Next(w, Handler(b, WriteStart(true))) == w
  {
  }

  lemma InsertsAndStarts(w: World, b: nat, id: SessionId, p: Peer)
    requires Stands(w, b) && w.browsers[b].stage == Created(p, id)
    ensures var r := Next(Next(w, Handler(b, Insert)), Handler(b, WriteStart(true)));
            var ticket := w.browsers[b].ticket;
            && (Stands(r, b) && r.browsers[b].stage == Relaying(id) <==> p in w.agents && !w.agents[p].closed)
            && (p in w.agents && !w.agents[p].closed ==>
                  && r.now == w.now && r.active == w.active
                  && r.hub.sessions == w.hub.sessions[id := Session(ticket.server, ticket.user, p, w.now)]
                  && r.agents == w.agents[p := w.agents[p].(down := w.agents[p].down + [Start(id)])])
  {
    var inserted := Next(w, Handler(b, Insert));
    assert inserted.browsers[b].stage == Inserted(id) && inserted.started[id].session.agent == p;
    assert inserted.agents == w.agents && inserted.active == w.active && inserted.now == w.now;
  }

  /** A browser that nothing comes in between of gets its session if and only if its ticket is in the hub
      and has not expired, and its server has an open connection, no session and no active row; the
      session is then of the ticket's server and user and over that connection. */
  lemma SessionOpensExactly(events: seq<Event>, token: Token, id: SessionId)
    requires id !in Run(events).ids
    ensures var w := Run(events); var b := |w.browsers|; var r := Run(events + Opening(token, b, id));
            && (Stands(r, b) && r.browsers[b].stage == Relaying(id) <==>
                token in w.hub.tickets && w.now <= w.hub.tickets[token].expires
                && Ready(w, w.hub.tickets[token].server))
            && (Stands(r, b) && r.browsers[b].stage == Relaying(id) ==> Open(r, w, b, w.hub.tickets[token], id))
  {
    var w := Run(events);
    var b := |w.browsers|;
    RunAfter(events, Opening(token, b, id));
    AfterSteps(w, token, b, id);
    hide Run, After, Rest, Ready, Open;
    var taken := Next(w, Redeem(token));
    if token !in w.hub.tickets {
      Idle(w, b, Admit);
      RestIdle(w, b, id);
    } else {
      var ticket := w.hub.tickets[token];
      assert taken.browsers == w.browsers + [Browser(token, ticket, w.now, Taken, false)];
      var admitted := Next(taken, Handler(b, Admit));
      if ticket.expires < w.now {
        assert admitted == At(taken, b, Returned);
        RestIdle(admitted, b, id);
      } else {
        assert admitted == taken.(browsers := taken.browsers[b := taken.browsers[b].(stage := Admitted)]);
        RestOpens(admitted, b, id);
        hide Next;
        SameReady(w, admitted, Rest(admitted, b, id), b, ticket, id);
      }
    }
  }

  lemma SameReady(w: World, v: World, r: World, b: nat, ticket: Ticket, id: SessionId)
    requires v.hub == w.hub.(tickets := v.hub.tickets) && v.agents == w.agents && v.active == w.active && v.now == w.now
    ensures Ready(v, ticket.server) <==> Ready(w, ticket.server)
    ensures Open(r, v, b, ticket, id) <==> Open(r, w, b, ticket, id)
  {
  }

  // ----- who is told of the end -----

  /** A session that ends because its browser is done or its time is over is to be closed at the agent;
      one that its agent or connection ended, or that could not be started, is not. */
  lemma CloseOwedExactly(events: seq<Event>, e: Event, id: SessionId)
    requires id in Run(events).hub.sessions && id !in Run(events + [e]).hub.sessions
    ensures var r := Run(events + [e]);
            && id in r.ending && r.ending[id] != ToFreeRow
            && (r.ending[id] == ToNotify <==> e == Ending(id, TimeOut) || (e.Handler? && e.step != WriteStart(false)))
  {
    var w := Run(events);
    RunKeeps(events);
    T.RunExtends(events, e);
    hide Run, TicketInv, RowInv, RelayInv, TalkInv, SessionInv, RegistryInv, Handled, Moved, Acted, CanHandle, CanMove,
        CanAct;
    SessionFacts(w);
    match e
    case Handler(b, step) => HandlerOwes(w, b, step, id);
    case Connection(p, move) => ConnectionOwes(w, p, move, id);
    case Ending(x, act) => ActOwes(w, x, act, id);
    case _ =>
  }

  lemma HandlerOwes(w: World, b: nat, step: HandlerStep, id: SessionId)
    requires SessionInv(w) && CanHandle(w, b, step) && id in w.hub.sessions && id !in w.hub.ended
             && id !in Handled(w, b, step).hub.sessions
    ensures var r := Handled(w, b, step);
            id in r.ending && r.ending[id] == (if step == WriteStart(false) then ToHangUp else ToNotify)
  {
    hide SessionInv, Handled;
    if Leaves(w, b, step) {
      LeaveShape(w, b, step);
      OwnSession(w, b);
    } else if Prepares(w, b, step) {
      PreparedShape(w, b, step);
    } else {
      RestShape(w, b, step);
      StaysInHub(w, b, step, id);
    }
  }

  lemma StaysInHub(w: World, b: nat, step: HandlerStep, id: SessionId)
    requires CanHandle(w, b, step) && id in w.hub.sessions
    requires step == Insert || step == WriteStart(true) || Handled(w, b, step) == w
    ensures id in Handled(w, b, step).hub.sessions
  {
  }

  lemma ConnectionOwes(w: World, p: Peer, move: AgentStep, id: SessionId)
    requires CanMove(w, p, move) && id in w.hub.sessions && id !in w.hub.ended
             && id !in Moved(w, p, move).hub.sessions
    ensures var r := Moved(w, p, move); id in r.ending && r.ending[id] == ToHangUp
  {
    hide Affected;
  }

  lemma ActOwes(w: World, x: SessionId, act: EndStep, id: SessionId)
    requires CanAct(w, x, act) && id in w.hub.sessions && id !in w.hub.ended
             && id !in Acted(w, x, act).hub.sessions
    ensures var r := Acted(w, x, act); act == TimeOut && x == id && id in r.ending && r.ending[id] == ToNotify
  {
  }

  /** The close is written to the session's own agent, as the next message after what it was sent before,
      unless its connection does not take it; only then is the browser closed, and only then the row freed. */
  lemma EndGoesOn(events: seq<Event>, id: SessionId, ok: bool)
    requires id in Run(events).ending && Run(events).ending[id] == ToNotify
    requires ok ==> Writable(Run(events), id)
    ensures var w := Run(events);
            var told := Run(events + [Ending(id, WriteClose(ok))]);
            var closed := Run(events + [Ending(id, WriteClose(ok)), Ending(id, HangUp)]);
            && id in w.started && w.started[id].browser < |closed.browsers| == |w.browsers|
            && var p := w.started[id].session.agent;
            && p in w.agents && p in told.agents && p in closed.agents
            && told.agents[p].down == w.agents[p].down + (if ok then [Close(id)] else [])
            && (!w.browsers[w.started[id].browser].closed ==> !told.browsers[w.started[id].browser].closed)
            && closed.browsers[w.started[id].browser].closed && closed.agents[p] == told.agents[p]
            && id in closed.ending && closed.ending[id] == ToFreeRow
            && !Enabled(w, Ending(id, HangUp)) && !Enabled(w, Ending(id, FreeRow(true)))
            && !Enabled(told, Ending(id, FreeRow(true))) && Enabled(closed, Ending(id, FreeRow(true)))
  {
    hide Run, Inv, Next;
    var w := Run(events);
    RunKeeps(events);
    T.RunExtends(events, Ending(id, WriteClose(ok)));
    T.RunExtends(events + [Ending(id, WriteClose(ok))], Ending(id, HangUp));
    assert events + [Ending(id, WriteClose(ok))] + [Ending(id, HangUp)]
        == events + [Ending(id, WriteClose(ok)), Ending(id, HangUp)];
    EndingStarted(w, id);
    ClosesAndHangsUp(w, id, ok);
  }

  lemma ClosesAndHangsUp(w: World, id: SessionId, ok: bool)
    requires id in w.ending && w.ending[id] == ToNotify && (ok ==> Writable(w, id))
    requires id in w.started && w.started[id].browser < |w.browsers| && w.started[id].session.agent in w.agents
    ensures var told := Next(w, Ending(id, WriteClose(ok))); var closed := Next(told, Ending(id, HangUp));
            var p, b := w.started[id].session.agent, w.started[id].browser;
            && told.browsers == w.browsers && closed.agents == told.agents && closed.ending == w.ending[id := ToFreeRow]
            && told.ending == w.ending[id := ToHangUp] && closed.started == w.started
            && told.agents
               == w.agents[p := w.agents[p].(down := w.agents[p].down + (if ok then [Close(id)] else []))]
            && closed.browsers == w.browsers[b := w.browsers[b].(closed := true)]
  {
    var told := Next(w, Ending(id, WriteClose(ok)));
    assert w.agents[w.started[id].session.agent].down + [] == w.agents[w.started[id].session.agent].down;
    assert told.ending == w.ending[id := ToHangUp] && told.started == w.started;
  }

  lemma EndingStarted(w: World, id: SessionId)
    requires Inv(w) && id in w.ending
    ensures id in w.started && w.started[id].browser < |w.browsers| && w.started[id].session.agent in w.agents
  {
    hide TicketInv, RegistryInv, RowInv, RelayInv, TalkInv;
    assert OpeningRow(w, id, w.started[id]);
  }
}
