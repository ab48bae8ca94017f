/** Every step keeps the invariant of the terminal hub, so it holds after every run. */
module TerminalProofs {
  import opened TerminalHub

  // ----- what a step can touch -----

  /** Connections keep their servers, and nothing but what is written changes about them. */
  ghost predicate OnlyWritten(w: World, r: World) {
    && r.hub.agents == w.hub.agents && r.agents.Keys == w.agents.Keys
    && (forall p :: p in w.agents ==> r.agents[p] == w.agents[p].(down := r.agents[p].down))
  }

  /** A handler's step: its own record, its own session, its server's row, its agent's messages. */
  ghost predicate HandlerShape(w: World, r: World, b: nat)
    requires Stands(w, b)
  {
    && r.hub.tickets == w.hub.tickets && r.issued == w.issued && r.now == w.now && OnlyWritten(w, r)
    && |r.browsers| == |w.browsers| && r.browsers == w.browsers[b := r.browsers[b]]
    && r.browsers[b] == w.browsers[b].(stage := r.browsers[b].stage, admittedAt := r.browsers[b].admittedAt)
    && (r.started == w.started
        || (w.browsers[b].stage.Created? && w.browsers[b].stage.id in r.started
            && r.started == w.started[w.browsers[b].stage.id := r.started[w.browsers[b].stage.id]]))
    && w.ids <= r.ids
  }

  lemma WriteShape(w: World, id: SessionId, m: Message)
    requires Writable(w, id)
    ensures Write(w, id, m) == w.(agents := Write(w, id, m).agents) && OnlyWritten(w, Write(w, id, m))
  {
  }

  predicate Prepares(w: World, b: nat, step: HandlerStep)
    requires CanHandle(w, b, step)
  {
    step.Admit? || step.LookUp? || step.CheckFree? || step.CreateRow?
        || (step.Return? && !w.browsers[b].stage.Relaying?)
  }

  ghost predicate Early(stage: Stage) {
    stage.Taken? || stage.Admitted? || stage.Found? || stage.Free? || stage.Created?
  }

  /** Before there is a session only the handler's own record and its server's row change. */
  lemma PreparedShape(w: World, b: nat, step: HandlerStep)
    requires CanHandle(w, b, step) && Prepares(w, b, step)
    ensures var r := Handled(w, b, step);
            && r == w.(browsers := w.browsers[b := r.browsers[b]], active := r.active, ids := r.ids)
            && HandlerShape(w, r, b) && Early(w.browsers[b].stage)
            && (Early(r.browsers[b].stage) || r.browsers[b].stage.Returned?)
            && (!step.CreateRow? ==> r.active == w.active && r.ids == w.ids && !r.browsers[b].stage.Created?)
  {
    hide Busy, HandlerShape;
    if step.CreateRow? { RowShape(w, b, step.id, step.outcome); } else { StageShape(w, b, step); }
  }

  lemma RowShape(w: World, b: nat, id: SessionId, outcome: RowOutcome)
    requires CanHandle(w, b, CreateRow(id, outcome))
    ensures var r := Handled(w, b, CreateRow(id, outcome));
            && r == w.(browsers := w.browsers[b := r.browsers[b]], active := r.active, ids := r.ids)
            && HandlerShape(w, r, b)
            && (Early(r.browsers[b].stage) || r.browsers[b].stage.Returned?)
  {
  }

  lemma StageShape(w: World, b: nat, step: HandlerStep)
    requires CanHandle(w, b, step) && Prepares(w, b, step) && !step.CreateRow?
    ensures var r := Handled(w, b, step);
            && r == w.(browsers := w.browsers[b := r.browsers[b]]) && HandlerShape(w, r, b)
            && (Early(r.browsers[b].stage) || r.browsers[b].stage.Returned?) && !r.browsers[b].stage.Created?
  {
    hide Busy;
  }

  /** A handler that leaves its loop, or whose start failed, ends its session and returns. */
  predicate Leaves(w: World, b: nat, step: HandlerStep)
    requires CanHandle(w, b, step)
  {
    || step == WriteStart(false)
    || (step.Return? && w.browsers[b].stage.Relaying?)
    || (step.Relay? && !(step.ok && w.browsers[b].stage.id !in w.hub.ended))
  }

  lemma LeaveShape(w: World, b: nat, step: HandlerStep)
    requires CanHandle(w, b, step) && Leaves(w, b, step)
    ensures Handled(w, b, step) == End(At(w, b, Returned), w.browsers[b].stage.id, !step.WriteStart?)
    ensures HandlerShape(w, Handled(w, b, step), b)
  {
  }

  lemma RestShape(w: World, b: nat, step: HandlerStep)
    requires CanHandle(w, b, step) && !Leaves(w, b, step) && !Prepares(w, b, step)
    ensures step == Insert || step == WriteStart(true) || Handled(w, b, step) == w
    ensures HandlerShape(w, Handled(w, b, step), b)
  {
    if step == WriteStart(true) {
      var id := w.browsers[b].stage.id;
      WriteShape(At(w, b, Relaying(id)), id, Start(id));
    }
    hide Write;
  }

  lemma HandledShape(w: World, b: nat, step: HandlerStep)
    requires CanHandle(w, b, step)
    ensures HandlerShape(w, Handled(w, b, step), b)
  {
    hide HandlerShape, Handled;
    if Prepares(w, b, step) { PreparedShape(w, b, step); }
    else if Leaves(w, b, step) { LeaveShape(w, b, step); }
    else { RestShape(w, b, step); }
  }

  /** An agent handler's step. */
  ghost predicate ConnectionShape(w: World, r: World) {
    && r.hub.tickets == w.hub.tickets && r.issued == w.issued && r.browsers == w.browsers && r.started == w.started
    && r.active == w.active && r.ids == w.ids
    && (forall p :: p in w.agents ==>
        p in r.agents && r.agents[p].server == w.agents[p].server && r.agents[p].down == w.agents[p].down)
  }

  lemma MovedShape(w: World, p: Peer, move: AgentStep)
    requires CanMove(w, p, move)
    ensures ConnectionShape(w, Moved(w, p, move))
  {
    hide Affected;
  }

  /** A step of `endSession` or of the timer. */
  ghost predicate EndingShape(w: World, r: World) {
    && r.hub.tickets == w.hub.tickets && r.issued == w.issued && r.started == w.started && r.ids == w.ids
    && OnlyWritten(w, r)
    && |r.browsers| == |w.browsers|
    && (forall i :: 0 <= i < |w.browsers| ==> r.browsers[i] == w.browsers[i].(closed := r.browsers[i].closed))
  }

  lemma ActedShape(w: World, id: SessionId, act: EndStep)
    requires CanAct(w, id, act)
    ensures EndingShape(w, Acted(w, id, act))
  {
    if act == WriteClose(true) { WriteShape(w.(ending := w.ending[id := ToHangUp]), id, Close(id)); }
    hide Write, HoldsRow;
  }

  // ----- what the invariant says at a glance -----

  lemma SessionFacts(w: World)
    requires SessionInv(w)
    ensures forall id :: id in w.started ==> (id in w.hub.sessions <==> id !in w.hub.ended)
    ensures forall id :: id in w.hub.sessions ==> id in w.started && w.started[id].session == w.hub.sessions[id]
    ensures w.hub.ended <= w.started.Keys && w.ending.Keys <= w.hub.ended
  {
    hide OpeningRow, HandlerRow;
  }

  lemma MessageAt(w: World, p: Peer, j: nat)
    requires TalkInv(w) && p in w.agents && j < |w.agents[p].down|
    ensures MessageRow(w, p, j)
  {
    hide MessageRow, Speaks, Last;
  }

  lemma SpeakerLast(w: World, id: SessionId)
    requires TalkInv(w) && Speaks(w, id)
    ensures Last(w, id)
  {
    hide MessageRow, Speaks, Last;
  }

  // ----- tickets -----

  /** No ticket changes hands, and connections stay with their servers. */
  ghost predicate SameTickets(w: World, r: World) {
    && r.hub.tickets == w.hub.tickets && r.issued == w.issued && |r.browsers| == |w.browsers|
    && (forall i :: 0 <= i < |w.browsers| ==> r.browsers[i].token == w.browsers[i].token)
    && (forall p :: p in w.agents ==> p in r.agents && r.agents[p].server == w.agents[p].server)
  }

  lemma TicketFrame(w: World, r: World)
    requires TicketInv(w) && SameTickets(w, r)
    requires forall i :: 0 <= i < |w.browsers| ==>
             r.browsers[i].(closed := w.browsers[i].closed) == w.browsers[i] || BrowserRow(r, r.browsers[i])
    ensures TicketInv(r)
  {
    forall i | 0 <= i < |r.browsers| ensures BrowserRow(r, r.browsers[i]) { assert BrowserRow(w, w.browsers[i]); }
  }

  lemma NewTickets(w: World, e: Event)
    requires TicketInv(w) && Enabled(w, e) && (e.Redeem? || e.CreateTicket?)
    ensures TicketInv(Next(w, e))
  {
    hide Handled, Moved, Acted;
  }

  /** The ticket of a handler that moves on was issued and unexpired, its agent of the ticket's server. */
  lemma HandledBrowser(w: World, b: nat, step: HandlerStep)
    requires CanHandle(w, b, step) && BrowserRow(w, w.browsers[b])
    requires forall s :: s in w.hub.agents ==> w.hub.agents[s] in w.agents && w.agents[w.hub.agents[s]].server == s
    ensures BrowserRow(Handled(w, b, step), Handled(w, b, step).browsers[b])
  {
    if Prepares(w, b, step) { PreparedBrowser(w, b, step); }
    else {
      HandledShape(w, b, step);
      if Leaves(w, b, step) {
        LeaveShape(w, b, step); EndShape(At(w, b, Returned), w.browsers[b].stage.id, !step.WriteStart?); hide End;
      }
      hide Write;
    }
  }

  lemma PreparedBrowser(w: World, b: nat, step: HandlerStep)
    requires CanHandle(w, b, step) && Prepares(w, b, step) && BrowserRow(w, w.browsers[b])
    requires forall s :: s in w.hub.agents ==> w.hub.agents[s] in w.agents && w.agents[w.hub.agents[s]].server == s
    ensures BrowserRow(Handled(w, b, step), Handled(w, b, step).browsers[b])
  {
    hide Busy, HoldsRow, HandlerShape;
    if step.CreateRow? { RowShape(w, b, step.id, step.outcome); } else { StageShape(w, b, step); }
  }

  lemma HandledTickets(w: World, b: nat, step: HandlerStep)
    requires TicketInv(w) && CanHandle(w, b, step)
    requires forall s :: s in w.hub.agents ==> w.hub.agents[s] in w.agents && w.agents[w.hub.agents[s]].server == s
    ensures TicketInv(Handled(w, b, step))
  {
    assert BrowserRow(w, w.browsers[b]);
    hide TicketInv, BrowserRow, Handled, CanHandle;
    HandledShape(w, b, step);
    HandledBrowser(w, b, step);
    TicketFrame(w, Handled(w, b, step));
  }

  lemma TicketsKeep(w: World, e: Event)
    requires TicketInv(w) && RegistryInv(w) && Enabled(w, e)
    ensures TicketInv(Next(w, e))
  {
    assert forall s :: s in w.hub.agents ==> w.hub.agents[s] in w.agents && w.agents[w.hub.agents[s]].server == s;
    hide RegistryInv, TicketInv, Handled, Moved, Acted, BrowserRow, CanHandle, CanMove, CanAct;
    match e
    case Wait(_) => WaitTickets(w, e);
    case CreateTicket(_, _, _) => NewTickets(w, e);
    case Redeem(_) => NewTickets(w, e);
    case Handler(b, step) => HandledTickets(w, b, step);
    case Connection(p, move) => MovedShape(w, p, move); TicketFrame(w, Next(w, e));
    case Ending(id, act) => ActedShape(w, id, act); TicketFrame(w, Next(w, e));
  }

  lemma WaitTickets(w: World, e: Event)
    requires TicketInv(w) && e.Wait?
    ensures TicketInv(Next(w, e))
  {
    hide TicketInv, BrowserRow;
    TicketFrame(w, Next(w, e));
  }

  // ----- the registry -----

  /** The scans of a step that starts no session but perhaps one. */
  lemma ScanKept(w: World, r: World, p: Peer, a: Agent)
    requires ScanRow(w, p, a) && forall id :: id in w.started ==> id in r.started && r.started[id] == w.started[id]
    ensures ScanRow(r, p, a)
  {
  }

  lemma RegistryFrame(w: World, r: World)
    requires RegistryInv(w) && OnlyWritten(w, r)
    requires forall id :: id in w.started ==> id in r.started && r.started[id] == w.started[id]
    ensures RegistryInv(r)
  {
    forall p | p in r.agents ensures ScanRow(r, p, r.agents[p]) {
      assert ScanRow(w, p, w.agents[p]);
      ScanKept(w, r, p, w.agents[p]);
    }
    hide ScanRow;
  }

  /** A step of one connection. */
  lemma OneConnection(w: World, r: World, p: Peer)
    requires RegistryInv(w) && r.started == w.started && p in r.agents && ScanRow(r, p, r.agents[p])
    requires r.agents == w.agents[p := r.agents[p]] && (r.agents[p].unregistered ==> r.agents[p].closed)
    requires forall s :: s in r.hub.agents ==>
      r.hub.agents[s] in r.agents && r.agents[r.hub.agents[s]].server == s && !r.agents[r.hub.agents[s]].unregistered
    ensures RegistryInv(r)
  {
    forall q | q in r.agents ensures ScanRow(r, q, r.agents[q]) {
      if q != p { assert ScanRow(w, q, w.agents[q]); ScanKept(w, r, q, w.agents[q]); }
    }
    hide ScanRow;
  }

  lemma ScanKnown(w: World, p: Peer)
    requires p in w.agents
    requires forall id :: id in w.hub.sessions ==> id in w.started && w.started[id].session == w.hub.sessions[id]
    ensures forall id :: id in Affected(w.hub, w.agents[p].server, p) ==>
            id in w.started && w.started[id].session.agent == p
  {
  }

  lemma MovedRegistry(w: World, p: Peer, move: AgentStep)
    requires RegistryInv(w) && CanMove(w, p, move)
    requires forall id :: id in w.hub.sessions ==> id in w.started && w.started[id].session == w.hub.sessions[id]
    ensures RegistryInv(Moved(w, p, move))
  {
    var r := Moved(w, p, move);
    assert p in w.agents ==> ScanRow(w, p, w.agents[p]);
    match move
    case Unregister => ScanKnown(w, p); hide Affected; OneConnection(w, r, p);
    case Dispatch(kind, id) => EndShape(w, id, false); hide RegistryInv, End; RegistryFrame(w, r);
    case EndAffected(id) => EndShape(w, id, false); hide End; OneConnection(w, r, p);
    case Connect(_) => OneConnection(w, r, p);
    case CloseConnection => OneConnection(w, r, p);
  }

  lemma RegistryKeeps(w: World, e: Event)
    requires RegistryInv(w) && SessionInv(w) && RowInv(w) && Enabled(w, e)
    ensures RegistryInv(Next(w, e))
  {
    hide RegistryInv, SessionInv, RowInv, Handled, Moved, Acted, CanHandle, CanMove, CanAct;
    SessionFacts(w);
    match e
    case Handler(b, step) =>
      Standing(w, b, step); CreatedIsNew(w, b); HandledShape(w, b, step); RegistryFrame(w, Next(w, e));
    case Connection(p, move) => MovedRegistry(w, p, move);
    case Ending(id, act) => ActedShape(w, id, act); RegistryFrame(w, Next(w, e));
    case _ => RegistryFrame(w, Next(w, e));
  }

  lemma ScansStarted(w: World)
    requires RegistryInv(w)
    ensures forall p, id :: p in w.agents && id in w.agents[p].toEnd ==>
              w.agents[p].unregistered && w.agents[p].closed && id in w.started && w.started[id].session.agent == p
  {
    forall p, id | p in w.agents && id in w.agents[p].toEnd
      ensures w.agents[p].unregistered && w.agents[p].closed && id in w.started && w.started[id].session.agent == p
    {
      assert ScanRow(w, p, w.agents[p]);
    }
  }

  lemma Standing(w: World, b: nat, step: HandlerStep)
    requires CanHandle(w, b, step)
    ensures Stands(w, b)
  {
  }

  // ----- sessions -----

  /** Steps that leave the sessions, and what handlers know of them, as they are. */
  ghost predicate SameSessions(w: World, r: World) {
    && r.hub.sessions == w.hub.sessions && r.hub.ended == w.hub.ended && r.started == w.started
    && r.ending.Keys <= w.ending.Keys
    && (forall p :: p in w.agents ==> p in r.agents && r.agents[p].server == w.agents[p].server)
  }

  ghost predicate SameHandler(a: Browser, b: Browser) {
    a.stage == b.stage && a.ticket == b.ticket && a.admittedAt == b.admittedAt
  }

  lemma SessionFrame(w: World, r: World)
    requires SessionInv(w) && SameSessions(w, r) && |w.browsers| <= |r.browsers|
    requires forall i :: 0 <= i < |w.browsers| ==> SameHandler(w.browsers[i], r.browsers[i])
    requires forall i :: |w.browsers| <= i < |r.browsers| ==> r.browsers[i].stage.Taken?
    ensures SessionInv(r)
  {
    forall id | id in r.started ensures OpeningRow(r, id, r.started[id]) { assert OpeningRow(w, id, w.started[id]); }
    forall i | 0 <= i < |r.browsers| ensures HandlerRow(r, i) {
      if i < |w.browsers| { assert HandlerRow(w, i); }
    }
  }

  /** A handler without a session moves on without one. */
  lemma EarlyStep(w: World, r: World, b: nat)
    requires SessionInv(w) && SameSessions(w, r)
    requires Stands(w, b) && Stands(r, b) && Early(w.browsers[b].stage) && r.browsers == w.browsers[b := r.browsers[b]]
    requires Early(r.browsers[b].stage) || r.browsers[b].stage.Returned?
    ensures SessionInv(r)
  {
    EarlyOpenings(w, r, b);
    hide OpeningRow;
    forall i | 0 <= i < |r.browsers| ensures HandlerRow(r, i) { assert HandlerRow(w, i); }
    hide HandlerRow;
  }

  lemma EarlyOpenings(w: World, r: World, b: nat)
    requires SessionInv(w) && SameSessions(w, r)
    requires Stands(w, b) && Stands(r, b) && Early(w.browsers[b].stage) && r.browsers == w.browsers[b := r.browsers[b]]
    ensures forall id :: id in r.started ==> OpeningRow(r, id, r.started[id])
  {
    hide HandlerRow;
    forall id | id in r.started ensures OpeningRow(r, id, r.started[id]) { assert OpeningRow(w, id, w.started[id]); }
  }

  lemma EndOpenings(w: World, r: World)
    requires SessionInv(w) && w.hub.ended <= r.hub.ended && r.started == w.started && r.browsers == w.browsers
             && r.agents == w.agents
    ensures forall id :: id in r.started ==> OpeningRow(r, id, r.started[id])
    ensures forall i :: 0 <= i < |r.browsers| ==> HandlerRow(r, i)
  {
    forall id | id in r.started ensures OpeningRow(r, id, r.started[id]) { assert OpeningRow(w, id, w.started[id]); }
    forall i | 0 <= i < |r.browsers| ensures HandlerRow(r, i) { assert HandlerRow(w, i); }
  }

  lemma EndSessions(w: World, id: SessionId, notify: bool)
    requires SessionInv(w) && id in w.started
    ensures SessionInv(End(w, id, notify))
  {
    hide OpeningRow, HandlerRow;
    EndOpenings(w, End(w, id, notify));
  }

  lemma EndShape(w: World, id: SessionId, notify: bool)
    ensures var r := End(w, id, notify);
            && r == w.(hub := w.hub.(sessions := r.hub.sessions, ended := w.hub.ended + {id}), ending := r.ending)
            && r.hub.sessions.Keys <= w.hub.sessions.Keys && r.ending.Keys <= w.ending.Keys + {id}
            && (forall x :: x in r.hub.sessions ==> r.hub.sessions[x] == w.hub.sessions[x])
  {
  }

  /** The handler of an ended session returns. */
  lemma ReturnSessions(w: World, b: nat)
    requires SessionInv(w) && Stands(w, b) && (w.browsers[b].stage.Relaying? || w.browsers[b].stage.Inserted?)
    requires w.browsers[b].stage.id in w.hub.ended
    ensures SessionInv(At(w, b, Returned))
  {
    var r := At(w, b, Returned);
    assert HandlerRow(w, b);
    forall id | id in r.started ensures OpeningRow(r, id, r.started[id]) { assert OpeningRow(w, id, w.started[id]); }
    forall i | 0 <= i < |r.browsers| ensures HandlerRow(r, i) { assert HandlerRow(w, i); }
  }

  /** `endSession` and the return that follows it, in the order of the code or the other. */
  lemma EndThenReturn(w: World, b: nat, notify: bool)
    requires SessionInv(w) && Stands(w, b) && (w.browsers[b].stage.Relaying? || w.browsers[b].stage.Inserted?)
    ensures SessionInv(End(At(w, b, Returned), w.browsers[b].stage.id, notify))
  {
    var id := w.browsers[b].stage.id;
    assert HandlerRow(w, b);
    EndSessions(w, id, notify);
    assert id in End(w, id, notify).hub.ended;
    hide SessionInv;
    ReturnSessions(End(w, id, notify), b);
  }

  lemma InsertOpening(w: World, b: nat)
    requires CanHandle(w, b, Insert) && BrowserRow(w, w.browsers[b])
    ensures var r := Handled(w, b, Insert); var id := w.browsers[b].stage.id;
            && OpeningRow(r, id, r.started[id]) && HandlerRow(r, b)
            && r == w.(hub := w.hub.(sessions := w.hub.sessions[id := r.started[id].session]),
                       started := w.started[id := r.started[id]],
                       browsers := w.browsers[b := w.browsers[b].(stage := Inserted(id))])
            && r.started[id].browser == b
  {
  }

  lemma InsertOthers(w: World, b: nat)
    requires SessionInv(w) && CanHandle(w, b, Insert)
    ensures var r := Handled(w, b, Insert);
            forall other :: other in w.started ==>
              w.started[other].browser != b && OpeningRow(r, other, w.started[other])
  {
    var r := Handled(w, b, Insert);
    hide HandlerRow;
    forall other | other in w.started
      ensures w.started[other].browser != b && OpeningRow(r, other, w.started[other])
    {
      assert OpeningRow(w, other, w.started[other]);
    }
  }

  lemma InsertSessions(w: World, b: nat)
    requires SessionInv(w) && CanHandle(w, b, Insert)
    requires BrowserRow(w, w.browsers[b]) && CreatedRow(w, w.browsers[b])
    ensures SessionInv(Handled(w, b, Insert))
  {
    var r := Handled(w, b, Insert);
    InsertOpening(w, b);
    hide BrowserRow, Handled;
    InsertOthers(w, b);
    hide OpeningRow;
    forall i | 0 <= i < |r.browsers| && i != b ensures HandlerRow(r, i) { assert HandlerRow(w, i); }
    hide HandlerRow;
    assert w.browsers[b].stage.id !in w.started;
    hide CreatedRow;
  }

  lemma StartSessions(w: World, b: nat)
    requires SessionInv(w) && CanHandle(w, b, WriteStart(true))
    ensures SessionInv(Handled(w, b, WriteStart(true)))
  {
    var r := Handled(w, b, WriteStart(true));
    assert HandlerRow(w, b);
    StartOpenings(w, b);
    hide OpeningRow;
    forall i | 0 <= i < |r.browsers| ensures HandlerRow(r, i) { assert HandlerRow(w, i); }
    hide HandlerRow;
  }

  lemma StartOpenings(w: World, b: nat)
    requires SessionInv(w) && CanHandle(w, b, WriteStart(true))
    ensures var r := Handled(w, b, WriteStart(true)); forall id :: id in r.started ==> OpeningRow(r, id, r.started[id])
  {
    var r := Handled(w, b, WriteStart(true));
    assert HandlerRow(w, b);
    hide HandlerRow;
    forall id | id in r.started ensures OpeningRow(r, id, r.started[id]) { assert OpeningRow(w, id, w.started[id]); }
  }

  lemma HandledSessions(w: World, b: nat, step: HandlerStep)
    requires SessionInv(w) && CanHandle(w, b, step)
    requires BrowserRow(w, w.browsers[b]) && CreatedRow(w, w.browsers[b])
    ensures SessionInv(Handled(w, b, step))
  {
    hide SessionInv, BrowserRow, CreatedRow, Handled;
    if Prepares(w, b, step) { PreparedShape(w, b, step); EarlyStep(w, Handled(w, b, step), b); }
    else if Leaves(w, b, step) { LeaveShape(w, b, step); EndThenReturn(w, b, !step.WriteStart?); }
    else {
      RestShape(w, b, step);
      if step == Insert { InsertSessions(w, b); } else if step == WriteStart(true) { StartSessions(w, b); }
    }
  }

  lemma MovedSessions(w: World, p: Peer, move: AgentStep)
    requires SessionInv(w) && CanMove(w, p, move)
    requires forall id :: p in w.agents && id in w.agents[p].toEnd ==> id in w.started
    ensures SessionInv(Moved(w, p, move))
  {
    assert forall id :: id in w.hub.sessions ==> id in w.started;
    hide SessionInv, Affected, OpeningRow;
    var r := Moved(w, p, move);
    match move
    case EndAffected(id) => EndSessions(w, id, false); hide End; SessionFrame(End(w, id, false), r);
    case Dispatch(kind, id) => if Ends(w.hub, p, kind, id) { EndSessions(w, id, false); } hide End;
    case _ => MovedQuietly(w, p, move); hide Moved; SessionFrame(w, r);
  }

  lemma MovedQuietly(w: World, p: Peer, move: AgentStep)
    requires CanMove(w, p, move) && !move.EndAffected? && !move.Dispatch?
    ensures var r := Moved(w, p, move);
            && r == w.(hub := w.hub.(agents := r.hub.agents), agents := r.agents)
            && (forall q :: q in w.agents ==> q in r.agents && r.agents[q].server == w.agents[q].server)
            && (forall q :: q in r.agents ==> r.agents[q].down == if q in w.agents then w.agents[q].down else [])
  {
    hide Affected;
  }

  lemma SessionsKeep(w: World, e: Event)
    requires TicketInv(w) && RegistryInv(w) && SessionInv(w) && RowInv(w) && Enabled(w, e)
    ensures SessionInv(Next(w, e))
  {
    ScansStarted(w);
    assert forall i :: 0 <= i < |w.browsers| ==> BrowserRow(w, w.browsers[i]) && CreatedRow(w, w.browsers[i]);
    hide TicketInv, RegistryInv, SessionInv, RowInv, Handled, Moved, Acted, CanHandle, CanMove, CanAct, BrowserRow,
        CreatedRow;
    match e
    case Handler(b, step) => Standing(w, b, step); HandledSessions(w, b, step);
    case Connection(p, move) => MovedSessions(w, p, move);
    case Ending(id, act) => ActedSessions(w, id, act);
    case _ => SessionFrame(w, Next(w, e));
  }

  lemma ActedSessions(w: World, id: SessionId, act: EndStep)
    requires SessionInv(w) && CanAct(w, id, act)
    ensures SessionInv(Acted(w, id, act))
  {
    hide SessionInv;
    if act == TimeOut { EndSessions(w, id, true); }
    else {
      ActedShape(w, id, act);
      hide Write;
      SessionFrame(w, Acted(w, id, act));
    }
  }

  // ----- rows -----

  /** No session comes into use. */
  ghost predicate Narrower(w: World, r: World) {
    && r.started == w.started && r.hub.sessions.Keys <= w.hub.sessions.Keys
    && r.ending.Keys <= w.ending.Keys + w.hub.sessions.Keys
  }

  lemma EndNarrows(w: World, id: SessionId, notify: bool)
    requires id in w.hub.sessions || id in w.hub.ended
    ensures Narrower(w, End(w, id, notify))
  {
  }

  lemma MovedNarrows(w: World, p: Peer, move: AgentStep)
    requires CanMove(w, p, move)
    requires forall id :: p in w.agents && id in w.agents[p].toEnd ==> id in w.hub.sessions || id in w.hub.ended
    ensures Narrower(w, Moved(w, p, move))
  {
    match move
    case EndAffected(id) => EndNarrows(w, id, false); hide End;
    case Dispatch(kind, id) => if Ends(w.hub, p, kind, id) { EndNarrows(w, id, false); } hide End;
    case _ =>
  }

  lemma ActedNarrows(w: World, id: SessionId, act: EndStep)
    requires CanAct(w, id, act) && (id in w.hub.sessions || id in w.hub.ended)
    ensures Narrower(w, Acted(w, id, act)) && (!act.FreeRow? ==> Acted(w, id, act).active == w.active)
  {
    if act == TimeOut { EndNarrows(w, id, true); }
    hide Write;
  }

  /** Handlers gain no row. */
  ghost predicate NoneCreated(w: World, r: World) {
    && |w.browsers| <= |r.browsers|
    && (forall i :: 0 <= i < |w.browsers| && r.browsers[i].stage.Created? ==>
          r.browsers[i].stage == w.browsers[i].stage && r.browsers[i].ticket == w.browsers[i].ticket)
    && (forall i :: |w.browsers| <= i < |r.browsers| ==> !r.browsers[i].stage.Created?)
  }

  lemma RowFrame(w: World, r: World)
    requires RowInv(w) && Narrower(w, r) && NoneCreated(w, r) && r.active == w.active && w.ids <= r.ids
    ensures RowInv(r)
  {
    forall i | 0 <= i < |r.browsers| ensures CreatedRow(r, r.browsers[i]) {
      if i < |w.browsers| { assert CreatedRow(w, w.browsers[i]); }
    }
    assert forall id :: InUse(r, id) ==> InUse(w, id);
    hide InUse;
  }

  /** A new row is of a server that had none. */
  lemma RowStored(w: World, b: nat, id: SessionId, outcome: RowOutcome)
    requires RowInv(w) && CanHandle(w, b, CreateRow(id, outcome)) && !outcome.Refused?
    ensures RowInv(Handled(w, b, CreateRow(id, outcome)))
  {
    var r := Handled(w, b, CreateRow(id, outcome));
    forall i | 0 <= i < |r.browsers| ensures CreatedRow(r, r.browsers[i]) { assert CreatedRow(w, w.browsers[i]); }
    assert forall other :: InUse(r, other) <==> InUse(w, other);
    hide InUse;
  }

  /** The session that enters the hub has its row already. */
  lemma RowTaken(w: World, b: nat)
    requires RowInv(w) && CanHandle(w, b, Insert)
    ensures RowInv(Handled(w, b, Insert))
  {
    var r := Handled(w, b, Insert);
    assert CreatedRow(w, w.browsers[b]);
    forall i | 0 <= i < |r.browsers| ensures CreatedRow(r, r.browsers[i]) { assert CreatedRow(w, w.browsers[i]); }
    assert forall other :: InUse(r, other) ==> InUse(w, other) || other == w.browsers[b].stage.id;
    hide InUse, CreatedRow;
  }

  /** Only the session whose row it is can free it. */
  lemma RowFreed(w: World, id: SessionId, ok: bool)
    requires RowInv(w) && SessionInv(w) && CanAct(w, id, FreeRow(ok))
    ensures RowInv(Acted(w, id, FreeRow(ok)))
  {
    hide SessionInv;
    SessionFacts(w);
    var r := Acted(w, id, FreeRow(ok));
    assert InUse(w, id) && id !in w.hub.sessions;
    assert HoldsRow(w, w.started[id].session.server, id);
    forall i | 0 <= i < |r.browsers| ensures CreatedRow(r, r.browsers[i]) { assert CreatedRow(w, w.browsers[i]); }
    hide CreatedRow;
    forall other | InUse(r, other) ensures HoldsRow(r, r.started[other].session.server, other) {
      assert InUse(w, other) && other != id;
    }
    hide InUse, HoldsRow;
  }

  lemma HandledRows(w: World, b: nat, step: HandlerStep)
    requires RowInv(w) && CanHandle(w, b, step)
    requires w.browsers[b].stage.Inserted? || w.browsers[b].stage.Relaying? ==>
      w.browsers[b].stage.id in w.hub.sessions || w.browsers[b].stage.id in w.hub.ended
    ensures RowInv(Handled(w, b, step))
  {
    hide RowInv, Handled;
    var r := Handled(w, b, step);
    if step.CreateRow? && !step.outcome.Refused? {
      RowStored(w, b, step.id, step.outcome);
    } else if Prepares(w, b, step) {
      PreparedShape(w, b, step);
      RefusedRow(w, b, step);
      RowFrame(w, r);
    } else if Leaves(w, b, step) {
      LeaveShape(w, b, step);
      EndNarrows(At(w, b, Returned), w.browsers[b].stage.id, !step.WriteStart?);
      RowFrame(w, r);
    } else {
      RestShape(w, b, step);
      if step == Insert { RowTaken(w, b); } else if step == WriteStart(true) { StartRows(w, b); }
    }
  }

  lemma RefusedRow(w: World, b: nat, step: HandlerStep)
    requires CanHandle(w, b, step) && Prepares(w, b, step) && (step.CreateRow? ==> step.outcome.Refused?)
    ensures var r := Handled(w, b, step); r.active == w.active && r.ids == w.ids && !r.browsers[b].stage.Created?
  {
    hide Busy;
  }

  lemma StartRows(w: World, b: nat)
    requires RowInv(w) && CanHandle(w, b, WriteStart(true))
    ensures RowInv(Handled(w, b, WriteStart(true)))
  {
    var id := w.browsers[b].stage.id;
    WriteShape(At(w, b, Relaying(id)), id, Start(id));
    hide RowInv, Write;
    RowFrame(w, Handled(w, b, WriteStart(true)));
  }

  lemma RowsKeep(w: World, e: Event)
    requires RegistryInv(w) && SessionInv(w) && RowInv(w) && Enabled(w, e)
    ensures RowInv(Next(w, e))
  {
    ScansStarted(w);
    assert forall id :: id in w.started ==> id in w.hub.sessions || id in w.hub.ended;
    hide RegistryInv, RowInv, Handled, Moved, Acted, CanHandle, CanMove, CanAct, NoneCreated;
    match e
    case Handler(b, step) =>
      Standing(w, b, step);
      if w.browsers[b].stage.Inserted? || w.browsers[b].stage.Relaying? { OwnSession(w, b); }
      hide SessionInv;
      HandledRows(w, b, step);
    case Connection(p, move) => hide SessionInv; MovedRows(w, p, move);
    case Ending(id, act) => ActedRows(w, id, act);
    case _ => hide SessionInv; ClockRows(w, e);
  }

  lemma MovedRows(w: World, p: Peer, move: AgentStep)
    requires RowInv(w) && CanMove(w, p, move)
    requires forall id :: p in w.agents && id in w.agents[p].toEnd ==> id in w.hub.sessions || id in w.hub.ended
    ensures RowInv(Moved(w, p, move))
  {
    hide RowInv, Moved, CanMove;
    MovedShape(w, p, move);
    MovedNarrows(w, p, move);
    RowFrame(w, Moved(w, p, move));
  }

  lemma ClockRows(w: World, e: Event)
    requires RowInv(w) && Enabled(w, e) && (e.Wait? || e.CreateTicket? || e.Redeem?)
    ensures RowInv(Next(w, e))
  {
    hide RowInv, Handled, Moved, Acted;
    RowFrame(w, Next(w, e));
  }

  lemma OwnSession(w: World, b: nat)
    requires SessionInv(w) && Stands(w, b) && (w.browsers[b].stage.Inserted? || w.browsers[b].stage.Relaying?)
    ensures var id := w.browsers[b].stage.id;
            id in w.started && w.started[id].browser == b && (id in w.hub.sessions || id in w.hub.ended)
  {
    assert HandlerRow(w, b);
  }

  lemma ActedRows(w: World, id: SessionId, act: EndStep)
    requires SessionInv(w) && RowInv(w) && CanAct(w, id, act)
    ensures RowInv(Acted(w, id, act))
  {
    hide SessionInv, RowInv, Acted;
    SessionFacts(w);
    if act.FreeRow? { RowFreed(w, id, act.ok); }
    else {
      ActedShape(w, id, act);
      ActedNarrows(w, id, act);
      hide CanAct;
      RowFrame(w, Acted(w, id, act));
    }
  }

  // ----- relays -----

  /** No handler starts to relay or to wait for its start, no connection forgets a session it has to
      end, and what is ended is going to be closed. */
  ghost predicate RelaysKept(w: World, r: World) {
    && w.hub.ended <= r.hub.ended
    && (forall id :: id in w.started ==> id in r.started && r.started[id] == w.started[id])
    && (forall i :: 0 <= i < |r.browsers| && (r.browsers[i].stage.Relaying? || r.browsers[i].stage.Inserted?) ==>
          i < |w.browsers| && r.browsers[i].stage == w.browsers[i].stage
              && (w.browsers[i].closed ==> r.browsers[i].closed))
    && (forall p :: p in w.agents ==>
          && p in r.agents && r.agents[p].unregistered == w.agents[p].unregistered
          && (w.agents[p].closed ==> r.agents[p].closed)
          && w.agents[p].toEnd <= r.agents[p].toEnd + r.hub.ended)
    && (forall id :: id in r.hub.ended && (id in w.hub.ended ==> id in w.ending && w.ending[id] != ToFreeRow) ==>
          id in r.ending && r.ending[id] != ToFreeRow)
    && (forall i ::
          (0 <= i < |r.browsers| && r.browsers[i].stage.Inserted?
           && r.browsers[i].stage.id in r.hub.ended - w.hub.ended) ==>
          Dead(r, r.browsers[i].stage.id))
  }

  lemma RelayFrame(w: World, r: World)
    requires RelayInv(w) && RelaysKept(w, r)
    requires forall i :: 0 <= i < |w.browsers| && (w.browsers[i].stage.Relaying? || w.browsers[i].stage.Inserted?) ==>
             w.browsers[i].stage.id in w.started
    ensures RelayInv(r)
  {
    forall i | 0 <= i < |r.browsers| ensures RelayRow(r, r.browsers[i]) {
      if r.browsers[i].stage.Relaying? || r.browsers[i].stage.Inserted? { assert RelayRow(w, w.browsers[i]); }
    }
  }

  /** Every handler with a session is the one the session was opened by. */
  ghost predicate Known(w: World) {
    forall i :: 0 <= i < |w.browsers| ==> HandlerRow(w, i)
  }

  /** A session that has just been ended is going to be closed; its start can no longer be written. */
  lemma EndRelays(w: World, id: SessionId, notify: bool)
    requires RelayInv(w) && id in w.started
    requires forall i :: 0 <= i < |w.browsers| ==> w.browsers[i].stage != Inserted(id) || Dead(w, id)
    ensures RelayInv(End(w, id, notify))
  {
    var r := End(w, id, notify);
    assert forall x :: Dead(w, x) ==> Dead(r, x);
    hide Dead;
    forall i | 0 <= i < |r.browsers| ensures RelayRow(r, r.browsers[i]) { assert RelayRow(w, w.browsers[i]); }
  }

  /** The scan of `unregisterAgent` sees every session that relays over the connection. */
  lemma ScanFindsRelays(w: World, p: Peer)
    requires RelayInv(w) && SessionInv(w) && CanMove(w, p, Unregister)
    ensures RelayInv(Moved(w, p, Unregister))
  {
    var r := Moved(w, p, Unregister);
    assert forall x :: Dead(w, x) ==> Dead(r, x);
    hide Dead;
    forall i | 0 <= i < |r.browsers| ensures RelayRow(r, r.browsers[i]) {
      assert RelayRow(w, w.browsers[i]);
      if r.browsers[i].stage.Relaying? {
        var id := r.browsers[i].stage.id;
        assert HandlerRow(w, i) && OpeningRow(w, id, w.started[id]);
      }
    }
  }

  /** A start that could be written went to a connection that was not yet unregistered, for a
      session that had not been ended. */
  lemma StartRelays(w: World, b: nat)
    requires RelayInv(w) && RegistryInv(w) && CanHandle(w, b, WriteStart(true))
    ensures RelayInv(Handled(w, b, WriteStart(true)))
  {
    var r := Handled(w, b, WriteStart(true));
    assert RelayRow(w, w.browsers[b]);
    assert RelayRow(r, r.browsers[b]);
    assert forall x :: Dead(w, x) ==> Dead(r, x);
    hide Dead, RegistryInv;
    forall i | 0 <= i < |r.browsers| && i != b ensures RelayRow(r, r.browsers[i]) { assert RelayRow(w, w.browsers[i]); }
  }

  lemma InsertRelays(w: World, b: nat)
    requires RelayInv(w) && Known(w) && CanHandle(w, b, Insert) && w.browsers[b].stage.id !in w.started
             && w.hub.ended <= w.started.Keys
    ensures RelayInv(Handled(w, b, Insert))
  {
    var r := Handled(w, b, Insert);
    assert RelayRow(r, r.browsers[b]);
    forall i | 0 <= i < |r.browsers| && i != b ensures RelayRow(r, r.browsers[i]) {
      assert RelayRow(w, w.browsers[i]) && HandlerRow(w, i);
    }
  }

  /** The browser whose connection is closed is the session's. */
  lemma HangUpRelays(w: World, id: SessionId)
    requires RelayInv(w) && Known(w) && CanAct(w, id, HangUp)
    ensures RelayInv(Acted(w, id, HangUp))
  {
    var r := Acted(w, id, HangUp);
    forall i | 0 <= i < |r.browsers| ensures RelayRow(r, r.browsers[i]) {
      assert RelayRow(w, w.browsers[i]) && HandlerRow(w, i);
    }
  }

  lemma PreparedRelays(w: World, b: nat, step: HandlerStep)
    requires RelayInv(w) && CanHandle(w, b, step) && Prepares(w, b, step)
    requires forall i :: 0 <= i < |w.browsers| && (w.browsers[i].stage.Relaying? || w.browsers[i].stage.Inserted?) ==>
             w.browsers[i].stage.id in w.started
    ensures RelayInv(Handled(w, b, step))
  {
    hide RelayInv, Handled;
    PreparedShape(w, b, step);
    RelayFrame(w, Handled(w, b, step));
  }

  lemma HandledRelays(w: World, b: nat, step: HandlerStep)
    requires RelayInv(w) && RegistryInv(w) && Known(w) && CanHandle(w, b, step) && w.hub.ended <= w.started.Keys
    requires w.browsers[b].stage.Created? ==> w.browsers[b].stage.id !in w.started
    ensures RelayInv(Handled(w, b, step))
  {
    HandlersKnown(w);
    hide RelayInv, RegistryInv, Known, Handled;
    if Prepares(w, b, step) { PreparedRelays(w, b, step); }
    else if Leaves(w, b, step) { LeaveShape(w, b, step); LeaveRelays(w, b, !step.WriteStart?); }
    else {
      RestShape(w, b, step);
      if step == Insert { InsertRelays(w, b); } else if step == WriteStart(true) { StartRelays(w, b); }
    }
  }

  lemma LeaveRelays(w: World, b: nat, notify: bool)
    requires RelayInv(w) && Known(w) && Stands(w, b) && (w.browsers[b].stage.Relaying? || w.browsers[b].stage.Inserted?)
    ensures RelayInv(End(At(w, b, Returned), w.browsers[b].stage.id, notify))
  {
    HandlersKnown(w);
    hide RelayInv, Known, End;
    RelayFrame(w, At(w, b, Returned));
    EndRelays(At(w, b, Returned), w.browsers[b].stage.id, notify);
  }

  lemma MovedRelays(w: World, p: Peer, move: AgentStep)
    requires RelayInv(w) && RegistryInv(w) && SessionInv(w) && CanMove(w, p, move)
    requires forall i, id :: 0 <= i < |w.browsers| && Told(w, p, id) ==> w.browsers[i].stage != Inserted(id)
    ensures RelayInv(Moved(w, p, move))
  {
    HandlersKnown(w);
    hide RelayInv, Affected;
    match move
    case Unregister => ScanFindsRelays(w, p);
    case EndAffected(id) =>
      hide SessionInv;
      EndRelays(w, id, false);
      EndShape(w, id, false);
      hide End, RegistryInv;
      ScanRelays(End(w, id, false), Moved(w, p, move), p, id);
    case Dispatch(kind, id) =>
      assert forall x :: x in w.hub.sessions ==> x in w.started;
      hide SessionInv, End;
      if Ends(w.hub, p, kind, id) { EndRelays(w, id, false); }
    case _ => hide SessionInv, RegistryInv; RelayFrame(w, Moved(w, p, move));
  }

  /** The scan goes on to its next session. */
  lemma ScanRelays(w: World, r: World, p: Peer, id: SessionId)
    requires RelayInv(w) && p in w.agents && id in w.hub.ended
    requires forall i :: 0 <= i < |w.browsers| && (w.browsers[i].stage.Relaying? || w.browsers[i].stage.Inserted?) ==>
             w.browsers[i].stage.id in w.started
    requires r == w.(agents := w.agents[p := w.agents[p].(toEnd := w.agents[p].toEnd - {id})])
    ensures RelayInv(r)
  {
    hide RelayInv;
    RelayFrame(w, r);
  }

  lemma HandlersKnown(w: World)
    requires Known(w) || SessionInv(w)
    ensures Known(w)
    ensures forall i :: 0 <= i < |w.browsers| && (w.browsers[i].stage.Relaying? || w.browsers[i].stage.Inserted?) ==>
              w.browsers[i].stage.id in w.started && w.started[w.browsers[i].stage.id].browser == i
  {
    forall i | 0 <= i < |w.browsers| && (w.browsers[i].stage.Relaying? || w.browsers[i].stage.Inserted?)
      ensures w.browsers[i].stage.id in w.started && w.started[w.browsers[i].stage.id].browser == i
    {
      assert HandlerRow(w, i);
    }
  }

  lemma ActedRelays(w: World, id: SessionId, act: EndStep)
    requires RelayInv(w) && Known(w) && CanAct(w, id, act) && w.ending.Keys <= w.hub.ended
    ensures RelayInv(Acted(w, id, act))
  {
    HandlersKnown(w);
    hide RelayInv, Known, Write;
    match act
    case TimeOut => hide End; assert w.browsers[w.started[id].browser].stage == Relaying(id); TimedOutRelays(w, id);
    case HangUp => HangUpRelays(w, id);
    case WriteClose(ok) => ActedShape(w, id, act); RelayFrame(w, Acted(w, id, act));
    case FreeRow(_) => RelayFrame(w, Acted(w, id, act));
  }

  lemma TimedOutRelays(w: World, id: SessionId)
    requires RelayInv(w) && Known(w) && CanAct(w, id, TimeOut)
    ensures RelayInv(End(w, id, true))
  {
    forall i | 0 <= i < |w.browsers| ensures w.browsers[i].stage != Inserted(id) { assert HandlerRow(w, i); }
    hide End, RelayInv;
    EndRelays(w, id, true);
  }

  lemma RelaysKeep(w: World, e: Event)
    requires Inv(w) && Enabled(w, e)
    ensures RelayInv(Next(w, e))
  {
    HandlersKnown(w);
    assert w.hub.ended <= w.started.Keys && w.ending.Keys <= w.hub.ended;
    hide Known, RelayInv, SessionInv, RegistryInv, TicketInv, RowInv, TalkInv, Handled, Moved, Acted, CanHandle,
        CanMove, CanAct;
    match e
    case Handler(b, step) => Standing(w, b, step); CreatedIsNew(w, b); HandledRelays(w, b, step);
    case Connection(p, move) => ToldStarted(w, p); MovedRelays(w, p, move);
    case Ending(id, act) => ActedRelays(w, id, act);
    case _ => RelayFrame(w, Next(w, e));
  }

  lemma CreatedIsNew(w: World, b: nat)
    requires RowInv(w) && Stands(w, b)
    ensures w.browsers[b].stage.Created? ==> w.browsers[b].stage.id !in w.started
  {
    assert CreatedRow(w, w.browsers[b]);
  }

  lemma ToldStarted(w: World, p: Peer)
    requires TalkInv(w) && SessionInv(w)
    ensures forall i, id :: 0 <= i < |w.browsers| && Told(w, p, id) ==> w.browsers[i].stage != Inserted(id)
  {
    forall i, id | 0 <= i < |w.browsers| && Told(w, p, id) ensures w.browsers[i].stage != Inserted(id) {
      var j :| 0 <= j < |w.agents[p].down| && w.agents[p].down[j] == Start(id);
      assert MessageRow(w, p, j) && HandlerRow(w, i);
    }
  }

  // ----- messages -----

  /** Nothing is written, nobody starts to speak, and no close is owed again. */
  ghost predicate Quiet(w: World, r: World) {
    && (forall id :: id in w.started ==> id in r.started && r.started[id] == w.started[id])
    && w.hub.ended <= r.hub.ended && w.agents.Keys <= r.agents.Keys
    && (forall p :: p in r.agents ==> r.agents[p].down == if p in w.agents then w.agents[p].down else [])
    && (forall id :: Speaks(r, id) ==> Speaks(w, id))
    && (forall id :: id in w.hub.ended && (id in w.ending ==> w.ending[id] != ToNotify) ==>
        (id in r.ending ==> r.ending[id] != ToNotify))
    && |w.browsers| <= |r.browsers|
    && (forall id ::
          (id in w.started && w.started[id].browser < |w.browsers|
           && !w.browsers[w.started[id].browser].stage.Inserted?) ==>
          !r.browsers[w.started[id].browser].stage.Inserted?)
  }

  lemma TalkFrame(w: World, r: World)
    requires TalkInv(w) && Quiet(w, r)
    ensures TalkInv(r)
  {
    forall p, j | p in r.agents && 0 <= j < |r.agents[p].down| ensures MessageRow(r, p, j) {
      assert MessageRow(w, p, j);
    }
    hide MessageRow, Speaks;
    forall id | Speaks(r, id) ensures Last(r, id) { assert Speaks(w, id) && Last(w, id); }
  }

  lemma EndQuiet(w: World, id: SessionId, notify: bool)
    requires id in w.started && (id in w.hub.sessions <==> id !in w.hub.ended)
    requires notify ==> w.started[id].browser < |w.browsers| && w.browsers[w.started[id].browser].stage == Relaying(id)
    ensures Quiet(w, End(w, id, notify))
  {
    EndShape(w, id, notify);
  }

  /** Returning silences a handler only after its session has been ended. */
  lemma LeaveTalks(w: World, b: nat, notify: bool)
    requires TalkInv(w) && SessionInv(w) && Stands(w, b)
             && (w.browsers[b].stage.Relaying? || w.browsers[b].stage.Inserted?)
    requires notify ==> w.browsers[b].stage.Relaying?
    ensures TalkInv(End(At(w, b, Returned), w.browsers[b].stage.id, notify))
  {
    var id := w.browsers[b].stage.id;
    OwnSession(w, b);
    hide SessionInv;
    SessionFacts(w);
    EndQuiet(w, id, notify);
    TalkFrame(w, End(w, id, notify));
    hide TalkInv;
    EndShape(w, id, notify);
    EndShape(At(w, b, Returned), id, notify);
    ReturnQuiet(End(w, id, notify), End(At(w, b, Returned), id, notify), b);
    TalkFrame(End(w, id, notify), End(At(w, b, Returned), id, notify));
  }

  lemma ReturnQuiet(w: World, r: World, b: nat)
    requires Stands(w, b) && r == w.(browsers := w.browsers[b := w.browsers[b].(stage := Returned)])
    ensures Quiet(w, r)
  {
  }

  lemma InsertTalks(w: World, b: nat)
    requires TalkInv(w) && SessionInv(w) && CanHandle(w, b, Insert) && w.browsers[b].stage.id !in w.started
    ensures TalkInv(Handled(w, b, Insert))
  {
    hide SessionInv, TalkInv, Quiet;
    NotBy(w, b);
    SessionFacts(w);
    InsertQuiet(w, b);
    TalkFrame(w, Handled(w, b, Insert));
  }

  lemma NotBy(w: World, b: nat)
    requires SessionInv(w) && Stands(w, b) && w.browsers[b].stage.Created?
    ensures forall id :: id in w.started ==> w.started[id].browser != b && w.started[id].browser < |w.browsers|
    ensures w.ending.Keys <= w.hub.ended <= w.started.Keys
  {
    forall id | id in w.started ensures w.started[id].browser != b && w.started[id].browser < |w.browsers| {
      assert OpeningRow(w, id, w.started[id]);
    }
  }

  lemma InsertQuiet(w: World, b: nat)
    requires CanHandle(w, b, Insert) && w.browsers[b].stage.id !in w.started
    requires w.ending.Keys <= w.hub.ended <= w.started.Keys
    requires forall id :: id in w.started ==> w.started[id].browser != b && w.started[id].browser < |w.browsers|
    ensures Quiet(w, Handled(w, b, Insert))
  {
  }

  // ----- what is written -----

  lemma InUseIsOne(w: World, id: SessionId, other: SessionId)
    requires RowInv(w) && SessionInv(w) && InUse(w, id) && InUse(w, other)
    requires w.started[id].session.agent == w.started[other].session.agent
    ensures id == other
  {
    assert OpeningRow(w, id, w.started[id]) && OpeningRow(w, other, w.started[other]);
    hide SessionInv, InUse;
  }

  /** When a start is written, every session of an earlier message has been ended. */
  lemma EarlierEnded(w: World, b: nat, j: nat)
    requires TalkInv(w) && SessionInv(w) && RowInv(w) && CanHandle(w, b, WriteStart(true))
             && w.browsers[b].stage.id in w.hub.sessions
    requires var p := w.started[w.browsers[b].stage.id].session.agent; j < |w.agents[p].down|
    ensures var p := w.started[w.browsers[b].stage.id].session.agent;
            w.agents[p].down[j].id in w.hub.ended && w.agents[p].down[j].id != w.browsers[b].stage.id
  {
    var id := w.browsers[b].stage.id;
    var p := w.started[id].session.agent;
    var other := w.agents[p].down[j].id;
    assert MessageRow(w, p, j);
    OwnSession(w, b);
    assert other != id;
    if other !in w.hub.ended {
      assert InUse(w, id) && InUse(w, other);
      hide MessageRow, TalkInv;
      InUseIsOne(w, id, other);
    }
  }

  lemma StartTalks(w: World, b: nat)
    requires TalkInv(w) && SessionInv(w) && RowInv(w) && CanHandle(w, b, WriteStart(true))
             && w.browsers[b].stage.id in w.hub.sessions
    ensures TalkInv(Handled(w, b, WriteStart(true)))
  {
    hide SessionInv, RowInv, TalkInv, MessageRow;
    var id := w.browsers[b].stage.id;
    var r := Handled(w, b, WriteStart(true));
    StartRow(w, b);
    forall other | Speaks(r, other) ensures Last(r, other) {
      if other == id { StartLast(w, b); } else { OthersSilent(w, b, other); }
    }
    TalkFrom(r);
  }

  lemma StartLast(w: World, b: nat)
    requires CanHandle(w, b, WriteStart(true)) && w.browsers[b].stage.id in w.started
    ensures var r := Handled(w, b, WriteStart(true));
            w.browsers[b].stage.id in r.started && Last(r, w.browsers[b].stage.id)
  {
  }

  lemma StartRow(w: World, b: nat)
    requires TalkInv(w) && SessionInv(w) && RowInv(w) && CanHandle(w, b, WriteStart(true))
             && w.browsers[b].stage.id in w.hub.sessions
    ensures var r := Handled(w, b, WriteStart(true));
            forall p, j :: p in r.agents && 0 <= j < |r.agents[p].down| ==> MessageRow(r, p, j)
  {
    hide SessionInv, RowInv, TalkInv, MessageRow;
    var id := w.browsers[b].stage.id;
    var q := w.started[id].session.agent;
    var r := Handled(w, b, WriteStart(true));
    var n := |w.agents[q].down|;
    OwnSession(w, b);
    forall k | 0 <= k < n ensures w.agents[q].down[k].id in w.hub.ended && w.agents[q].down[k].id != id {
      EarlierEnded(w, b, k);
    }
    NewRow(w, b);
    forall p, j | p in r.agents && 0 <= j < |r.agents[p].down| && !(p == q && j == n) ensures MessageRow(r, p, j) {
      MessageAt(w, p, j);
      AppendedRow(w, r, p, j);
    }
  }

  lemma NewRow(w: World, b: nat)
    requires CanHandle(w, b, WriteStart(true)) && HandlerRow(w, b)
    requires var id := w.browsers[b].stage.id; var down := w.agents[w.started[id].session.agent].down;
             forall k :: 0 <= k < |down| ==> down[k].id in w.hub.ended && down[k].id != id
    ensures var q := w.started[w.browsers[b].stage.id].session.agent; var r := Handled(w, b, WriteStart(true));
            && q in r.agents && |r.agents[q].down| == |w.agents[q].down| + 1 && MessageRow(r, q, |w.agents[q].down|)
  {
  }

  /** A row depends on what comes before it only. */
  lemma AppendedRow(w: World, r: World, p: Peer, j: nat)
    requires p in w.agents && p in r.agents && w.agents[p].down <= r.agents[p].down && j < |w.agents[p].down|
    requires MessageRow(w, p, j) && r.started == w.started && r.hub.ended == w.hub.ended && |r.browsers| == |w.browsers|
    requires forall id :: id in w.hub.ended && id in r.ending && r.ending[id] == ToNotify ==>
             id in w.ending && w.ending[id] == ToNotify
    requires forall i :: 0 <= i < |w.browsers| && !w.browsers[i].stage.Inserted? ==> !r.browsers[i].stage.Inserted?
    ensures MessageRow(r, p, j)
  {
    assert r.agents[p].down[..j] == w.agents[p].down[..j];
    assert r.agents[p].down[j] == w.agents[p].down[j];
    if j > 0 { assert r.agents[p].down[j - 1] == w.agents[p].down[j - 1]; }
  }

  /** While a session has its row no other session of the connection has anything to say. */
  lemma OthersSilent(w: World, b: nat, other: SessionId)
    requires TalkInv(w) && SessionInv(w) && RowInv(w) && CanHandle(w, b, WriteStart(true))
             && w.browsers[b].stage.id in w.hub.sessions
    requires other != w.browsers[b].stage.id && Speaks(Handled(w, b, WriteStart(true)), other)
    ensures Last(Handled(w, b, WriteStart(true)), other)
  {
    hide TalkInv, SessionInv, RowInv;
    var id := w.browsers[b].stage.id;
    SpokeBefore(w, b, other);
    OwnSession(w, b);
    SpeakerLast(w, other);
    hide Handled, Last;
    assert InUse(w, other) && InUse(w, id);
    if w.started[other].session.agent == w.started[id].session.agent { InUseIsOne(w, id, other); }
    LastElsewhere(w, b, other);
  }

  lemma SpokeBefore(w: World, b: nat, other: SessionId)
    requires CanHandle(w, b, WriteStart(true)) && other != w.browsers[b].stage.id
             && Speaks(Handled(w, b, WriteStart(true)), other)
    ensures Speaks(w, other)
  {
  }

  lemma LastElsewhere(w: World, b: nat, other: SessionId)
    requires CanHandle(w, b, WriteStart(true)) && other in w.started && Last(w, other)
    requires w.started[other].session.agent != w.started[w.browsers[b].stage.id].session.agent
    ensures Handled(w, b, WriteStart(true)).started == w.started && Last(Handled(w, b, WriteStart(true)), other)
  {
  }

  lemma CloseTalks(w: World, id: SessionId)
    requires TalkInv(w) && SessionInv(w) && RowInv(w) && CanAct(w, id, WriteClose(true))
    ensures TalkInv(Acted(w, id, WriteClose(true)))
  {
    var q := w.started[id].session.agent;
    var r := Acted(w, id, WriteClose(true));
    assert Speaks(w, id) && Last(w, id) && id in w.hub.ended;
    CloseRow(w, id);
    hide TalkInv, MessageRow;
    forall other | Speaks(r, other) ensures Last(r, other) {
      assert Speaks(w, other) && other != id;
      SpeakerLast(w, other);
      assert InUse(w, other) && InUse(w, id);
      if w.started[other].session.agent == q { InUseIsOne(w, id, other); }
    }
    assert TalkInv(r) by { TalkFrom(r); }
  }

  lemma TalkFrom(w: World)
    requires forall p, j :: p in w.agents && 0 <= j < |w.agents[p].down| ==> MessageRow(w, p, j)
    requires forall id :: Speaks(w, id) ==> Last(w, id)
    ensures TalkInv(w)
  {
  }

  lemma CloseRow(w: World, id: SessionId)
    requires TalkInv(w) && CanAct(w, id, WriteClose(true)) && Last(w, id) && id in w.hub.ended
    ensures var r := Acted(w, id, WriteClose(true));
            forall p, j :: p in r.agents && 0 <= j < |r.agents[p].down| ==> MessageRow(r, p, j)
  {
    var q := w.started[id].session.agent;
    var r := Acted(w, id, WriteClose(true));
    var n := |w.agents[q].down|;
    forall k | 0 <= k < n ensures w.agents[q].down[k] != Close(id) { assert MessageRow(w, q, k); }
    assert MessageRow(w, q, n - 1);
    hide Speaks;
    forall p, j | p in r.agents && 0 <= j < |r.agents[p].down| ensures MessageRow(r, p, j) {
      if p == q && j == n {
        assert r.agents[q].down[n] == Close(id) && r.agents[q].down[n - 1] == Start(id)
            && r.agents[q].down[..n] == w.agents[q].down;
      }
      else { AppendedRow(w, r, p, j); }
    }
  }

  // ----- every step, every run -----

  lemma HandledTalks(w: World, b: nat, step: HandlerStep)
    requires TalkInv(w) && SessionInv(w) && RowInv(w) && RelayInv(w) && CanHandle(w, b, step)
    ensures TalkInv(Handled(w, b, step))
  {
    hide TalkInv, SessionInv, RowInv, Handled, RelayInv;
    if Prepares(w, b, step) {
      PreparedShape(w, b, step);
      PreparedQuiet(w, b, Handled(w, b, step));
      TalkFrame(w, Handled(w, b, step));
    } else if Leaves(w, b, step) { LeaveShape(w, b, step); LeaveTalks(w, b, !step.WriteStart?); }
    else {
      RestShape(w, b, step);
      if step == Insert { CreatedIsNew(w, b); InsertTalks(w, b); }
      else if step == WriteStart(true) { OwnSession(w, b); StartedAlive(w, b); StartTalks(w, b); }
    }
  }

  lemma StartedAlive(w: World, b: nat)
    requires RelayInv(w) && CanHandle(w, b, WriteStart(true))
    ensures w.browsers[b].stage.id !in w.hub.ended
  {
    assert RelayRow(w, w.browsers[b]);
  }

  lemma PreparedQuiet(w: World, b: nat, r: World)
    requires Stands(w, b) && Early(w.browsers[b].stage) && Stands(r, b)
    requires r == w.(browsers := w.browsers[b := r.browsers[b]], active := r.active, ids := r.ids)
    requires Early(r.browsers[b].stage) || r.browsers[b].stage.Returned?
    ensures Quiet(w, r)
  {
  }

  /** Connections come, close or leave the hub. */
  lemma ConnectionsQuiet(w: World, r: World)
    requires r == w.(hub := w.hub.(agents := r.hub.agents), agents := r.agents) && w.agents.Keys <= r.agents.Keys
    requires forall p :: p in r.agents ==> r.agents[p].down == if p in w.agents then w.agents[p].down else []
    ensures Quiet(w, r)
  {
  }

  lemma EndTalks(w: World, id: SessionId)
    requires TalkInv(w) && id in w.started && (id in w.hub.sessions <==> id !in w.hub.ended)
    ensures TalkInv(End(w, id, false))
  {
    hide TalkInv, End, Quiet;
    EndQuiet(w, id, false);
    TalkFrame(w, End(w, id, false));
  }

  lemma MovedTalks(w: World, p: Peer, move: AgentStep)
    requires TalkInv(w) && SessionInv(w) && CanMove(w, p, move)
    requires forall id :: p in w.agents && id in w.agents[p].toEnd ==> id in w.started
    ensures TalkInv(Moved(w, p, move))
  {
    hide TalkInv, SessionInv, Affected, Quiet;
    SessionFacts(w);
    var r := Moved(w, p, move);
    match move
    case EndAffected(id) => EndTalks(w, id); hide End; AgentsTalk(End(w, id, false), r);
    case Dispatch(kind, id) => hide End; if Ends(w.hub, p, kind, id) { EndTalks(w, id); }
    case _ => MovedQuietly(w, p, move); hide Moved; AgentsTalk(w, r);
  }

  lemma AgentsTalk(w: World, r: World)
    requires TalkInv(w) && r == w.(hub := w.hub.(agents := r.hub.agents), agents := r.agents)
             && w.agents.Keys <= r.agents.Keys
    requires forall p :: p in r.agents ==> r.agents[p].down == if p in w.agents then w.agents[p].down else []
    ensures TalkInv(r)
  {
    ConnectionsQuiet(w, r);
    hide TalkInv, Quiet;
    TalkFrame(w, r);
  }

  lemma ActedTalks(w: World, id: SessionId, act: EndStep)
    requires TalkInv(w) && SessionInv(w) && RowInv(w) && CanAct(w, id, act)
    ensures TalkInv(Acted(w, id, act))
  {
    hide TalkInv, SessionInv, RowInv;
    SessionFacts(w);
    match act
    case TimeOut => EndQuiet(w, id, true); hide End, Quiet; TalkFrame(w, End(w, id, true));
    case WriteClose(true) => CloseTalks(w, id);
    case _ => ActedQuiet(w, id, act); hide Quiet; TalkFrame(w, Acted(w, id, act));
  }

  lemma ActedQuiet(w: World, id: SessionId, act: EndStep)
    requires CanAct(w, id, act) && (act == WriteClose(false) || act == HangUp || act.FreeRow?)
    ensures Quiet(w, Acted(w, id, act))
  {
  }

  lemma TalkKeeps(w: World, e: Event)
    requires Inv(w) && Enabled(w, e)
    ensures TalkInv(Next(w, e))
  {
    ScansStarted(w);
    hide TicketInv, RegistryInv, SessionInv, RowInv, RelayInv, TalkInv, Handled, Moved, Acted, CanHandle, CanMove,
        CanAct, Quiet;
    match e
    case Handler(b, step) => HandledTalks(w, b, step);
    case Connection(p, move) => MovedTalks(w, p, move);
    case Ending(id, act) => ActedTalks(w, id, act);
    case _ => ClockQuiet(w, e); TalkFrame(w, Next(w, e));
  }

  lemma ClockQuiet(w: World, e: Event)
    requires Enabled(w, e) && (e.Wait? || e.CreateTicket? || e.Redeem?)
    ensures Quiet(w, Next(w, e))
  {
    hide Handled, Moved, Acted;
  }

  lemma StepKeeps(w: World, e: Event)
    requires Inv(w)
    ensures Inv(Next(w, e))
  {
    hide TicketInv, RegistryInv, SessionInv, RowInv, RelayInv, TalkInv;
    if Enabled(w, e) {
      TicketsKeep(w, e);
      RegistryKeeps(w, e);
      SessionsKeep(w, e);
      RowsKeep(w, e);
      RelaysKeep(w, e);
      TalkKeeps(w, e);
    }
    hide Next;
  }

  /** The invariant holds after every run. */
  lemma {:induction false} RunKeeps(events: seq<Event>)
    ensures Inv(Run(events))
  {
    hide Inv;
    if events == [] {
      NothingYet();
    } else {
      RunKeeps(events[..|events| - 1]);
      StepKeeps(Run(events[..|events| - 1]), events[|events| - 1]);
    }
  }

  lemma NothingYet()
    ensures Inv(Beginning())
  {
  }
}
