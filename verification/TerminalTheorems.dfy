/** What every run of the terminal hub guarantees: a server has one session at a time, no session
outlives its connection, a ticket is good for one session, a message ends no session but its own.
*/
module TerminalTheorems {
  import opened TerminalHub
  import opened TerminalProofs

  lemma RunExtends(events: seq<Event>, e: Event)
    ensures Run(events + [e]) == Next(Run(events), e)
  {
    assert (events + [e])[..|events|] == events;
  }

  // ----- one session at a time -----

  /** However many browsers pass the busy check together, the hub never holds two sessions of one
      server, and none while another one's row is waiting to be inserted or freed. */
  lemma OneSessionPerServer(events: seq<Event>, id: SessionId, other: SessionId)
    requires InUse(Run(events), id) && InUse(Run(events), other)
    requires Run(events).started[id].session.server == Run(events).started[other].session.server
    ensures id == other
  {
    RunKeeps(events);
    hide Run, InUse, TicketInv, RegistryInv, SessionInv, RelayInv, TalkInv;
  }

  /** Over one connection nothing stands between a session's start and its close, each is written at
      most once, and a start is written only when every session named before has left the hub. */
  lemma Conversation(events: seq<Event>, p: Peer, j: nat)
    requires p in Run(events).agents && j < |Run(events).agents[p].down|
    ensures var w := Run(events); var down := w.agents[p].down;
            && down[j].id in w.started && w.started[down[j].id].session.agent == p
            && down[j] !in down[..j]
            && (down[j].Close? ==> down[j].id !in w.hub.sessions && j > 0 && down[j - 1] == Start(down[j].id))
            && (down[j].Start? ==> forall i :: 0 <= i < j ==> down[i].id !in w.hub.sessions)
  {
    var w := Run(events);
    RunKeeps(events);
    hide Run;
    MessageAt(w, p, j);
    SessionFacts(w);
  }

  /** In particular no other session's start. */
  lemma NoStartBetween(events: seq<Event>, p: Peer, i: nat, k: nat, id: SessionId)
    requires p in Run(events).agents && i < |Run(events).agents[p].down| && k < |Run(events).agents[p].down|
    requires Run(events).agents[p].down[i] == Start(id) && Run(events).agents[p].down[k] == Close(id)
    ensures k == i + 1
  {
    hide Run;
    CloseFollowsStart(events, p, k);
    WrittenOnce(events, p, i, k - 1);
  }

  lemma CloseFollowsStart(events: seq<Event>, p: Peer, k: nat)
    requires p in Run(events).agents && k < |Run(events).agents[p].down| && Run(events).agents[p].down[k].Close?
    ensures k > 0 && Run(events).agents[p].down[k - 1] == Start(Run(events).agents[p].down[k].id)
  {
    Conversation(events, p, k);
    hide Run;
  }

  lemma WrittenOnce(events: seq<Event>, p: Peer, i: nat, j: nat)
    requires p in Run(events).agents && i < |Run(events).agents[p].down| && j < |Run(events).agents[p].down|
    requires Run(events).agents[p].down[i] == Run(events).agents[p].down[j]
    ensures i == j
  {
    hide Run;
    var down := Run(events).agents[p].down;
    if i < j { assert down[..j][i] == down[i]; Conversation(events, p, j); }
    if j < i { assert down[..i][j] == down[j]; Conversation(events, p, i); }
  }

  // ----- connections -----

  /** Whatever the handler does next, it leaves its loop: it returns, at the latest after one more
      message that had already come. */
  ghost predicate MustReturn(w: World, i: nat) {
    Stands(w, i) && forall step :: CanHandle(w, i, step) ==> LeavesLoop(w, i, step)
  }

  ghost predicate LeavesLoop(w: World, i: nat, step: HandlerStep)
    requires CanHandle(w, i, step)
  {
    i < |Handled(w, i, step).browsers| && Handled(w, i, step).browsers[i].stage == Returned
  }

  /** Once a connection is unregistered and its handler has gone through what the scan found, no
      session that relays over it is in the hub.  A handler whose session has been ended leaves its
      loop with its next step; its browser is closed, so that it does not wait for one, or the
      goroutine that ends the session can close it next. */
  lemma NoRelayOutlivesConnection(events: seq<Event>, i: nat)
    requires i < |Run(events).browsers| && Run(events).browsers[i].stage.Relaying?
    ensures var w := Run(events); var id := w.browsers[i].stage.id;
            && id in w.started && w.started[id].session.agent in w.agents
            && (var agent := w.agents[w.started[id].session.agent];
                agent.unregistered && agent.toEnd == {} ==> id in w.hub.ended && id !in w.hub.sessions)
            && (id in w.hub.ended ==> MustReturn(w, i))
            && (id in w.hub.ended && !w.browsers[i].closed ==>
                CanAct(w, id, WriteClose(false)) || CanAct(w, id, HangUp))
  {
    var w := Run(events);
    RunKeeps(events);
    hide Run, TicketInv, TalkInv, RegistryInv, RowInv, MustReturn;
    var id := w.browsers[i].stage.id;
    OwnSession(w, i);
    if id in w.hub.ended { OnlyReturns(w, i); }
    assert RelayRow(w, w.browsers[i]);
    assert OpeningRow(w, id, w.started[id]);
    SessionFacts(w);
  }

  /** What the ending goroutine still has to do before the browser is closed. */
  function HangsUp(w: World, id: SessionId): seq<Event> {
    if id !in w.ending || w.ending[id] == ToFreeRow then []
    else if w.ending[id] == ToNotify then [Ending(id, WriteClose(false)), Ending(id, HangUp)]
    else [Ending(id, HangUp)]
  }

  /** That goroutine waits for nobody: after at most two of its steps the browser of an ended session
      is closed, and its handler leaves the relay loop with its next step. */
  lemma EndedLeavesLoop(events: seq<Event>, i: nat)
    requires i < |Run(events).browsers| && Run(events).browsers[i].stage.Relaying?
    requires Run(events).browsers[i].stage.id in Run(events).hub.ended
    ensures var w := Run(events); var r := Run(events + HangsUp(w, w.browsers[i].stage.id));
            && i < |r.browsers| && r.browsers[i].stage == w.browsers[i].stage && r.browsers[i].closed
            && MustReturn(r, i)
  {
    var w := Run(events);
    var id := w.browsers[i].stage.id;
    hide Run, Inv, Next, CanHandle, MustReturn;
    RunKeeps(events);
    EndedRelay(w, i);
    if HangsUp(w, id) == [] {
      assert events + [] == events;
      OnlyReturns(w, i);
    } else if w.ending[id] == ToNotify {
      TwoSteps(events, i, id);
    } else {
      RunExtends(events, Ending(id, HangUp));
      HangUpCloses(w, i, id);
    }
  }

  lemma TwoSteps(events: seq<Event>, i: nat, id: SessionId)
    requires Stands(Run(events), i) && Run(events).browsers[i].stage == Relaying(id)
    requires id in Run(events).started && Run(events).started[id].browser == i
    requires id in Run(events).ending && Run(events).ending[id] == ToNotify && id in Run(events).hub.ended
    ensures var r := Run(events + [Ending(id, WriteClose(false)), Ending(id, HangUp)]);
            && i < |r.browsers| && r.browsers[i].stage == Relaying(id) && r.browsers[i].closed
            && MustReturn(r, i)
  {
    hide Run, Next, CanHandle, MustReturn;
    var told := events + [Ending(id, WriteClose(false))];
    RunExtends(events, Ending(id, WriteClose(false)));
    RunExtends(told, Ending(id, HangUp));
    assert told + [Ending(id, HangUp)] == events + [Ending(id, WriteClose(false)), Ending(id, HangUp)];
    NotNotified(Run(events), id);
    HangUpCloses(Run(told), i, id);
  }

  lemma NotNotified(w: World, id: SessionId)
    requires id in w.ending && w.ending[id] == ToNotify
    ensures Next(w, Ending(id, WriteClose(false))) == w.(ending := w.ending[id := ToHangUp])
  {
  }

  lemma EndedRelay(w: World, i: nat)
    requires Inv(w) && Stands(w, i) && w.browsers[i].stage.Relaying? && w.browsers[i].stage.id in w.hub.ended
    ensures var id := w.browsers[i].stage.id;
            && id in w.started && w.started[id].browser == i
            && (w.browsers[i].closed || (id in w.ending && w.ending[id] != ToFreeRow))
  {
    hide TicketInv, RegistryInv, RowInv, TalkInv;
    OwnSession(w, i);
    assert RelayRow(w, w.browsers[i]);
  }

  lemma OnlyReturns(w: World, i: nat)
    requires Stands(w, i) && w.browsers[i].stage.Relaying? && w.browsers[i].stage.id in w.hub.ended
    ensures MustReturn(w, i)
  {
  }

  lemma HangUpCloses(w: World, i: nat, id: SessionId)
    requires Stands(w, i) && w.browsers[i].stage == Relaying(id) && id in w.started && w.started[id].browser == i
    requires id in w.ending && w.ending[id] == ToHangUp && id in w.hub.ended
    ensures var r := Next(w, Ending(id, HangUp));
            && i < |r.browsers| && r.browsers[i].stage == w.browsers[i].stage && r.browsers[i].closed
            && MustReturn(r, i)
  {
    OnlyReturns(Next(w, Ending(id, HangUp)), i);
  }

  lemma RegistrationKept(w: World, e: Event, s: Server, p: Peer)
    requires s in w.hub.agents && w.hub.agents[s] == p
    requires e != Connection(p, Unregister) && !(e.Connection? && e.move == Connect(s))
    ensures s in Next(w, e).hub.agents && Next(w, e).hub.agents[s] == p
  {
    match e
    case Handler(b, step) => hide Handled; if CanHandle(w, b, step) { HandledShape(w, b, step); }
    case Ending(id, act) => hide Acted; if CanAct(w, id, act) { ActedShape(w, id, act); }
    case Connection(q, move) => hide Moved; if CanMove(w, q, move) { MoveKeepsRegistration(w, q, move, s, p); }
    case _ =>
  }

  lemma MoveKeepsRegistration(w: World, q: Peer, move: AgentStep, s: Server, p: Peer)
    requires CanMove(w, q, move) && s in w.hub.agents && w.hub.agents[s] == p
    requires !(q == p && move == Unregister) && move != Connect(s)
    ensures s in Moved(w, q, move).hub.agents && Moved(w, q, move).hub.agents[s] == p
  {
    hide Affected;
  }

  lemma {:induction false} ReplacementSurvives(events: seq<Event>, more: seq<Event>, s: Server, p: Peer)
    requires s in Run(events).hub.agents && Run(events).hub.agents[s] == p
    requires Connection(p, Unregister) !in more
    requires forall q :: Connection(q, Connect(s)) !in more
    ensures var h := Run(events + more).hub; s in h.agents && h.agents[s] == p
  {
    hide Run, Next;
    if more == [] {
      assert events + more == events;
    } else {
      var front, e := more[..|more| - 1], more[|more| - 1];
      assert more == front + [e];
      assert e in more && forall x :: x in front ==> x in more;
      ReplacementSurvives(events, front, s, p);
      assert events + more == (events + front) + [e];
      RunExtends(events + front, e);
      RegistrationKept(Run(events + front), e, s, p);
    }
  }

  /** A connection that reconnecting has displaced is no longer in the hub, and whatever its handler
      still does, unregistering included, the hub keeps the new connection: only a further
      connection of that server, or the new one's own handler, removes it. */
  lemma OldConnectionKeepsReplacement(events: seq<Event>, more: seq<Event>, s: Server, replaced: Peer, p: Peer)
    requires s in Run(events).hub.agents && Run(events).hub.agents[s] == replaced
    requires p !in Run(events).agents
    requires Connection(p, Unregister) !in more && forall q :: Connection(q, Connect(s)) !in more
    ensures var h := Run(events + [Connection(p, Connect(s))] + more).hub;
            s in h.agents && h.agents[s] == p && p != replaced
  {
    RunKeeps(events);
    RunExtends(events, Connection(p, Connect(s)));
    ReplacementSurvives(events + [Connection(p, Connect(s))], more, s, p);
    hide Run;
  }

  lemma RegisteredIsLive(events: seq<Event>, s: Server)
    requires s in Run(events).hub.agents
    ensures var w := Run(events); var p := w.hub.agents[s];
            p in w.agents && w.agents[p].server == s && !w.agents[p].unregistered
  {
    RunKeeps(events);
    hide Run, TicketInv, SessionInv, RowInv, RelayInv, TalkInv;
  }

  // ----- tickets -----

  /** A session's server and user are those its ticket was issued for, its handler was admitted
      before the ticket expired, and no other session came of the same ticket. */
  lemma TicketOpensOneSession(events: seq<Event>, id: SessionId, other: SessionId)
    requires id in Run(events).started && other in Run(events).started
    ensures var w := Run(events);
            && w.started[id].browser < |w.browsers| && w.started[other].browser < |w.browsers|
            && (var b := w.browsers[w.started[id].browser];
                && b.token in w.issued && b.ticket == w.issued[b.token] && b.token !in w.hub.tickets
                && w.started[id].session.server == b.ticket.server && w.started[id].session.user == b.ticket.user
                && b.admittedAt <= b.ticket.expires
                && (w.browsers[w.started[other].browser].token == b.token ==> other == id))
  {
    var w := Run(events);
    RunKeeps(events);
    hide Run, RelayInv, TalkInv, RegistryInv, RowInv;
    assert OpeningRow(w, id, w.started[id]) && OpeningRow(w, other, w.started[other]);
    assert BrowserRow(w, w.browsers[w.started[id].browser]);
    var i, j := w.started[id].browser, w.started[other].browser;
    if i < j { assert w.browsers[i].token != w.browsers[j].token; }
    if j < i { assert w.browsers[j].token != w.browsers[i].token; }
  }

  /** Event `k` puts session `id` into the hub. */
  ghost predicate InsertedAt(events: seq<Event>, k: nat, id: SessionId)
    ensures InsertedAt(events, k, id) ==>
            k < |events| && events[k].Handler? && events[k].browser < |Run(events[..k]).browsers|
  {
    && k < |events| && events[k].Handler? && events[k].step == Insert && Enabled(Run(events[..k]), events[k])
    && Run(events[..k]).browsers[events[k].browser].stage.id == id
  }

  /** Handlers keep their tickets, and a session is started once. */
  lemma StartKept(w: World, e: Event)
    ensures var r := Next(w, e);
            && |w.browsers| <= |r.browsers|
            && (forall i :: 0 <= i < |w.browsers| ==> r.browsers[i].ticket == w.browsers[i].ticket)
            && (r.started == w.started || (e.Handler? && e.step == Insert && Enabled(w, e)))
  {
    match e
    case Handler(b, step) =>
      if CanHandle(w, b, step) { HandledShape(w, b, step); if step != Insert { StartedByInsert(w, b, step); } }
      hide Handled;
    case Ending(id, act) => hide Acted; if CanAct(w, id, act) { ActedShape(w, id, act); }
    case Connection(p, move) => hide Moved; if CanMove(w, p, move) { MovedShape(w, p, move); }
    case _ =>
  }

  lemma StartedByInsert(w: World, b: nat, step: HandlerStep)
    requires CanHandle(w, b, step) && step != Insert
    ensures Handled(w, b, step).started == w.started
  {
    hide Handled;
    if Prepares(w, b, step) { PreparedShape(w, b, step); }
    else if Leaves(w, b, step) {
      LeaveShape(w, b, step); EndShape(At(w, b, Returned), w.browsers[b].stage.id, !step.WriteStart?);
    }
    else { RestShape(w, b, step); if step == WriteStart(true) { StartKeepsStarted(w, b); } }
  }

  lemma StartKeepsStarted(w: World, b: nat)
    requires CanHandle(w, b, WriteStart(true))
    ensures Handled(w, b, WriteStart(true)).started == w.started
  {
  }

  lemma {:induction false} InsertMoment(events: seq<Event>, id: SessionId) returns (k: nat)
    requires id in Run(events).started
    ensures InsertedAt(events, k, id)
    ensures var o := Run(events).started[id];
            && o.session.startedAt == Run(events[..k]).now && o.browser == events[k].browser
            && o.browser < |Run(events).browsers|
            && Run(events).browsers[o.browser].ticket == Run(events[..k]).browsers[o.browser].ticket
  {
    var n := |events| - 1;
    var w, e := Run(events[..n]), events[n];
    StartKept(w, e);
    if e.Handler? && e.step == Insert && Enabled(w, e) { CreatedIsNewIn(events[..n], e); }
    assert Run(events) == Next(w, e);
    if id in w.started {
      k := InsertMoment(events[..n], id);
      assert events[..n][..k] == events[..k] && events[..n][k] == events[k];
      StartedStays(w, e, id);
      hide Run, Next;
    } else {
      k := n;
      InsertEffect(w, e.browser);
      hide Run;
    }
  }

  lemma CreatedIsNewIn(events: seq<Event>, e: Event)
    requires e.Handler? && e.step == Insert && Enabled(Run(events), e)
    ensures Run(events).browsers[e.browser].stage.id !in Run(events).started
  {
    RunKeeps(events);
    hide Run;
    CreatedIsNew(Run(events), e.browser);
  }

  lemma InsertEffect(w: World, b: nat)
    requires CanHandle(w, b, Insert)
    ensures var r := Handled(w, b, Insert); var id := w.browsers[b].stage.id;
            && var ticket := w.browsers[b].ticket;
            && r.started == w.started[id :=
                Opening(Session(ticket.server, ticket.user, w.browsers[b].stage.agent, w.now), b)]
            && |r.browsers| == |w.browsers| && r.browsers[b].ticket == w.browsers[b].ticket
  {
  }

  lemma StartedStays(w: World, e: Event, id: SessionId)
    requires id in w.started
    requires e.Handler? && e.step == Insert && Enabled(w, e) ==> w.browsers[e.browser].stage.id !in w.started
    ensures id in Next(w, e).started && Next(w, e).started[id] == w.started[id]
  {
    StartKept(w, e);
    if e.Handler? && e.step == Insert && Enabled(w, e) { InsertEffect(w, e.browser); }
    hide Handled, Moved, Acted;
  }

  /** A session starts within the life of its ticket if and only if the clock had not passed the
      ticket's expiry when the session was put into the hub; nothing checks that. */
  lemma SessionInTimeExactly(events: seq<Event>, id: SessionId)
    requires id in Run(events).started
    ensures var o := Run(events).started[id];
            && o.browser < |Run(events).browsers|
            && (o.session.startedAt <= Run(events).browsers[o.browser].ticket.expires
                <==> exists k: nat :: InsertedInTime(events, k, id))
  {
    hide Run, InsertedAt;
    var k := InsertMoment(events, id);
    forall m: nat | InsertedInTime(events, m, id) ensures InsertedInTime(events, k, id) {
      InsertedOnce(events, k, m, id);
    }
    InTimeMeans(events, k, id);
    hide InsertedInTime;
  }

  lemma InTimeMeans(events: seq<Event>, k: nat, id: SessionId)
    requires InsertedAt(events, k, id)
    ensures InsertedInTime(events, k, id)
            <==> Run(events[..k]).now <= Run(events[..k]).browsers[events[k].browser].ticket.expires
  {
  }

  ghost predicate InsertedInTime(events: seq<Event>, k: nat, id: SessionId) {
    InsertedAt(events, k, id) && Run(events[..k]).now <= Run(events[..k]).browsers[events[k].browser].ticket.expires
  }

  /** After its insert a session is known, so that it cannot be inserted again. */
  lemma {:induction false} KnownAfterInsert(events: seq<Event>, k: nat, n: nat, id: SessionId)
    requires InsertedAt(events, k, id) && k < n <= |events|
    ensures id in Run(events[..n]).started
  {
    var w, e := Run(events[..n - 1]), events[n - 1];
    assert events[..n][..n - 1] == events[..n - 1];
    assert Run(events[..n]) == Next(w, e);
    if k < n - 1 {
      KnownAfterInsert(events, k, n - 1, id);
      if e.Handler? && e.step == Insert && Enabled(w, e) { CreatedIsNewIn(events[..n - 1], e); }
      hide Run;
      StartedStays(w, e, id);
      hide Next;
    } else {
      hide Run;
      InsertEffect(w, e.browser);
    }
  }

  lemma InsertedOnce(events: seq<Event>, k: nat, m: nat, id: SessionId)
    requires InsertedAt(events, k, id) && InsertedAt(events, m, id)
    ensures k == m
  {
    CreatedIsNewIn(events[..k], events[k]);
    CreatedIsNewIn(events[..m], events[m]);
    if k < m { KnownAfterInsert(events, k, m, id); }
    if m < k { KnownAfterInsert(events, m, k, id); }
  }

  // ----- the end of a session -----

  predicate EndsItself(w: World, e: Event, id: SessionId)
    requires id in w.started
  {
    match e
    case Handler(b, step) => b == w.started[id].browser && (step == WriteStart(false) || step.Relay? || step.Return?)
    case Connection(p, EndAffected(x)) => x == id && p == w.started[id].session.agent
    case Connection(p, Dispatch(kind, x)) => x == id && p == w.started[id].session.agent && kind != Output
    case Ending(x, TimeOut) => x == id && w.now >= w.started[id].session.startedAt + 30 * 60
    case _ => false
  }

  /** The step that ends a session is its own handler's failed start or return, its own agent
      connection's error, exit or unregistering, or the end of its thirty minutes. */
  lemma EndsOnlyItself(events: seq<Event>, e: Event, id: SessionId)
    requires id in Run(events).started && id !in Run(events).hub.ended && id in Run(events + [e]).hub.ended
    ensures Enabled(Run(events), e) && EndsItself(Run(events), e, id)
  {
    var w := Run(events);
    RunKeeps(events);
    RunExtends(events, e);
    hide Run, RelayInv, TalkInv, TicketInv, RowInv, SessionInv, RegistryInv, EndsItself, Handled, Moved, Acted,
        CanHandle, CanMove, CanAct;
    match e
    case Handler(b, step) => HandlerEnds(w, b, step, id);
    case Connection(p, move) => ConnectionEnds(w, p, move, id);
    case Ending(x, act) => ActEnds(w, x, act, id);
    case _ =>
  }

  lemma HandlerEnds(w: World, b: nat, step: HandlerStep, id: SessionId)
    requires SessionInv(w) && CanHandle(w, b, step) && id in w.started && id !in w.hub.ended
             && id in Handled(w, b, step).hub.ended
    ensures EndsItself(w, Handler(b, step), id)
  {
    hide SessionInv, Handled;
    if Leaves(w, b, step) {
      LeaveShape(w, b, step);
      EndShape(At(w, b, Returned), w.browsers[b].stage.id, !step.WriteStart?);
      OwnSession(w, b);
      hide End;
    } else if Prepares(w, b, step) { PreparedShape(w, b, step); }
    else { RestShape(w, b, step); RestEndsNone(w, b, step); }
  }

  lemma RestEndsNone(w: World, b: nat, step: HandlerStep)
    requires CanHandle(w, b, step) && (step == Insert || step == WriteStart(true) || Handled(w, b, step) == w)
    ensures Handled(w, b, step).hub.ended == w.hub.ended
  {
  }

  lemma ConnectionEnds(w: World, p: Peer, move: AgentStep, id: SessionId)
    requires SessionInv(w) && RegistryInv(w) && CanMove(w, p, move) && id in w.started && id !in w.hub.ended
             && id in Moved(w, p, move).hub.ended
    ensures EndsItself(w, Connection(p, move), id)
  {
    hide SessionInv, RegistryInv, Affected;
    SessionFacts(w);
    ScansStarted(w);
    match move
    case EndAffected(x) => EndShape(w, x, false); hide End;
    case Dispatch(kind, x) => EndShape(w, x, false); hide End;
    case _ =>
  }

  lemma ActEnds(w: World, x: SessionId, act: EndStep, id: SessionId)
    requires CanAct(w, x, act) && id in w.started && id !in w.hub.ended && id in Acted(w, x, act).hub.ended
    ensures EndsItself(w, Ending(x, act), id)
  {
    EndShape(w, x, true);
    hide End;
  }

  /** An error or exit that an agent sends for a session it was told of removes exactly that session. */
  lemma MessageEndsNamedSession(events: seq<Event>, p: Peer, kind: Kind, id: SessionId)
    requires Enabled(Run(events), Connection(p, Dispatch(kind, id)))
    ensures var w := Run(events); var r := Run(events + [Connection(p, Dispatch(kind, id))]);
            && r.browsers == w.browsers && r.agents == w.agents && r.active == w.active
            && r.hub.agents == w.hub.agents && r.hub.tickets == w.hub.tickets
            && r.hub.sessions == (if kind == Output then w.hub.sessions else w.hub.sessions - {id})
            && (id in w.hub.sessions ==> w.hub.sessions[id].agent == p)
  {
    var w := Run(events);
    RunKeeps(events);
    RunExtends(events, Connection(p, Dispatch(kind, id)));
    hide Run;
    ToldOwn(w, p, id);
    hide Inv;
    DispatchEffect(w, p, kind, id);
  }

  lemma ToldOwn(w: World, p: Peer, id: SessionId)
    requires Inv(w) && Told(w, p, id)
    ensures id in w.hub.sessions ==> w.hub.sessions[id].agent == p
    ensures id in w.started && (id in w.hub.sessions <==> id !in w.hub.ended)
  {
    var j :| 0 <= j < |w.agents[p].down| && w.agents[p].down[j] == Start(id);
    MessageAt(w, p, j);
    SessionFacts(w);
    hide TicketInv, RegistryInv, SessionInv, RowInv, RelayInv, TalkInv;
  }

  lemma DispatchEffect(w: World, p: Peer, kind: Kind, id: SessionId)
    requires CanMove(w, p, Dispatch(kind, id)) && (id in w.hub.sessions <==> id !in w.hub.ended)
    requires id in w.hub.sessions ==> w.hub.sessions[id].agent == p
    ensures var r := Moved(w, p, Dispatch(kind, id));
            && r == w.(hub := w.hub.(sessions := r.hub.sessions, ended := r.hub.ended), ending := r.ending)
            && r.hub.sessions == if kind == Output then w.hub.sessions else w.hub.sessions - {id}
  {
  }

  // ----- a session after its ticket's expiry -----

  /** One more step of a run under construction. */
  lemma Then(events: seq<Event>, e: Event) returns (longer: seq<Event>)
    ensures longer == events + [e] && Run(longer) == Next(Run(events), e)
  {
    RunExtends(events, e);
    longer := events + [e];
  }

  /** A handler that has taken its ticket. */
  lemma TicketTaken() returns (events: seq<Event>)
    ensures Run(events) == World(Hub(map[1 := 7], map[], map[], {}), 0,
            [Browser(10, Ticket(1, 3, 30), 0, Taken, false)],
                                 map[7 := Agent(1, false, false, {}, [])], map[10 := Ticket(1, 3, 30)], map[], map[],
                                     map[], {})
  {
    events := Then([], Connection(7, Connect(1)));
    events := Then(events, CreateTicket(10, 1, 3));
    assert Run(events).hub.tickets == map[10 := Ticket(1, 3, 30)];
    hide Run;
    events := Then(events, Redeem(10));
    assert Run(events).hub.tickets == map[];
  }

  /** A handler that has passed every check. */
  lemma AllChecksPass() returns (events: seq<Event>)
    ensures Run(events) == World(Hub(map[1 := 7], map[], map[], {}), 0,
            [Browser(10, Ticket(1, 3, 30), 0, Free(7), false)],
                                 map[7 := Agent(1, false, false, {}, [])], map[10 := Ticket(1, 3, 30)], map[], map[],
                                     map[], {})
  {
    hide Run, Moved, Acted, Issued;
    events := TicketTaken();
    events := Then(events, Handler(0, Admit));
    events := Then(events, Handler(0, LookUp));
    events := Then(events, Handler(0, CheckFree));
  }

  /** Expiry is checked when the ticket is taken: the session itself can start later. */
  lemma SessionCanStartAfterExpiry() returns (events: seq<Event>)
    ensures var w := Run(events);
            && 20 in w.hub.sessions && 20 in w.started && w.started[20].browser < |w.browsers|
            && w.browsers[w.started[20].browser].ticket.expires < w.hub.sessions[20].startedAt
  {
    events := AllChecksPass();
    hide Run, Moved, Acted;
    events := Then(events, Wait(31));
    events := Then(events, Handler(0, CreateRow(20, Stored)));
    events := Then(events, Handler(0, Insert));
  }
}
