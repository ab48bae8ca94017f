/** The reverse-terminal hub of backend/internal/core/terminal: tickets, agent connections, browser
sessions and the `terminal_sessions` rows behind them.  Every handler is a goroutine, and an event
is one of its critical sections, statements or writes, so that the check of a handler and the act
that follows it are separate steps.
*/
module TerminalHub {
  type Server = nat
  type User = nat
  type Token = nat
  type Peer = nat
  type SessionId = nat

  const TICKET_LIFETIME := 30
  const SESSION_LIFETIME := 1800

  datatype Ticket = Ticket(server: Server, user: User, expires: int)

  datatype Session = Session(server: Server, user: User, agent: Peer, startedAt: int)

  /** What the mutex protects, with the `once` of every session. */
  datatype Hub = Hub(agents: map<Server, Peer>, tickets: map<Token, Ticket>, sessions: map<SessionId, Session>,
      ended: set<SessionId>)

  // ----- critical sections -----

  /** `CreateTicket`: the pair's earlier tickets and the expired ones go first. */
  function Issued(h: Hub, token: Token, server: Server, user: User, now: int): Hub {
    var kept := map t | t in h.tickets && !Purged(h.tickets[t], server, user, now) :: h.tickets[t];
    h.(tickets := kept[token := Ticket(server, user, now + TICKET_LIFETIME)])
  }

  predicate Purged(t: Ticket, server: Server, user: User, now: int) {
    t.expires < now || (t.server == server && t.user == user)
  }

  function Redeemed(h: Hub, token: Token): Hub { h.(tickets := h.tickets - {token}) }

  predicate Busy(h: Hub, server: Server) {
    exists s :: s in h.sessions && h.sessions[s].server == server
  }

  function Registered(h: Hub, server: Server, agent: Peer): Hub { h.(agents := h.agents[server := agent]) }

  function Unregistered(h: Hub, server: Server, agent: Peer): Hub {
    if server in h.agents && h.agents[server] == agent then h.(agents := h.agents - {server}) else h
  }

  /** The sessions the scan of `unregisterAgent` collects. */
  function Affected(h: Hub, server: Server, agent: Peer): set<SessionId> {
    set s | s in h.sessions && h.sessions[s].server == server && h.sessions[s].agent == agent
  }

  function Opened(h: Hub, id: SessionId, s: Session): Hub { h.(sessions := h.sessions[id := s]) }

  /** The part of `endSession` under the lock: nothing the second time. */
  function Ended(h: Hub, id: SessionId): Hub {
    if id in h.ended then h else h.(sessions := h.sessions - {id}, ended := h.ended + {id})
  }

  datatype Kind = Output | Error | Exit

  /** `dispatchAgentMessage`: an error or exit ends the session it names, if the message came over
      that session's own connection. */
  predicate Ends(h: Hub, agent: Peer, kind: Kind, id: SessionId) {
    id in h.sessions && h.sessions[id].agent == agent && kind != Output
  }

  function Dispatched(h: Hub, agent: Peer, kind: Kind, id: SessionId): Hub {
    if Ends(h, agent, kind, id) then Ended(h, id) else h
  }

  // ----- goroutines -----

  /** A browser handler has taken a ticket, has found it unexpired, has looked up the agent, has
      passed the busy check, has its row, has put its session into the hub, relays, or has returned. */
  datatype Stage =
    | Taken | Admitted | Found(agent: Peer) | Free(agent: Peer) | Created(agent: Peer, id: SessionId)
    | Inserted(id: SessionId) | Relaying(id: SessionId) | Returned

  /** `closed` says that `endSession` has closed the browser's connection. */
  datatype Browser = Browser(token: Token, ticket: Ticket, admittedAt: int, stage: Stage, closed: bool)

  datatype Message = Start(id: SessionId) | Close(id: SessionId)

  /** An agent handler: whether its connection is closed, whether it has run the critical section
      of `unregisterAgent`, which of the sessions found there it has yet to end, and what has been
      written to the agent so far. */
  datatype Agent = Agent(server: Server, closed: bool, unregistered: bool, toEnd: set<SessionId>, down: seq<Message>)

  datatype Opening = Opening(session: Session, browser: nat)

  /** What `endSession` still has to do after the lock, in this order. */
  datatype Phase = ToNotify | ToHangUp | ToFreeRow

  /** `active` are the rows with status `active`, by server: the table's unique index.  `issued`,
      `started` and `ids` remember every ticket, session and row there has been. */
  datatype World = World(hub: Hub, now: int, browsers: seq<Browser>, agents: map<Peer, Agent>, issued: map<Token,
      Ticket>,
                         started: map<SessionId, Opening>, ending: map<SessionId, Phase>, active: map<Server,
                             SessionId>, ids: set<SessionId>)

  /** A lost row was inserted, but the handler sees an error. */
  datatype RowOutcome = Stored | Refused | Lost

  datatype HandlerStep =
    | Admit | LookUp | CheckFree | CreateRow(id: SessionId,
        outcome: RowOutcome) | Insert | WriteStart(ok: bool) | Relay(ok: bool) | Return

  datatype AgentStep =
    | Connect(server: Server) | CloseConnection | Unregister | EndAffected(id: SessionId)
    | Dispatch(kind: Kind, id: SessionId)

  datatype EndStep = TimeOut | WriteClose(ok: bool) | HangUp | FreeRow(ok: bool)

  datatype Event =
    | Wait(seconds: nat)
    | CreateTicket(token: Token, server: Server, user: User)
    | Redeem(token: Token)
    | Handler(browser: nat, step: HandlerStep)
    | Connection(agent: Peer, move: AgentStep)
    | Ending(id: SessionId, act: EndStep)

  predicate Stands(w: World, b: nat) { b < |w.browsers| }

  /** No write to a closed connection succeeds. */
  predicate Writable(w: World, id: SessionId) {
    id in w.started && w.started[id].session.agent in w.agents && !w.agents[w.started[id].session.agent].closed
  }

  predicate Told(w: World, p: Peer, id: SessionId) { p in w.agents && Start(id) in w.agents[p].down }

  /** The row insert succeeds only for a new id and a server without an active row. */
  predicate CanHandle(w: World, b: nat, step: HandlerStep) {
    && Stands(w, b)
    && var stage := w.browsers[b].stage;
    match step
    case Admit => stage.Taken?
    case LookUp => stage.Admitted?
    case CheckFree => stage.Found?
    case CreateRow(id, outcome) =>
      stage.Free? && id !in w.ids && (!outcome.Refused? ==> w.browsers[b].ticket.server !in w.active)
    case Insert => stage.Created?
    case WriteStart(ok) => stage.Inserted? && (ok ==> Writable(w, stage.id))
    case Relay(ok) => stage.Relaying? && (ok ==> Writable(w, stage.id))
    case Return => !stage.Created? && !stage.Inserted? && !stage.Returned?
  }

  /** An agent names only sessions that were started over this connection. */
  predicate CanMove(w: World, p: Peer, move: AgentStep) {
    match move
    case Connect(_) => p !in w.agents
    case CloseConnection => p in w.agents
    case Unregister => p in w.agents && w.agents[p].closed && !w.agents[p].unregistered
    case EndAffected(id) => p in w.agents && id in w.agents[p].toEnd
    case Dispatch(_, id) => Told(w, p, id) && !w.agents[p].unregistered
  }

  predicate CanAct(w: World, id: SessionId, act: EndStep) {
    match act
    case TimeOut =>
      && id in w.started && w.now >= w.started[id].session.startedAt + SESSION_LIFETIME
      && Stands(w, w.started[id].browser) && w.browsers[w.started[id].browser].stage == Relaying(id)
    case WriteClose(ok) => id in w.ending && w.ending[id] == ToNotify && (ok ==> Writable(w, id))
    case HangUp => id in w.ending && w.ending[id] == ToHangUp && id in w.started && Stands(w, w.started[id].browser)
    case FreeRow(_) => id in w.ending && w.ending[id] == ToFreeRow && id in w.started
  }

  predicate Enabled(w: World, e: Event) {
    match e
    case Wait(_) => true
    case CreateTicket(token, _, _) => token !in w.issued
    case Redeem(token) => token in w.hub.tickets
    case Handler(b, step) => CanHandle(w, b, step)
    case Connection(p, move) => CanMove(w, p, move)
    case Ending(id, act) => CanAct(w, id, act)
  }

  function At(w: World, b: nat, stage: Stage): World
    requires Stands(w, b)
  {
    w.(browsers := w.browsers[b := w.browsers[b].(stage := stage)])
  }

  /** `endSession` with its `notifyAgent` flag, up to the unlock. */
  function End(w: World, id: SessionId, notify: bool): World {
    if id in w.hub.ended then w
    else w.(hub := Ended(w.hub, id), ending := w.ending[id := if notify then ToNotify else ToHangUp])
  }

  /** A message for the agent of session `id`. */
  function Write(w: World, id: SessionId, m: Message): World
    requires Writable(w, id)
  {
    var p := w.started[id].session.agent;
    w.(agents := w.agents[p := w.agents[p].(down := w.agents[p].down + [m])])
  }

  function HoldRow(w: World, server: Server, id: SessionId): World {
    w.(active := w.active[server := id], ids := w.ids + {id})
  }

  /** The handler of a relaying session leaves its loop. */
  function Leave(w: World, b: nat): World
    requires Stands(w, b) && w.browsers[b].stage.Relaying?
  {
    End(At(w, b, Returned), w.browsers[b].stage.id, true)
  }

  function Handled(w: World, b: nat, step: HandlerStep): World
    requires CanHandle(w, b, step)
  {
    var browser := w.browsers[b];
    var server := browser.ticket.server;
    match step
    case Admit =>
      if browser.ticket.expires < w.now then At(w, b, Returned)
      else w.(browsers := w.browsers[b := browser.(stage := Admitted, admittedAt := w.now)])
    case LookUp => At(w, b, if server in w.hub.agents then Found(w.hub.agents[server]) else Returned)
    case CheckFree => At(w, b, if Busy(w.hub, server) then Returned else Free(browser.stage.agent))
    case CreateRow(id, outcome) =>
      match outcome {
        case Stored => HoldRow(At(w, b, Created(browser.stage.agent, id)), server, id)
        case Refused => At(w, b, Returned)
        case Lost => HoldRow(At(w, b, Returned), server, id)
      }
    case Insert =>
      var id := browser.stage.id;
      var s := Session(server, browser.ticket.user, browser.stage.agent, w.now);
      At(w, b, Inserted(id)).(hub := Opened(w.hub, id, s), started := w.started[id := Opening(s, b)])
    case WriteStart(ok) =>
      var id := browser.stage.id;
      if ok then Write(At(w, b, Relaying(id)), id, Start(id)) else End(At(w, b, Returned), id, false)
    case Relay(ok) => if ok && browser.stage.id !in w.hub.ended then w else Leave(w, b)
    case Return => if browser.stage.Relaying? then Leave(w, b) else At(w, b, Returned)
  }

  function Moved(w: World, p: Peer, move: AgentStep): World
    requires CanMove(w, p, move)
  {
    match move
    case Connect(server) => w.(hub := Registered(w.hub, server, p),
        agents := w.agents[p := Agent(server, false, false, {}, [])])
    case CloseConnection => w.(agents := w.agents[p := w.agents[p].(closed := true)])
    case Unregister =>
      var server := w.agents[p].server;
      w.(hub := Unregistered(w.hub, server, p),
         agents := w.agents[p := w.agents[p].(unregistered := true, toEnd := Affected(w.hub, server, p))])
    case EndAffected(id) =>
      End(w, id, false).(agents := w.agents[p := w.agents[p].(toEnd := w.agents[p].toEnd - {id})])
    case Dispatch(kind, id) => if Ends(w.hub, p, kind, id) then End(w, id, false) else w
  }

  predicate HoldsRow(w: World, server: Server, id: SessionId) { server in w.active && w.active[server] == id }

  function Acted(w: World, id: SessionId, act: EndStep): World
    requires CanAct(w, id, act)
  {
    match act
    case TimeOut => End(w, id, true)
    case WriteClose(ok) =>
      var told := w.(ending := w.ending[id := ToHangUp]);
      if ok then Write(told, id, Close(id)) else told
    case HangUp =>
      var b := w.started[id].browser;
      w.(browsers := w.browsers[b := w.browsers[b].(closed := true)], ending := w.ending[id := ToFreeRow])
    case FreeRow(ok) =>
      var server := w.started[id].session.server;
      w.(ending := w.ending - {id}, active := if ok && HoldsRow(w, server, id) then w.active - {server} else w.active)
  }

  function Next(w: World, e: Event): World {
    if !Enabled(w, e) then w
    else
      match e
      case Wait(seconds) => w.(now := w.now + seconds)
      case CreateTicket(token, server, user) =>
        w.(hub := Issued(w.hub, token, server, user, w.now),
            issued := w.issued[token := Ticket(server, user, w.now + TICKET_LIFETIME)])
      case Redeem(token) =>
        w.(hub := Redeemed(w.hub, token),
            browsers := w.browsers + [Browser(token, w.hub.tickets[token], w.now, Taken, false)])
      case Handler(b, step) => Handled(w, b, step)
      case Connection(p, move) => Moved(w, p, move)
      case Ending(id, act) => Acted(w, id, act)
  }

  function Beginning(): World { World(Hub(map[], map[], map[], {}), 0, [], map[], map[], map[], map[], map[], {}) }

  function Run(events: seq<Event>): World {
    if events == [] then Beginning() else Next(Run(events[..|events| - 1]), events[|events| - 1])
  }

  // ----- the invariant -----

  ghost predicate BrowserRow(w: World, b: Browser) {
    && b.token in w.issued && b.token !in w.hub.tickets && w.issued[b.token] == b.ticket
    && (!b.stage.Taken? && !b.stage.Returned? ==> b.admittedAt <= b.ticket.expires)
    && (b.stage.Found? || b.stage.Free? || b.stage.Created? ==>
          b.stage.agent in w.agents && w.agents[b.stage.agent].server == b.ticket.server)
  }

  ghost predicate TicketInv(w: World) {
    && (forall i :: 0 <= i < |w.browsers| ==> BrowserRow(w, w.browsers[i]))
    && (forall i, j :: 0 <= i < j < |w.browsers| ==> w.browsers[i].token != w.browsers[j].token)
    && (forall t :: t in w.hub.tickets ==> t in w.issued && w.issued[t] == w.hub.tickets[t])
  }

  /** A connection in the hub has not been unregistered, and only an unregistered one scans. */
  ghost predicate RegistryInv(w: World) {
    && (forall s :: s in w.hub.agents ==>
          w.hub.agents[s] in w.agents && w.agents[w.hub.agents[s]].server == s
              && !w.agents[w.hub.agents[s]].unregistered)
    && (forall p :: p in w.agents && w.agents[p].unregistered ==> w.agents[p].closed)
    && (forall p :: p in w.agents ==> ScanRow(w, p, w.agents[p]))
  }

  ghost predicate ScanRow(w: World, p: Peer, a: Agent) {
    forall id :: id in a.toEnd ==> a.unregistered && id in w.started && w.started[id].session.agent == p
  }

  ghost predicate Holds(stage: Stage, id: SessionId) { stage == Inserted(id) || stage == Relaying(id) }

  /** A session belongs to one handler, which was admitted in time with a ticket for the session's
      server and user, and to a connection of that server. */
  ghost predicate OpeningRow(w: World, id: SessionId, o: Opening) {
    && o.browser < |w.browsers|
    && (Holds(w.browsers[o.browser].stage, id) || w.browsers[o.browser].stage.Returned?)
    && o.session.server == w.browsers[o.browser].ticket.server && o.session.user == w.browsers[o.browser].ticket.user
    && w.browsers[o.browser].admittedAt <= w.browsers[o.browser].ticket.expires
    && o.session.agent in w.agents && w.agents[o.session.agent].server == o.session.server
    && (w.browsers[o.browser].stage.Returned? ==> id in w.hub.ended)
  }

  ghost predicate HandlerRow(w: World, i: nat)
    requires i < |w.browsers|
  {
    var stage := w.browsers[i].stage;
    (stage.Inserted? || stage.Relaying?) ==> stage.id in w.started && w.started[stage.id].browser == i
  }

  ghost predicate SessionInv(w: World) {
    && (forall id :: id in w.started ==> OpeningRow(w, id, w.started[id]))
    && (forall id, other ::
          id in w.started && other in w.started && w.started[id].browser == w.started[other].browser ==> id == other)
    && (forall i :: 0 <= i < |w.browsers| ==> HandlerRow(w, i))
    && (forall id :: id in w.hub.sessions ==> id in w.started && w.hub.sessions[id] == w.started[id].session)
    && (forall id :: id in w.started ==> (id in w.hub.sessions <==> id !in w.hub.ended))
    && w.hub.ended <= w.started.Keys && w.ending.Keys <= w.hub.ended
  }

  ghost predicate InUse(w: World, id: SessionId) { id in w.started && (id in w.hub.sessions || id in w.ending) }

  ghost predicate CreatedRow(w: World, b: Browser) {
    b.stage.Created? ==> HoldsRow(w, b.ticket.server, b.stage.id) && b.stage.id !in w.started && b.stage.id in w.ids
  }

  /** A session holds its server's active row from before it enters the hub until `endSession` has
      done everything else. */
  ghost predicate RowInv(w: World) {
    && (forall i :: 0 <= i < |w.browsers| ==> CreatedRow(w, w.browsers[i]))
    && (forall i, j :: 0 <= i < j < |w.browsers| && w.browsers[i].stage.Created? && w.browsers[j].stage.Created? ==>
          w.browsers[i].stage.id != w.browsers[j].stage.id)
    && (forall id :: InUse(w, id) ==> HoldsRow(w, w.started[id].session.server, id))
    && w.started.Keys <= w.ids && (forall s :: s in w.active ==> w.active[s] in w.ids)
    && (forall s, t :: s in w.active && t in w.active && w.active[s] == w.active[t] ==> s == t)
  }

  /** Nothing more can be written to the session's agent. */
  ghost predicate Dead(w: World, id: SessionId) {
    id in w.started && w.started[id].session.agent in w.agents && w.agents[w.started[id].session.agent].closed
  }

  /** A relaying session that has not been ended has a connection that has not been unregistered,
      or the handler that unregistered it is still going to end the session.  One that has been
      ended has a closed browser, or the goroutine that ends it is still going to close it. */
  ghost predicate RelayRow(w: World, b: Browser) {
    && (b.stage.Relaying? && b.stage.id in w.started && b.stage.id !in w.hub.ended ==>
          var p := w.started[b.stage.id].session.agent;
          p in w.agents && (w.agents[p].unregistered ==> b.stage.id in w.agents[p].toEnd))
    && (b.stage.Relaying? && b.stage.id in w.hub.ended && !b.closed ==>
        b.stage.id in w.ending && w.ending[b.stage.id] != ToFreeRow)
    && (b.stage.Inserted? && b.stage.id in w.hub.ended ==> Dead(w, b.stage.id))
  }

  ghost predicate RelayInv(w: World) {
    forall i :: 0 <= i < |w.browsers| ==> RelayRow(w, w.browsers[i])
  }

  /** Message `j` of a connection: the one start of a session of that connection, when all earlier
      ones have been ended; or the one close of a session, directly after its start. */
  ghost predicate MessageRow(w: World, p: Peer, j: nat)
    requires p in w.agents && j < |w.agents[p].down|
  {
    var down := w.agents[p].down;
    var id := down[j].id;
    && id in w.started && w.started[id].session.agent == p && w.started[id].browser < |w.browsers|
    && !w.browsers[w.started[id].browser].stage.Inserted?
    && down[j] !in down[..j]
    && (down[j].Start? ==> forall i :: 0 <= i < j ==> down[i].id in w.hub.ended)
    && (down[j].Close? ==>
          id in w.hub.ended && (id in w.ending ==> w.ending[id] != ToNotify) && j > 0 && down[j - 1] == Start(id))
  }

  /** The session is being relayed, or its close is still to be written. */
  ghost predicate Speaks(w: World, id: SessionId) {
    id in w.started
    && ((id in w.hub.sessions && w.started[id].browser < |w.browsers|
        && w.browsers[w.started[id].browser].stage == Relaying(id))
        || (id in w.ending && w.ending[id] == ToNotify))
  }

  ghost predicate Last(w: World, id: SessionId)
    requires id in w.started
  {
    var p := w.started[id].session.agent;
    p in w.agents && w.agents[p].down != [] && w.agents[p].down[|w.agents[p].down| - 1] == Start(id)
  }

  ghost predicate TalkInv(w: World) {
    && (forall p, j :: p in w.agents && 0 <= j < |w.agents[p].down| ==> MessageRow(w, p, j))
    && (forall id :: Speaks(w, id) ==> Last(w, id))
  }

  ghost predicate Inv(w: World) {
    TicketInv(w) && RegistryInv(w) && SessionInv(w) && RowInv(w) && RelayInv(w) && TalkInv(w)
  }
}
