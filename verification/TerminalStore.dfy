/** The hub object of backend/internal/core/terminal/service.go, method by method.  Every method is
one or more events of the hub's run, so what is proved of runs holds of the object.
*/
module TerminalStore {
  import opened Options
  import opened TerminalHub
  import P = TerminalProofs
  import T = TerminalTheorems

  class HubStore {
    var agents: map<Server, Peer>
    var tickets: map<Token, Ticket>
    var sessions: map<SessionId, Session>
    var ended: set<SessionId>
    ghost var events: seq<Event>

    ghost function State(): Hub reads this { Hub(agents, tickets, sessions, ended) }

    ghost predicate Valid() reads this { Run(events).hub == State() }

    constructor ()
      ensures Valid() && events == [] && agents == map[] && tickets == map[] && sessions == map[]
    {
      agents, tickets, sessions, ended := map[], map[], map[], {};
      events := [];
    }

    // ----- what holds of the object between its methods -----

    lemma OneSession(id: SessionId, other: SessionId)
      requires Valid() && id in sessions && other in sessions && sessions[id].server == sessions[other].server
      ensures id == other
    {
      P.RunKeeps(events);
      P.SessionFacts(Run(events));
      hide Run, Inv;
      T.OneSessionPerServer(events, id, other);
    }

    lemma EndedAreGone()
      requires Valid()
      ensures sessions.Keys !! ended
    {
      P.RunKeeps(events);
      P.SessionFacts(Run(events));
      hide Run;
    }

    /** What the handlers do outside the mutex: the hub stays as it is. */
    ghost method Elsewhere(e: Event)
      requires Valid() && Run(events + [e]).hub == State()
      modifies this`events
      ensures Valid() && events == old(events) + [e]
    {
      events := events + [e];
    }

    // ----- tickets -----

    /** Of the earlier tickets exactly those remain that have not expired and are not of this pair. */
    method CreateTicket(token: Token, server: Server, user: User, now: int)
      requires Valid() && token !in Run(events).issued && now == Run(events).now
      modifies this`tickets, this`events
      ensures Valid() && events == old(events) + [Event.CreateTicket(token, server, user)]
      ensures token in tickets && tickets[token] == Ticket(server, user, now + 30)
      ensures forall t :: t in tickets && t != token <==>
                && t in old(tickets) && t != token && now <= old(tickets)[t].expires
                && !(old(tickets)[t].server == server && old(tickets)[t].user == user)
      ensures forall t :: t in old(tickets) && t in tickets && t != token ==> tickets[t] == old(tickets)[t]
    {
      T.RunExtends(events, Event.CreateTicket(token, server, user));
      hide Run;
      var keys := tickets.Keys;
      var all := tickets;
      while keys != {}
        invariant keys <= all.Keys && events == old(events)
        invariant tickets == map t | t in all && (t in keys || !Purged(all[t], server, user, now)) :: all[t]
      {
        var key :| key in keys;
        if tickets[key].expires < now || (tickets[key].server == server && tickets[key].user == user) {
          tickets := tickets - {key};
        }
        keys := keys - {key};
      }
      assert tickets == map t | t in all && !Purged(all[t], server, user, now) :: all[t];
      tickets := tickets[token := Ticket(server, user, now + TICKET_LIFETIME)];
      events := events + [Event.CreateTicket(token, server, user)];
    }

    /** A ticket leaves the map whether or not it turns out to be good. */
    method TakeTicket(token: Token, now: int) returns (good: Option<Ticket>)
      requires Valid()
      modifies this`tickets, this`events
      ensures Valid() && events == (if token in old(tickets) then old(events) + [Redeem(token)] else old(events))
      ensures tickets == old(tickets) - {token}
      ensures good.Some? <==> token in old(tickets) && now <= old(tickets)[token].expires
      ensures good.Some? ==> good.value == old(tickets)[token]
    {
      T.RunExtends(events, Redeem(token));
      hide Run;
      var found := if token in tickets then Some(tickets[token]) else None;
      if token in tickets { events := events + [Redeem(token)]; }
      tickets := tickets - {token};
      if found.None? || found.value.expires < now { return None; }
      return found;
    }

    // ----- connections -----

    /** The connection that was there is returned, to be closed. */
    method RegisterAgent(server: Server, agent: Peer) returns (replaced: Option<Peer>)
      requires Valid() && agent !in Run(events).agents
      modifies this`agents, this`events
      ensures Valid() && events == old(events) + [Connection(agent, Connect(server))]
      ensures server in agents && agents[server] == agent
      ensures forall s :: s != server ==>
              (s in agents <==> s in old(agents)) && (s in agents ==> agents[s] == old(agents)[s])
      ensures replaced.Some? <==> server in old(agents)
      ensures replaced.Some? ==> replaced.value == old(agents)[server] && replaced.value != agent
    {
      T.RunExtends(events, Connection(agent, Connect(server)));
      Known(server);
      hide Run;
      var was := if server in agents then Some(agents[server]) else None;
      agents := agents[server := agent];
      events := events + [Connection(agent, Connect(server))];
      replaced := if was.Some? && was.value != agent then was else None;
    }

    lemma Known(server: Server)
      requires Valid()
      ensures server in agents ==> agents[server] in Run(events).agents
    {
      hide Run;
      if server in agents { T.RegisteredIsLive(events, server); }
    }

    method HasActiveSession(server: Server) returns (busy: bool)
      ensures busy <==> exists s :: s in sessions && sessions[s].server == server
    {
      var rest := sessions.Keys;
      while rest != {}
        invariant rest <= sessions.Keys
        invariant forall s :: s in sessions && s !in rest ==> sessions[s].server != server
      {
        var s :| s in rest;
        if sessions[s].server == server { return true; }
        rest := rest - {s};
      }
      return false;
    }

    /** A browser handler with its row puts its session in: the only one of its server. */
    method OpenSession(id: SessionId, session: Session, ghost browser: nat)
      requires Valid() && Enabled(Run(events), Handler(browser, Insert))
      requires var w := Run(events); var b := w.browsers[browser];
               b.stage == Created(session.agent, id)
                   && session == Session(b.ticket.server, b.ticket.user, session.agent, w.now)
      modifies this`sessions, this`events
      ensures Valid() && events == old(events) + [Handler(browser, Insert)]
      ensures id !in old(sessions) && sessions == old(sessions)[id := session]
      ensures forall other :: other in sessions && sessions[other].server == session.server ==> other == id
    {
      hide Run, Next, Enabled;
      InsertedNew(events, browser, id, session);
      sessions := sessions[id := session];
      events := events + [Handler(browser, Insert)];
      forall other | other in sessions && sessions[other].server == session.server ensures other == id {
        OneSession(other, id);
      }
    }

    /** The handler, its timer or its failed start ends a session; `e` is that event of the run. */
    method CloseSession(id: SessionId, ghost e: Event)
      requires Valid() && Run(events + [e]).hub == Ended(State(), id)
      modifies this`sessions, this`ended, this`events
      ensures Valid() && events == old(events) + [e] && sessions == old(sessions) - {id}
    {
      hide Run;
      EndedAreGone();
      EndSession(id);
      events := events + [e];
    }

    /** The part of `endSession` under the lock. */
    method EndSession(id: SessionId)
      modifies this`sessions, this`ended
      ensures State() == Ended(old(State()), id)
    {
      if id !in ended {
        ended := ended + {id};
        sessions := sessions - {id};
      }
    }

    /** The scan, and then the end of every session it found.  Afterwards no session of the
        connection is in the hub, and the server's entry is gone only if it was this connection's. */
    method UnregisterAgent(server: Server, agent: Peer)
      requires Valid() && Enabled(Run(events), Connection(agent, Unregister))
               && Run(events).agents[agent].server == server
      modifies this`agents, this`sessions, this`ended, this`events
      ensures Valid() && old(events) <= events
      ensures forall id :: id in sessions <==> id in old(sessions) && old(sessions)[id].agent != agent
      ensures forall id :: id in sessions ==> sessions[id] == old(sessions)[id]
      ensures forall s :: s in agents <==> s in old(agents) && old(agents)[s] != agent
      ensures forall s :: s in agents ==> agents[s] == old(agents)[s]
      ensures agent in Run(events).agents && Run(events).agents[agent].unregistered
              && Run(events).agents[agent].toEnd == {}
    {
      hide Run;
      Own(server, agent);
      if server in agents && agents[server] == agent {
        agents := agents - {server};
      }
      var affected := Collect(server, agent);
      events := events + [Connection(agent, Unregister)];
      Scanned(old(events), server, agent, old(State()));
      hide Next, Enabled;
      EndAll(agent, affected);
      assert forall id :: id in affected <==> id in old(sessions) && old(sessions)[id].agent == agent;
    }

    lemma Own(server: Server, agent: Peer)
      requires Valid() && agent in Run(events).agents && Run(events).agents[agent].server == server
      ensures forall id :: id in sessions && sessions[id].agent == agent ==> sessions[id].server == server
      ensures forall s :: s in agents && agents[s] == agent ==> s == server
    {
      hide Run;
      OwnServer(events, agent);
    }

    method Collect(server: Server, agent: Peer) returns (affected: set<SessionId>)
      ensures affected == Affected(State(), server, agent)
    {
      affected := {};
      var rest := sessions.Keys;
      while rest != {}
        invariant rest <= sessions.Keys
        invariant affected == set s | s in sessions && s !in rest && sessions[s].server == server
                  && sessions[s].agent == agent
      {
        var s :| s in rest;
        if sessions[s].server == server && sessions[s].agent == agent {
          affected := affected + {s};
        }
        rest := rest - {s};
      }
    }

    method EndAll(agent: Peer, affected: set<SessionId>)
      requires Valid() && affected <= sessions.Keys
      requires agent in Run(events).agents && Run(events).agents[agent].unregistered
               && Run(events).agents[agent].toEnd == affected
      modifies this`sessions, this`ended, this`events
      ensures Valid() && old(events) <= events && sessions == old(sessions) - affected
      ensures agent in Run(events).agents && Run(events).agents[agent].unregistered
              && Run(events).agents[agent].toEnd == {}
    {
      hide Run, Next;
      var pending := affected;
      while pending != {}
        invariant pending <= affected && old(events) <= events
        invariant Valid() && sessions == old(sessions) - (affected - pending)
        invariant agent in Run(events).agents && Run(events).agents[agent].unregistered
                  && Run(events).agents[agent].toEnd == pending
      {
        var s :| s in pending;
        T.RunExtends(events, Connection(agent, EndAffected(s)));
        AffectedEnds(Run(events), agent, s);
        EndedAreGone();
        EndSession(s);
        events := events + [Connection(agent, EndAffected(s))];
        pending := pending - {s};
      }
    }

    /** An error or exit ends the session it names, if that session belongs to the connection the
        message came over; nothing else changes. */
    method DispatchAgentMessage(agent: Peer, kind: Kind, id: SessionId)
      requires Valid()
      modifies this`sessions, this`ended, this`events
      ensures forall x ::
                x in sessions <==> x in old(sessions) && !(x == id && kind != Output && old(sessions)[x].agent == agent)
      ensures forall x :: x in sessions ==> sessions[x] == old(sessions)[x]
      ensures events == old(events) + [Connection(agent, Dispatch(kind, id))]
      ensures Enabled(Run(old(events)), Connection(agent, Dispatch(kind, id))) ==> Valid()
    {
      T.RunExtends(events, Connection(agent, Dispatch(kind, id)));
      EndedAreGone();
      hide Run;
      events := events + [Connection(agent, Dispatch(kind, id))];
      if id !in sessions || sessions[id].agent != agent { return; }
      match kind
      case Output =>
      case Error => EndSession(id);
      case Exit => EndSession(id);
    }
  }

  /** A session of a connection, or a registration, is of the connection's server. */
  lemma OwnServer(events: seq<Event>, p: Peer)
    requires p in Run(events).agents
    ensures var w := Run(events);
            && (forall id :: id in w.hub.sessions && w.hub.sessions[id].agent == p ==>
                w.hub.sessions[id].server == w.agents[p].server)
            && (forall s :: s in w.hub.agents && w.hub.agents[s] == p ==> s == w.agents[p].server)
  {
    var w := Run(events);
    P.RunKeeps(events);
    hide Run, TicketInv, RowInv, RelayInv, TalkInv;
    forall id | id in w.hub.sessions && w.hub.sessions[id].agent == p
      ensures w.hub.sessions[id].server == w.agents[p].server {
      assert OpeningRow(w, id, w.started[id]);
    }
  }

  lemma AffectedEnds(w: World, p: Peer, id: SessionId)
    requires p in w.agents && id in w.agents[p].toEnd
    ensures var r := Next(w, Connection(p, EndAffected(id)));
            r.hub == Ended(w.hub, id) && r.agents == w.agents[p := w.agents[p].(toEnd := w.agents[p].toEnd - {id})]
  {
  }

  lemma Scanned(events: seq<Event>, server: Server, p: Peer, h: Hub)
    requires Enabled(Run(events), Connection(p, Unregister)) && Run(events).agents[p].server == server
             && Run(events).hub == h
    ensures var r := Run(events + [Connection(p, Unregister)]);
            && r.hub == Unregistered(h, server, p) && p in r.agents && r.agents[p].unregistered
            && r.agents[p].toEnd == Affected(h, server, p)
  {
    T.RunExtends(events, Connection(p, Unregister));
    hide Run, Affected;
  }

  lemma InsertedNew(events: seq<Event>, b: nat, id: SessionId, session: Session)
    requires Enabled(Run(events), Handler(b, Insert))
    requires var w := Run(events); var browser := w.browsers[b];
             browser.stage == Created(session.agent, id)
                 && session == Session(browser.ticket.server, browser.ticket.user, session.agent, w.now)
    ensures id !in Run(events).hub.sessions
    ensures Run(events + [Handler(b, Insert)]).hub == Opened(Run(events).hub, id, session)
  {
    hide Run, Inv;
    T.RunExtends(events, Handler(b, Insert));
    T.CreatedIsNewIn(events, Handler(b, Insert));
    P.RunKeeps(events);
    SessionsStarted(Run(events));
  }

  lemma SessionsStarted(w: World)
    requires Inv(w)
    ensures forall id :: id in w.hub.sessions ==> id in w.started
  {
    hide TicketInv, RegistryInv, RowInv, RelayInv, TalkInv;
  }
}
