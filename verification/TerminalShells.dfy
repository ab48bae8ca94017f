/** A session from the browser's ticket to a running shell and back, through the hub and the agent. */
module TerminalShells {
  import opened Options
  import H = TerminalHub
  import P = TerminalProofs
  import S = TerminalSteps
  import T = TerminalTheorems
  import A = TerminalAgent
  import opened L = TerminalLink

  lemma Then(events: seq<Event>, e: Event) returns (longer: seq<Event>)
    ensures longer == events + [e] && Run(longer) == Next(Run(events), e)
  {
    RunExtends(events, e);
    longer := events + [e];
  }

  /** A step of the hub that is no connection's. */
  lemma HubMove(l: Link, h: H.Event)
    requires !h.Connection?
    ensures var r := Next(l, Hub(h)); r.World() == H.Next(l.World(), h) && r.ends == l.ends
  {
    T.RunExtends(l.hub, h);
    hide H.Run;
  }

  lemma {:induction false} HubMoves(events: seq<Event>, more: seq<H.Event>) returns (longer: seq<Event>)
    requires forall h :: h in more ==> !h.Connection?
    ensures events <= longer && Run(longer).World() == S.After(Run(events).World(), more)
    ensures Run(longer).ends == Run(events).ends
  {
    hide Run, H.Run;
    if more == [] {
      longer := events;
    } else {
      var front, h := more[..|more| - 1], more[|more| - 1];
      assert h in more && forall x :: x in front ==> x in more;
      longer := HubMoves(events, front);
      HubMove(Run(longer), h);
      hide Next;
      longer := Then(longer, Hub(h));
    }
  }

  /** The agent of the connection is there, has read all messages and has no shell. */
  ghost predicate Waits(l: Link, p: H.Peer) {
    && p in l.ends && l.ends[p].open && p in l.World().agents
    && l.ends[p].read == |l.World().agents[p].down| && l.Manager(p).current.None?
  }

  /** The hub holds the session over this connection, and the agent runs its shell. */
  ghost predicate Runs(l: Link, p: H.Peer, id: H.SessionId) {
    && id in l.World().hub.sessions && l.World().hub.sessions[id].agent == p
    && p in l.ends && l.Manager(p).current.Some? && l.Manager(p).current.value < |l.Manager(p).shells|
    && l.Manager(p).shells[l.Manager(p).current.value] == A.Shell(id, 120, 32, [], A.Running, false)
  }

  /** Whatever has happened before, a browser with a good ticket gets a shell of its server's agent, if the
      server is free and its agent waits. */
  lemma SessionReachesShell(events: seq<Event>, token: H.Token, id: H.SessionId) returns (longer: seq<Event>)
    requires var w := Run(events).World();
             && id !in w.ids && token in w.hub.tickets && w.now <= w.hub.tickets[token].expires
             && S.Ready(w, w.hub.tickets[token].server)
             && Waits(Run(events), w.hub.agents[w.hub.tickets[token].server])
    ensures var w := Run(events).World();
            events <= longer && Runs(Run(longer), w.hub.agents[w.hub.tickets[token].server], id)
  {
    var l := Run(events);
    var w := l.World();
    var ticket := w.hub.tickets[token];
    var b := |w.browsers|;
    S.RunAfter(l.hub, S.Opening(token, b, id));
    S.SessionOpensExactly(l.hub, token, id);
    longer := HubMoves(events, S.Opening(token, b, id));
    hide Run, H.Run, S.After, S.Ready;
    var ready := Run(longer);
    assert S.Open(ready.World(), w, b, ticket, id);
    var p := w.hub.agents[ticket.server];
    longer := Then(longer, Read(p, true));
    ReadsStart(ready, p, id);
  }

  lemma ReadsStart(l: Link, p: H.Peer, id: H.SessionId)
    requires p in l.ends && l.ends[p].open && p in l.World().agents && l.Manager(p).current.None?
    requires var down := l.World().agents[p].down;
             |down| == l.ends[p].read + 1 && down[l.ends[p].read] == H.Start(id)
    requires id in l.World().hub.sessions && l.World().hub.sessions[id].agent == p
    ensures Runs(Next(l, Read(p, true)), p, id)
  {
    A.RunExtends(l.ends[p].events, A.Start(id, 120, 32, true));
    hide A.Run, H.Run;
  }

  /** When the shell's process ends and everything the manager has said arrives, the session leaves the hub. */
  lemma ShellEnds(events: seq<Event>, p: H.Peer, id: H.SessionId) returns (longer: seq<Event>)
    requires Runs(Run(events), p, id) && p in Run(events).World().agents
             && !Run(events).World().agents[p].unregistered
    requires Run(events).ends[p].dispatched == |Run(events).Manager(p).sent|
    ensures events <= longer && p in Run(longer).ends
    ensures Run(longer).Manager(p).sent == Run(events).Manager(p).sent + [A.Exit(id)]
    ensures Run(longer).World().hub.sessions == Run(events).World().hub.sessions - {id}
  {
    hide Run, H.Run, A.Run;
    var l := Run(events);
    var i := l.Manager(p).current.value;
    longer := Then(events, Shell(p, A.ProcessEnds(i)));
    ProcessExits(l, p, id);
    hide Runs, Next, Inv;
    L.RunKeeps(longer);
    ExitDispatched(longer, p, id);
    longer := Then(longer, Deliver(p));
  }

  lemma ProcessExits(l: Link, p: H.Peer, id: H.SessionId)
    requires Runs(l, p, id)
    ensures var r := Next(l, Shell(p, A.ProcessEnds(l.Manager(p).current.value)));
            && r.hub == l.hub && p in r.ends && r.ends[p].dispatched == l.ends[p].dispatched
            && r.Manager(p).sent == l.Manager(p).sent + [A.Exit(id)]
  {
    A.RunExtends(l.ends[p].events, A.ProcessEnds(l.Manager(p).current.value));
    hide A.Run, H.Run;
  }

  lemma ExitDispatched(events: seq<Event>, p: H.Peer, id: H.SessionId)
    requires var l := Run(events);
             && Inv(l) && p in l.ends && p in l.World().agents && !l.World().agents[p].unregistered
             && l.ends[p].dispatched < |l.Manager(p).sent| && l.Manager(p).sent[l.ends[p].dispatched] == A.Exit(id)
    ensures var l, r := Run(events), Next(Run(events), Deliver(p));
            && r.World().hub.sessions == l.World().hub.sessions - {id}
            && p in r.ends && r.Manager(p) == l.Manager(p)
  {
    var l := Run(events);
    NextReplyKnown(l, p);
    T.RunExtends(l.hub, Dispatches(l, p));
    T.MessageEndsNamedSession(l.hub, p, H.Exit, id);
    hide Run, H.Run, A.Run, Inv;
  }

  /** Agents of two servers, of which one has lost its connection and opened another, and a ticket for it. */
  lemma AgentsReady() returns (events: seq<Event>)
    ensures var l := Run(events); var w := l.World();
            && w.ids == {} && 10 in w.hub.tickets && w.now <= w.hub.tickets[10].expires
            && w.hub.tickets[10].server == 1 && S.Ready(w, 1) && w.hub.agents == map[1 := 9, 2 := 8]
            && Waits(l, 9) && Waits(l, 8) && 7 in l.ends && !l.ends[7].open && !w.agents[9].unregistered
  {
    hide Run, H.Run;
    events := Reconnected();
    HubMove(Run(events), H.CreateTicket(10, 1, 3));
    events := Then(events, Hub(H.CreateTicket(10, 1, 3)));
    hide Next;
  }

  /** The world after agents have connected and nothing else. */
  ghost predicate OnlyAgents(w: H.World, agents: map<H.Server, H.Peer>, peers: map<H.Peer, H.Server>) {
    && w == H.Beginning().(hub := w.hub, agents := w.agents)
    && w.hub == H.Beginning().hub.(agents := agents) && w.agents.Keys == peers.Keys
    && forall p :: p in peers ==> w.agents[p] == H.Agent(peers[p], false, false, {}, [])
  }

  lemma TwoServers() returns (events: seq<Event>)
    ensures var l := Run(events);
            && OnlyAgents(l.World(), map[1 := 7, 2 := 8], map[7 := 1, 8 := 2])
            && l.ends == map[7 := End([], 0, 0, true), 8 := End([], 0, 0, true)]
  {
    events := Connected([], 7, 1);
    hide Run, H.Run;
    assert OnlyAgents(Run(events).World(), map[1 := 7], map[7 := 1]);
    events := Connected(events, 8, 2);
  }

  lemma Reconnected() returns (events: seq<Event>)
    ensures var l := Run(events);
            && OnlyAgents(l.World(), map[1 := 9, 2 := 8], map[7 := 1, 8 := 2, 9 := 1])
            && l.ends == map[7 := End([A.Disconnect], 0, 0, false), 8 := End([], 0, 0, true), 9 := End([], 0, 0, true)]
  {
    hide Run, H.Run;
    events := TwoServers();
    Disconnects(Run(events));
    events := Then(events, Disconnect(7));
    hide Next;
    events := Connected(events, 9, 1);
  }

  lemma Disconnects(l: Link)
    requires 7 in l.ends && l.ends[7] == End([], 0, 0, true)
    ensures var r := Next(l, Disconnect(7));
            r.hub == l.hub && r.ends == l.ends[7 := End([A.Disconnect], 0, 0, false)]
  {
    assert [] + [A.Disconnect] == [A.Disconnect];
  }

  /** An agent connects. */
  lemma Connected(before: seq<Event>, p: H.Peer, server: H.Server) returns (events: seq<Event>)
    requires p !in Run(before).World().agents && NoneOpen(Run(before), server)
    ensures var l, r := Run(before), Run(events);
            && r.World() == H.Next(l.World(), H.Connection(p, H.Connect(server)))
            && r.ends == l.ends[p := End([], 0, 0, true)] && r.Manager(p) == A.FRESH
  {
    hide Run, H.Run;
    var l := Run(before);
    T.RunExtends(l.hub, H.Connection(p, H.Connect(server)));
    events := Then(before, Hub(H.Connection(p, H.Connect(server))));
  }
}
