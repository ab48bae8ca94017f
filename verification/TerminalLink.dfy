/** The hub and the agents' session managers together: what the hub writes is read in order, and
what a manager answers is dispatched in order.  An agent keeps one connection at a time; after a
disconnect it opens another one with a manager of its own.
*/
module TerminalLink {
  import opened Options
  import H = TerminalHub
  import P = TerminalProofs
  import T = TerminalTheorems
  import A = TerminalAgent

  /** The agent's end of a connection: what its manager has gone through, how many messages it has
      read, how many of its replies have reached the hub, and whether it is still connected. */
  datatype End = End(events: seq<A.Event>, read: nat, dispatched: nat, open: bool)

  /** The hub by its history, and an end for every connection. */
  datatype Link = Link(hub: seq<H.Event>, ends: map<H.Peer, End>) {
    function World(): H.World { H.Run(hub) }

    function Manager(p: H.Peer): A.Manager
      requires p in ends
    {
      A.Run(ends[p].events)
    }
  }

  datatype Event =
    | Hub(move: H.Event)
    | Read(p: H.Peer, ok: bool)
    | Shell(p: H.Peer, act: A.Event)
    | Disconnect(p: H.Peer)
    | Deliver(p: H.Peer)

  function KindOf(r: A.Reply): H.Kind {
    match r
    case Output(_) => H.Output
    case Error(_) => H.Error
    case Exit(_) => H.Exit
  }

  /** How the manager takes a message; `ok` says whether a shell can be started. */
  function Taken(m: H.Message, ok: bool): A.Event {
    if m.Start? then A.Start(m.id, 120, 32, ok) else A.Close(m.id)
  }

  function Dispatches(l: Link, p: H.Peer): H.Event
    requires p in l.ends && l.ends[p].dispatched < |l.Manager(p).sent|
  {
    var r := l.Manager(p).sent[l.ends[p].dispatched];
    H.Connection(p, H.Dispatch(KindOf(r), r.id))
  }

  predicate Connects(e: H.Event) { e.Connection? && e.move.Connect? }

  /** No agent of the server is connected at its own end. */
  predicate NoneOpen(l: Link, server: H.Server) {
    forall p :: p in l.ends && p in l.World().agents && l.World().agents[p].server == server ==> !l.ends[p].open
  }

  /** Replies are dispatched as they come; what else a shell does is free. */
  predicate Enabled(l: Link, e: Event) {
    match e
    case Hub(h) =>
      && H.Enabled(l.World(), h) && !(h.Connection? && h.move.Dispatch?)
      && (Connects(h) ==> NoneOpen(l, h.move.server))
    case Read(p, _) => p in l.ends && l.ends[p].open && p in l.World().agents
        && l.ends[p].read < |l.World().agents[p].down|
    case Shell(p, a) => p in l.ends && !a.Start? && !a.Close? && !a.Disconnect?
        && (a.Input? || a.Resize? ==> l.ends[p].open)
    case Disconnect(p) => p in l.ends && l.ends[p].open
    case Deliver(p) =>
      && p in l.ends && l.ends[p].dispatched < |l.Manager(p).sent|
      && p in l.World().agents && !l.World().agents[p].unregistered
  }

  function Handles(l: Link, p: H.Peer, e: A.Event): Link
    requires p in l.ends
  {
    l.(ends := l.ends[p := l.ends[p].(events := l.ends[p].events + [e])])
  }

  function Next(l: Link, e: Event): Link {
    if !Enabled(l, e) then l
    else
      match e
      case Hub(h) => Link(l.hub + [h], if Connects(h) then l.ends[h.agent := End([], 0, 0, true)] else l.ends)
      case Read(p, ok) =>
        var m := l.World().agents[p].down[l.ends[p].read];
        l.(ends := l.ends[p := l.ends[p].(events := l.ends[p].events + [Taken(m, ok)], read := l.ends[p].read + 1)])
      case Shell(p, a) => Handles(l, p, a)
      case Disconnect(p) => l.(ends :=
          l.ends[p := l.ends[p].(events := l.ends[p].events + [A.Disconnect], open := false)])
      case Deliver(p) =>
        Link(l.hub + [Dispatches(l, p)], l.ends[p := l.ends[p].(dispatched := l.ends[p].dispatched + 1)])
  }

  function Run(events: seq<Event>): Link {
    if events == [] then Link([], map[]) else Next(Run(events[..|events| - 1]), events[|events| - 1])
  }

  // ----- the invariant -----

  ghost predicate Known(down: seq<H.Message>, read: nat, id: H.SessionId)
    requires read <= |down|
  {
    H.Start(id) in down[..read]
  }

  /** A manager knows only sessions whose start it has read; of those whose reply other than output
      has arrived the hub holds none; after a disconnect every shell has been told to stop. */
  ghost predicate EndRow(w: H.World, p: H.Peer, end: End) {
    var m := A.Run(end.events);
    && p in w.agents && end.read <= |w.agents[p].down| && end.dispatched <= |m.sent|
    && (forall i :: 0 <= i < |m.shells| ==> Known(w.agents[p].down, end.read, m.shells[i].id))
    && (forall k :: 0 <= k < |m.sent| ==> Known(w.agents[p].down, end.read, m.sent[k].id))
    && (forall k :: 0 <= k < end.dispatched && !m.sent[k].Output? ==> m.sent[k].id !in w.hub.sessions)
    && (!end.open ==> forall i :: 0 <= i < |m.shells| && m.shells[i].stage == A.Running ==> m.shells[i].stopped)
  }

  ghost predicate BothOpen(w: H.World, ends: map<H.Peer, End>, p: H.Peer, q: H.Peer) {
    && p in ends && q in ends && p in w.agents && q in w.agents
    && ends[p].open && ends[q].open && w.agents[p].server == w.agents[q].server
  }

  ghost predicate OneOpen(w: H.World, ends: map<H.Peer, End>) {
    forall p, q :: BothOpen(w, ends, p, q) ==> p == q
  }

  ghost predicate Joined(w: H.World, ends: map<H.Peer, End>) {
    && H.Inv(w) && w.agents.Keys == ends.Keys && OneOpen(w, ends)
    && (forall p :: p in ends ==> EndRow(w, p, ends[p]))
  }

  ghost predicate Inv(l: Link) { Joined(l.World(), l.ends) }

  // ----- the hub's side -----

  /** What is written stays written, connections keep their servers, and no session comes back. */
  ghost predicate Grows(w: H.World, r: H.World) {
    && (forall p :: p in w.agents ==>
          p in r.agents && r.agents[p].server == w.agents[p].server && w.agents[p].down <= r.agents[p].down)
    && (forall id :: id in w.started && id !in w.hub.sessions ==> id !in r.hub.sessions)
  }

  lemma HubGrows(w: H.World, e: H.Event)
    requires H.Inv(w)
    ensures Grows(w, H.Next(w, e))
  {
    P.StepKeeps(w, e);
    AgentsGrow(w, e);
    EndedGrow(w, e);
    hide H.Next, H.TicketInv, H.RegistryInv, H.RowInv, H.RelayInv, H.TalkInv;
    P.SessionFacts(w);
    P.SessionFacts(H.Next(w, e));
    hide H.SessionInv;
  }

  lemma AgentsGrow(w: H.World, e: H.Event)
    ensures forall p :: p in w.agents ==>
              p in H.Next(w, e).agents && H.Next(w, e).agents[p].server == w.agents[p].server
              && w.agents[p].down <= H.Next(w, e).agents[p].down
  {
    match e
    case Handler(b, step) => if H.CanHandle(w, b, step) { HandlerWrites(w, b, step); } hide H.Handled;
    case Ending(id, act) => if H.CanAct(w, id, act) { ActWrites(w, id, act); } hide H.Acted;
    case Connection(p, move) => if H.CanMove(w, p, move) { P.MovedShape(w, p, move); } hide H.Moved;
    case _ =>
  }

  lemma HandlerWrites(w: H.World, b: nat, step: H.HandlerStep)
    requires H.CanHandle(w, b, step)
    ensures forall p :: p in w.agents ==>
              p in H.Handled(w, b, step).agents && H.Handled(w, b, step).agents[p].server == w.agents[p].server
              && w.agents[p].down <= H.Handled(w, b, step).agents[p].down
  {
    hide H.Handled;
    if P.Prepares(w, b, step) { P.PreparedShape(w, b, step); }
    else if P.Leaves(w, b, step) {
      P.LeaveShape(w, b, step); P.EndShape(H.At(w, b, H.Returned), w.browsers[b].stage.id, !step.WriteStart?);
    }
    else { P.RestShape(w, b, step); if step == H.Insert || step == H.WriteStart(true) { SessionWrites(w, b, step); } }
  }

  lemma SessionWrites(w: H.World, b: nat, step: H.HandlerStep)
    requires H.CanHandle(w, b, step) && (step == H.Insert || step == H.WriteStart(true))
    ensures forall p :: p in w.agents ==>
              p in H.Handled(w, b, step).agents && H.Handled(w, b, step).agents[p].server == w.agents[p].server
              && w.agents[p].down <= H.Handled(w, b, step).agents[p].down
    ensures H.Handled(w, b, step).hub.ended == w.hub.ended
  {
  }

  lemma ActWrites(w: H.World, id: H.SessionId, act: H.EndStep)
    requires H.CanAct(w, id, act)
    ensures forall p :: p in w.agents ==>
              p in H.Acted(w, id, act).agents && H.Acted(w, id, act).agents[p].server == w.agents[p].server
              && w.agents[p].down <= H.Acted(w, id, act).agents[p].down
  {
    P.EndShape(w, id, true);
    hide H.End;
  }

  lemma EndedGrow(w: H.World, e: H.Event)
    ensures w.hub.ended <= H.Next(w, e).hub.ended
  {
    match e
    case Handler(b, step) => if H.CanHandle(w, b, step) { HandlerEnded(w, b, step); } hide H.Handled;
    case Ending(id, act) => if H.CanAct(w, id, act) { ActEnded(w, id, act); } hide H.Acted;
    case Connection(p, move) => if H.CanMove(w, p, move) { MoveEnded(w, p, move); } hide H.Moved;
    case _ =>
  }

  lemma HandlerEnded(w: H.World, b: nat, step: H.HandlerStep)
    requires H.CanHandle(w, b, step)
    ensures w.hub.ended <= H.Handled(w, b, step).hub.ended
  {
    hide H.Handled;
    if P.Prepares(w, b, step) { P.PreparedShape(w, b, step); }
    else if P.Leaves(w, b, step) {
      P.LeaveShape(w, b, step); P.EndShape(H.At(w, b, H.Returned), w.browsers[b].stage.id, !step.WriteStart?);
    }
    else { P.RestShape(w, b, step); if step == H.Insert || step == H.WriteStart(true) { SessionWrites(w, b, step); } }
  }

  lemma ActEnded(w: H.World, id: H.SessionId, act: H.EndStep)
    requires H.CanAct(w, id, act)
    ensures w.hub.ended <= H.Acted(w, id, act).hub.ended
  {
    P.EndShape(w, id, true);
    hide H.End;
  }

  lemma MoveEnded(w: H.World, p: H.Peer, move: H.AgentStep)
    requires H.CanMove(w, p, move)
    ensures w.hub.ended <= H.Moved(w, p, move).hub.ended
  {
    if move.EndAffected? || move.Dispatch? { P.EndShape(w, move.id, false); }
    hide H.End, H.Affected;
  }

  lemma ConnectionsGrow(w: H.World, e: H.Event)
    requires H.Enabled(w, e)
    ensures H.Next(w, e).agents.Keys == w.agents.Keys + if Connects(e) then {e.agent} else {}
    ensures Connects(e) ==>
              e.agent !in w.agents && H.Next(w, e).agents[e.agent] == H.Agent(e.move.server, false, false, {}, [])
  {
    match e
    case Handler(b, step) => P.HandledShape(w, b, step); hide H.Handled;
    case Ending(id, act) => P.ActedShape(w, id, act); hide H.Acted;
    case Connection(p, move) =>
      if !move.Connect? { P.EndShape(w, if move.EndAffected? || move.Dispatch? then move.id else 0, false); }
      hide H.End, H.Affected;
    case _ =>
  }

  // ----- one end -----

  lemma KnownStarted(w: H.World, p: H.Peer, read: nat, id: H.SessionId)
    requires H.Inv(w) && p in w.agents && read <= |w.agents[p].down| && Known(w.agents[p].down, read, id)
    ensures id in w.started && w.started[id].session.agent == p && H.Told(w, p, id)
  {
    var j :| 0 <= j < read && w.agents[p].down[..read][j] == H.Start(id);
    assert w.agents[p].down[j] == H.Start(id);
    P.MessageAt(w, p, j);
    hide H.Inv;
  }

  lemma KnownStays(down: seq<H.Message>, more: seq<H.Message>, read: nat, further: nat, id: H.SessionId)
    requires down <= more && read <= |down| && read <= further <= |more| && Known(down, read, id)
    ensures Known(more, further, id)
  {
    var j :| 0 <= j < read && down[..read][j] == H.Start(id);
    assert more[..further][j] == H.Start(id);
  }

  /** An end that does nothing while the hub moves on. */
  lemma EndKept(w: H.World, r: H.World, p: H.Peer, end: End)
    requires H.Inv(w) && EndRow(w, p, end) && Grows(w, r)
    ensures EndRow(r, p, end)
  {
    hide H.Inv, Known;
    var m := A.Run(end.events);
    forall i | 0 <= i < |m.shells| ensures Known(r.agents[p].down, end.read, m.shells[i].id) {
      KnownStays(w.agents[p].down, r.agents[p].down, end.read, end.read, m.shells[i].id);
    }
    forall k | 0 <= k < |m.sent|
      ensures Known(r.agents[p].down, end.read, m.sent[k].id)
      ensures k < end.dispatched && !m.sent[k].Output? ==> m.sent[k].id !in r.hub.sessions
    {
      KnownStays(w.agents[p].down, r.agents[p].down, end.read, end.read, m.sent[k].id);
      KnownStarted(w, p, end.read, m.sent[k].id);
    }
    hide A.Run;
  }

  /** The manager takes one more event, having read `further` messages. */
  lemma EndSteps(w: H.World, p: H.Peer, end: End, e: A.Event, further: nat, open: bool)
    requires EndRow(w, p, end) && end.read <= further <= |w.agents[p].down|
    requires e.Start? ==> end.open && open && Known(w.agents[p].down, further, e.id)
    requires open ==> end.open
    requires !open && end.open ==> e.Disconnect?
    ensures EndRow(w, p, End(end.events + [e], further, end.dispatched, open))
  {
    hide Known;
    var m, r := A.Run(end.events), A.Run(end.events + [e]);
    A.RunExtends(end.events, e);
    A.StepGrows(m, e);
    A.RunKeeps(end.events);
    hide A.Run;
    var down := w.agents[p].down;
    forall i | 0 <= i < |m.shells| ensures Known(down, further, m.shells[i].id) {
      KnownStays(down, down, end.read, further, m.shells[i].id);
    }
    forall i | 0 <= i < |r.shells| ensures Known(down, further, r.shells[i].id) {
      if i < |m.shells| { assert r.shells[i].id == m.shells[i].id; }
    }
    forall k | 0 <= k < |r.sent| ensures Known(down, further, r.sent[k].id) {
      ReplyKnown(down, end.read, further, m, e, r.sent[k]);
    }
    if !open { AllStopped(m, e, end.open); }
    hide A.Next;
  }

  lemma ReplyKnown(down: seq<H.Message>, read: nat, further: nat, m: A.Manager, e: A.Event, x: A.Reply)
    requires read <= further <= |down| && x in A.Next(m, e).sent
    requires forall k :: 0 <= k < |m.sent| ==> Known(down, read, m.sent[k].id)
    requires forall i :: 0 <= i < |m.shells| ==> Known(down, further, m.shells[i].id)
    requires e.Start? ==> Known(down, further, e.id)
    ensures Known(down, further, x.id)
  {
    hide Known;
    A.RepliesName(m, e, x);
    hide A.Next;
    if x in m.sent { KnownStays(down, down, read, further, x.id); }
  }

  lemma AllStopped(m: A.Manager, e: A.Event, open: bool)
    requires A.Inv(m) && !e.Start? && (open ==> e.Disconnect?)
    requires !open ==> forall i :: 0 <= i < |m.shells| && m.shells[i].stage == A.Running ==> m.shells[i].stopped
    ensures var r := A.Next(m, e);
            forall i :: 0 <= i < |r.shells| && r.shells[i].stage == A.Running ==> r.shells[i].stopped
  {
  }

  // ----- every step, every run -----

  lemma HubStep(l: Link, e: H.Event)
    requires Enabled(l, Hub(e))
    ensures H.Enabled(l.World(), e) && Next(l, Hub(e)).World() == H.Next(l.World(), e)
    ensures Next(l, Hub(e)).ends == if Connects(e) then l.ends[e.agent := End([], 0, 0, true)] else l.ends
    ensures Connects(e) ==> NoneOpen(l, e.move.server)
  {
    T.RunExtends(l.hub, e);
    hide H.Run, H.Next, H.Enabled;
  }

  lemma HubKeeps(l: Link, e: H.Event)
    requires Inv(l) && Enabled(l, Hub(e))
    ensures Inv(Next(l, Hub(e)))
  {
    var w, r := l.World(), H.Next(l.World(), e);
    HubStep(l, e);
    hide Next, Enabled, H.Run, H.Next, H.Enabled, H.Inv;
    if Connects(e) { AgentConnects(w, l.ends, e); } else { HubAlone(w, l.ends, e); }
  }

  lemma HubAlone(w: H.World, ends: map<H.Peer, End>, e: H.Event)
    requires Joined(w, ends) && H.Enabled(w, e) && !Connects(e)
    ensures Joined(H.Next(w, e), ends)
  {
    hide H.Next, H.Enabled, H.Inv, EndRow;
    P.StepKeeps(w, e);
    HubGrows(w, e);
    ConnectionsGrow(w, e);
    forall p | p in ends ensures EndRow(H.Next(w, e), p, ends[p]) { EndKept(w, H.Next(w, e), p, ends[p]); }
    forall p, q | BothOpen(H.Next(w, e), ends, p, q) ensures p == q { assert BothOpen(w, ends, p, q); }
  }

  lemma AgentConnects(w: H.World, ends: map<H.Peer, End>, e: H.Event)
    requires Joined(w, ends) && H.Enabled(w, e) && Connects(e)
    requires forall p :: p in ends && p in w.agents && w.agents[p].server == e.move.server ==> !ends[p].open
    ensures Joined(H.Next(w, e), ends[e.agent := End([], 0, 0, true)])
  {
    hide H.Next, H.Enabled, H.Inv, EndRow;
    P.StepKeeps(w, e);
    HubGrows(w, e);
    ConnectionsGrow(w, e);
    forall p | p in ends ensures EndRow(H.Next(w, e), p, ends[p]) { EndKept(w, H.Next(w, e), p, ends[p]); }
    NewEnd(H.Next(w, e), e.agent);
    var joined := ends[e.agent := End([], 0, 0, true)];
    forall p, q | BothOpen(H.Next(w, e), joined, p, q) ensures p == q {
      assert p == e.agent || q == e.agent || BothOpen(w, ends, p, q);
    }
  }

  lemma NewEnd(w: H.World, p: H.Peer)
    requires p in w.agents
    ensures EndRow(w, p, End([], 0, 0, true))
  {
  }

  /** One end moves, the hub does not. */
  lemma EndMoves(w: H.World, ends: map<H.Peer, End>, p: H.Peer, end: End)
    requires Joined(w, ends) && p in ends && EndRow(w, p, end) && (end.open ==> ends[p].open)
    ensures Joined(w, ends[p := end])
  {
    hide EndRow, H.Inv;
    var moved := ends[p := end];
    forall x, y | BothOpen(w, moved, x, y) ensures x == y { assert BothOpen(w, ends, x, y); }
  }

  lemma ReadStep(l: Link, p: H.Peer, ok: bool)
    requires Enabled(l, Read(p, ok))
    ensures p in l.World().agents && l.ends[p].read < |l.World().agents[p].down|
    ensures var end := l.ends[p]; var m := l.World().agents[p].down[end.read];
            Next(l, Read(p, ok)) == l.(ends :=
                l.ends[p := End(end.events + [Taken(m, ok)], end.read + 1, end.dispatched, true)])
  {
    hide H.Run;
  }

  lemma ReadKeeps(l: Link, p: H.Peer, ok: bool)
    requires Inv(l) && Enabled(l, Read(p, ok))
    ensures Inv(Next(l, Read(p, ok)))
  {
    ReadStep(l, p, ok);
    ReadOne(l.World(), l.ends, p, ok);
    hide H.Run, Next, Joined, Taken;
  }

  lemma ReadOne(w: H.World, ends: map<H.Peer, End>, p: H.Peer, ok: bool)
    requires Joined(w, ends) && p in ends && ends[p].open && p in w.agents && ends[p].read < |w.agents[p].down|
    ensures var end := ends[p]; var e := Taken(w.agents[p].down[end.read], ok);
            Joined(w, ends[p := End(end.events + [e], end.read + 1, end.dispatched, true)])
  {
    hide Joined;
    JustRead(w.agents[p].down, ends[p].read);
    OneSteps(w, ends, p, Taken(w.agents[p].down[ends[p].read], ok), ends[p].read + 1, true);
  }

  /** The manager of one connection takes an event, having read `further` messages. */
  lemma OneSteps(w: H.World, ends: map<H.Peer, End>, p: H.Peer, e: A.Event, further: nat, open: bool)
    requires Joined(w, ends) && p in ends && p in w.agents && ends[p].read <= further <= |w.agents[p].down|
    requires e.Start? ==> ends[p].open && open && Known(w.agents[p].down, further, e.id)
    requires (open ==> ends[p].open) && (!open && ends[p].open ==> e.Disconnect?)
    ensures Joined(w, ends[p := End(ends[p].events + [e], further, ends[p].dispatched, open)])
  {
    hide H.Inv, EndRow, BothOpen, Known;
    assert EndRow(w, p, ends[p]);
    hide Joined;
    EndSteps(w, p, ends[p], e, further, open);
    EndMoves(w, ends, p, End(ends[p].events + [e], further, ends[p].dispatched, open));
  }

  lemma JustRead(down: seq<H.Message>, n: nat)
    requires n < |down|
    ensures down[n].Start? ==> Known(down, n + 1, down[n].id)
  {
    if down[n].Start? { assert down[..n + 1][n] == H.Start(down[n].id); }
  }

  lemma EndIn(l: Link, p: H.Peer)
    requires Inv(l) && p in l.ends
    ensures EndRow(l.World(), p, l.ends[p]) && H.Inv(l.World())
  {
    hide EndRow, H.Inv, H.Run;
  }

  lemma ShellKeeps(l: Link, e: Event)
    requires Inv(l) && Enabled(l, e) && (e.Shell? || e.Disconnect?)
    ensures Inv(Next(l, e))
  {
    var w, end := l.World(), l.ends[e.p];
    EndIn(l, e.p);
    ReadSoFar(w, e.p, end);
    hide EndRow, Joined, H.Run;
    OneSteps(w, l.ends, e.p, if e.Shell? then e.act else A.Disconnect, end.read, e.Shell? && end.open);
  }

  lemma ReadSoFar(w: H.World, p: H.Peer, end: End)
    requires EndRow(w, p, end)
    ensures p in w.agents && end.read <= |w.agents[p].down|
  {
  }

  /** The next reply of a connection is one the hub can take: it names a session started there. */
  lemma NextReplyKnown(l: Link, p: H.Peer)
    requires Inv(l) && Enabled(l, Deliver(p))
    ensures H.Enabled(l.World(), Dispatches(l, p))
    ensures var id := l.Manager(p).sent[l.ends[p].dispatched].id;
            id in l.World().started && l.World().started[id].session.agent == p
  {
    hide H.Run, H.Inv, EndRow, A.Run, Joined;
    EndIn(l, p);
    ReplyStarted(l.World(), p, l.ends[p], l.ends[p].dispatched);
  }

  lemma ReplyStarted(w: H.World, p: H.Peer, end: End, k: nat)
    requires H.Inv(w) && EndRow(w, p, end) && k < |A.Run(end.events).sent|
    ensures var id := A.Run(end.events).sent[k].id;
            id in w.started && w.started[id].session.agent == p && H.Told(w, p, id)
  {
    hide H.Inv, Known, A.Run;
    KnownStarted(w, p, end.read, A.Run(end.events).sent[k].id);
  }

  lemma DeliverStep(l: Link, p: H.Peer)
    requires Enabled(l, Deliver(p))
    ensures Next(l, Deliver(p)).World() == H.Next(l.World(), Dispatches(l, p))
    ensures Next(l, Deliver(p)).ends == l.ends[p := l.ends[p].(dispatched := l.ends[p].dispatched + 1)]
  {
    T.RunExtends(l.hub, Dispatches(l, p));
    hide H.Run, H.Next;
  }

  lemma DeliverKeeps(l: Link, p: H.Peer)
    requires Inv(l) && Enabled(l, Deliver(p))
    ensures Inv(Next(l, Deliver(p)))
  {
    hide Next, H.Run, H.Next, H.Enabled, Dispatches, A.Run, Joined, Connects;
    ReplyThere(l, p);
    hide Enabled;
    NextReplyKnown(l, p);
    DeliverStep(l, p);
    ReplyGone(l, p);
    DeliverOne(l.World(), l.ends, p, Dispatches(l, p));
  }

  lemma ReplyGone(l: Link, p: H.Peer)
    requires Inv(l) && Enabled(l, Deliver(p))
    ensures var reply := A.Run(l.ends[p].events).sent[l.ends[p].dispatched];
            !reply.Output? ==> reply.id !in H.Next(l.World(), Dispatches(l, p)).hub.sessions
  {
    EndsNamed(l, p);
    hide Inv, A.Run, H.Run, H.Next, Dispatches;
  }

  lemma DeliverOne(w: H.World, ends: map<H.Peer, End>, p: H.Peer, e: H.Event)
    requires Joined(w, ends) && H.Enabled(w, e) && !Connects(e) && p in ends
             && ends[p].dispatched < |A.Run(ends[p].events).sent|
    requires var x := A.Run(ends[p].events).sent[ends[p].dispatched]; !x.Output? ==> x.id !in H.Next(w, e).hub.sessions
    ensures Joined(H.Next(w, e), ends[p := ends[p].(dispatched := ends[p].dispatched + 1)])
  {
    hide H.Next, H.Inv, EndRow, H.Enabled, A.Run;
    HubAlone(w, ends, e);
    Dispatching(H.Next(w, e), p, ends[p]);
    EndMoves(H.Next(w, e), ends, p, ends[p].(dispatched := ends[p].dispatched + 1));
  }

  lemma ReplyThere(l: Link, p: H.Peer)
    requires Enabled(l, Deliver(p))
    ensures l.ends[p].dispatched < |A.Run(l.ends[p].events).sent| && !Connects(Dispatches(l, p))
  {
    hide A.Run, H.Run;
  }

  /** What a reply other than output does to the hub: its session goes, and no other. */
  lemma EndsNamed(l: Link, p: H.Peer)
    requires Inv(l) && Enabled(l, Deliver(p))
    ensures var w := l.World(); var r := H.Next(w, Dispatches(l, p));
            var reply := l.Manager(p).sent[l.ends[p].dispatched];
            && r.browsers == w.browsers && r.agents == w.agents && r.hub.agents == w.hub.agents
            && r.hub.tickets == w.hub.tickets
            && r.hub.sessions == (if reply.Output? then w.hub.sessions else w.hub.sessions - {reply.id})
            && (reply.id in w.hub.sessions ==> w.hub.sessions[reply.id].agent == p)
  {
    var reply := l.Manager(p).sent[l.ends[p].dispatched];
    NextReplyKnown(l, p);
    T.RunExtends(l.hub, Dispatches(l, p));
    hide Inv, A.Run, H.Next, H.Enabled, H.Run;
    T.MessageEndsNamedSession(l.hub, p, KindOf(reply), reply.id);
  }

  lemma Dispatching(w: H.World, p: H.Peer, end: End)
    requires EndRow(w, p, end) && end.dispatched < |A.Run(end.events).sent|
    requires var x := A.Run(end.events).sent[end.dispatched]; !x.Output? ==> x.id !in w.hub.sessions
    ensures EndRow(w, p, end.(dispatched := end.dispatched + 1))
  {
    hide Known, A.Run;
  }

  lemma StepKeeps(l: Link, e: Event)
    requires Inv(l)
    ensures Inv(Next(l, e))
  {
    hide Inv;
    if Enabled(l, e) {
      match e
      case Hub(h) => HubKeeps(l, h);
      case Read(p, ok) => ReadKeeps(l, p, ok);
      case Shell(_, _) => ShellKeeps(l, e);
      case Disconnect(_) => ShellKeeps(l, e);
      case Deliver(p) => DeliverKeeps(l, p);
    }
  }

  lemma {:induction false} RunKeeps(events: seq<Event>)
    ensures Inv(Run(events))
  {
    hide Inv;
    if events == [] {
      NothingYet();
    } else {
      RunKeeps(events[..|events| - 1]);
      StepKeeps(Run(events[..|events| - 1]), events[|events| - 1]);
    }
  }

  lemma NothingYet()
    ensures Inv(Link([], map[]))
  {
    P.NothingYet();
    hide H.Inv;
  }

  lemma RunExtends(events: seq<Event>, e: Event)
    ensures Run(events + [e]) == Next(Run(events), e)
  {
    assert (events + [e])[..|events|] == events;
  }

  // ----- what a refusal does -----

  lemma MoreOfRun(events: seq<Event>, more: seq<Event>)
    requires more != []
    ensures Run(events + more) == Next(Run(events + more[..|more| - 1]), more[|more| - 1])
  {
    hide Run, Next;
    assert events + more == (events + more[..|more| - 1]) + [more[|more| - 1]];
    RunExtends(events + more[..|more| - 1], more[|more| - 1]);
  }

  /** A manager takes nothing back. */
  lemma SentGrows(l: Link, e: Event, p: H.Peer)
    requires Inv(l) && p in l.ends
    ensures p in Next(l, e).ends && l.Manager(p).sent <= Next(l, e).Manager(p).sent
  {
    hide H.Inv, H.Run, H.Enabled, EndRow, OneOpen;
    if Enabled(l, e) {
      match e
      case Hub(h) => HubStep(l, h); if Connects(h) { ConnectsAnew(l.World(), h); }
      case Read(q, ok) =>
        ReadStep(l, q, ok);
        ManagerGrows(l.ends[q].events, Taken(l.World().agents[q].down[l.ends[q].read], ok));
        hide A.Run, Next;
      case Shell(q, a) => ManagerGrows(l.ends[q].events, a);
      case Disconnect(q) => ManagerGrows(l.ends[q].events, A.Disconnect);
      case Deliver(q) => DeliverStep(l, q); hide A.Run, Next;
    }
  }

  lemma ConnectsAnew(w: H.World, e: H.Event)
    requires H.Enabled(w, e) && Connects(e)
    ensures e.agent !in w.agents
  {
  }

  lemma ManagerGrows(events: seq<A.Event>, e: A.Event)
    ensures A.Run(events).sent <= A.Run(events + [e]).sent
  {
    A.RunExtends(events, e);
    A.StepGrows(A.Run(events), e);
    hide A.Run, A.Next;
  }

  lemma {:induction false} SentStays(events: seq<Event>, more: seq<Event>, p: H.Peer)
    requires p in Run(events).ends
    ensures p in Run(events + more).ends && Run(events).Manager(p).sent <= Run(events + more).Manager(p).sent
  {
    hide Run, Next, A.Run, Inv;
    if more == [] {
      assert events + more == events;
    } else {
      SentStays(events, more[..|more| - 1], p);
      RunKeeps(events + more[..|more| - 1]);
      SentGrows(Run(events + more[..|more| - 1]), more[|more| - 1], p);
      MoreOfRun(events, more);
    }
  }

  /** The message an agent reads next. */
  function Incoming(l: Link, p: H.Peer): H.Message
    requires Enabled(l, Read(p, true))
  {
    l.World().agents[p].down[l.ends[p].read]
  }

  /** No session is started twice: the one in the next message has no shell yet. */
  lemma StartIsNew(events: seq<Event>, p: H.Peer, i: nat)
    requires Enabled(Run(events), Read(p, true)) && Incoming(Run(events), p).Start?
             && i < |Run(events).Manager(p).shells|
    ensures Run(events).Manager(p).shells[i].id != Incoming(Run(events), p).id
  {
    var l := Run(events);
    RunKeeps(events);
    EndIn(l, p);
    ShellKnown(l.World(), p, l.ends[p], i);
    hide Run, EndRow, Joined, H.Run, A.Run;
    var j :| 0 <= j < l.ends[p].read
        && l.World().agents[p].down[..l.ends[p].read][j] == H.Start(l.Manager(p).shells[i].id);
    if l.Manager(p).shells[i].id == Incoming(l, p).id { T.WrittenOnce(l.hub, p, j, l.ends[p].read); }
  }

  lemma ShellKnown(w: H.World, p: H.Peer, end: End, i: nat)
    requires EndRow(w, p, end) && i < |A.Run(end.events).shells|
    ensures p in w.agents && end.read <= |w.agents[p].down|
            && Known(w.agents[p].down, end.read, A.Run(end.events).shells[i].id)
  {
    hide A.Run, Known;
  }

  /** A session that reaches an agent whose shell has not been cleared is refused: shells stay as
      they are, none of them is that session's, and the refusal is the manager's next reply. */
  lemma StartRefused(events: seq<Event>, p: H.Peer, ok: bool)
    requires Enabled(Run(events), Read(p, ok)) && Incoming(Run(events), p).Start?
    requires Run(events).Manager(p).current.Some?
    ensures p in Run(events + [Read(p, ok)]).ends
    ensures var m := Run(events).Manager(p); var y := Incoming(Run(events), p).id;
            && Run(events + [Read(p, ok)]).Manager(p) == m.(sent := m.sent + [A.Error(y)])
            && forall i :: 0 <= i < |m.shells| ==> m.shells[i].id != y
  {
    var l := Run(events);
    RunExtends(events, Read(p, ok));
    forall i | 0 <= i < |l.Manager(p).shells| ensures l.Manager(p).shells[i].id != Incoming(l, p).id {
      StartIsNew(events, p, i);
    }
    ReadStep(l, p, ok);
    A.RunExtends(l.ends[p].events, Taken(Incoming(l, p), ok));
    hide Run, H.Run, A.Run, Next;
  }

  /** Over every run of hub and agents: the refusal ends the refused session and no other.  In every
      continuation the hub no longer holds it once the refusal has been dispatched, and the step
      that dispatches it removes that session alone and changes no manager. */
  lemma RefusalEndsRefused(events: seq<Event>, more: seq<Event>, p: H.Peer, ok: bool)
    requires Enabled(Run(events), Read(p, ok)) && Incoming(Run(events), p).Start?
    requires Run(events).Manager(p).current.Some?
    ensures p in Run(events + [Read(p, ok)] + more).ends
    ensures var y := Incoming(Run(events), p).id; var k := |Run(events).Manager(p).sent|;
            var l := Run(events + [Read(p, ok)] + more);
            && k < |l.Manager(p).sent| && l.Manager(p).sent[k] == A.Error(y)
            && (l.ends[p].dispatched > k ==> y !in l.World().hub.sessions)
            && (l.ends[p].dispatched == k && Enabled(l, Deliver(p)) ==>
                  && Next(l, Deliver(p)).World().hub.sessions == l.World().hub.sessions - {y}
                  && SameManagers(l, Next(l, Deliver(p))))
  {
    hide Run, A.Run, H.Run, Next, Dispatches;
    var k := |Run(events).Manager(p).sent|;
    StartRefused(events, p, ok);
    hide Enabled;
    SentStays(events + [Read(p, ok)], more, p);
    var l := Run(events + [Read(p, ok)] + more);
    RunKeeps(events + [Read(p, ok)] + more);
    Dispatched(l, p, k);
    if l.ends[p].dispatched == k && Enabled(l, Deliver(p)) {
      EndsNamed(l, p);
      DeliverStep(l, p);
    }
  }

  ghost predicate SameManagers(l: Link, r: Link) {
    l.ends.Keys == r.ends.Keys && forall q :: q in l.ends && q in r.ends ==> r.Manager(q) == l.Manager(q)
  }

  lemma Dispatched(l: Link, p: H.Peer, k: nat)
    requires Inv(l) && p in l.ends && k < |l.Manager(p).sent| && !l.Manager(p).sent[k].Output?
    ensures l.ends[p].dispatched > k ==> l.Manager(p).sent[k].id !in l.World().hub.sessions
  {
    EndIn(l, p);
    hide Joined, A.Run, H.Run, Known;
  }

  // ----- what a close does -----

  /** When an agent reads a close, the hub holds the session of none of its shells: whatever the
      close stops, it stops no shell of a session that is still in the hub. */
  lemma CloseSparesHeld(events: seq<Event>, p: H.Peer, i: nat)
    requires Enabled(Run(events), Read(p, true)) && Incoming(Run(events), p).Close?
             && i < |Run(events).Manager(p).shells|
    ensures Run(events).Manager(p).shells[i].id !in Run(events).World().hub.sessions
  {
    var l := Run(events);
    RunKeeps(events);
    EndIn(l, p);
    ShellKnown(l.World(), p, l.ends[p], i);
    hide Run, EndRow, Joined, H.Run, A.Run;
    CloseFollowsAll(l.hub, p, l.ends[p].read, l.Manager(p).shells[i].id);
  }

  lemma CloseFollowsAll(hub: seq<H.Event>, p: H.Peer, n: nat, x: H.SessionId)
    requires p in H.Run(hub).agents && n < |H.Run(hub).agents[p].down|
    requires H.Run(hub).agents[p].down[n].Close? && Known(H.Run(hub).agents[p].down, n, x)
    ensures x !in H.Run(hub).hub.sessions
  {
    hide H.Run;
    var down := H.Run(hub).agents[p].down;
    var j :| 0 <= j < n && down[..n][j] == H.Start(x);
    T.Conversation(hub, p, n);
    if j < n - 1 { T.Conversation(hub, p, n - 1); }
  }

  /** So a session keeps its shell as long as the hub holds it and its agent stays connected: a close
      that is read changes no shell of a session in the hub. */
  lemma HeldShellsStay(events: seq<Event>, p: H.Peer, ok: bool)
    requires Enabled(Run(events), Read(p, ok)) && Incoming(Run(events), p).Close?
    ensures var l := Run(events); var r := Run(events + [Read(p, ok)]);
            && p in r.ends && |r.Manager(p).shells| == |l.Manager(p).shells|
            && forall i :: 0 <= i < |l.Manager(p).shells| && r.Manager(p).shells[i] != l.Manager(p).shells[i] ==>
                 l.Manager(p).shells[i].id !in l.World().hub.sessions
  {
    hide Run, H.Run, A.Run, Next;
    var l := Run(events);
    RunExtends(events, Read(p, ok));
    ReadStep(l, p, ok);
    A.RunExtends(l.ends[p].events, A.Close(Incoming(l, p).id));
    forall i | 0 <= i < |l.Manager(p).shells| ensures l.Manager(p).shells[i].id !in l.World().hub.sessions {
      CloseSparesHeld(events, p, i);
    }
    hide Enabled, H.Enabled;
  }

  ghost predicate StopsOnlyItsOwn(m: A.Manager, id: H.SessionId) {
    forall i :: 0 <= i < |m.shells| && A.Closed(m).shells[i] != m.shells[i] ==> m.shells[i].id == id
  }

  /** The manager itself does not look at the session a close names: on its own it stops no other
      session's shell exactly when it has no shell, has stopped it already, or the shell is that
      session's. */
  lemma CloseStopsItsOwnExactly(events: seq<A.Event>, id: H.SessionId)
    ensures var m := A.Run(events);
            && A.Run(events + [A.Close(id)]) == A.Closed(m)
            && (StopsOnlyItsOwn(m, id) <==>
                  m.current.None? || (m.current.value < |m.shells|
                      && (m.shells[m.current.value].stopped || m.shells[m.current.value].id == id)))
  {
    var m := A.Run(events);
    A.RunKeeps(events);
    A.RunExtends(events, A.Close(id));
    if m.current.Some? {
      var i := m.current.value;
      assert A.Closed(m).shells[i] == m.shells[i].(stopped := true);
    }
  }

  // ----- one shell per server -----

  ghost predicate Free(l: Link, p: H.Peer, i: nat) {
    && p in l.ends && p in l.World().agents && i < |l.Manager(p).shells|
    && l.Manager(p).shells[i].stage == A.Running && !l.Manager(p).shells[i].stopped
  }

  /** Over all connections a server ever had, at most one process runs that has not been told to
      terminate; processes of earlier connections can only be on their way out. */
  lemma OneShellPerServer(events: seq<Event>, p: H.Peer, i: nat, q: H.Peer, j: nat)
    requires Free(Run(events), p, i) && Free(Run(events), q, j)
    requires Run(events).World().agents[p].server == Run(events).World().agents[q].server
    ensures p == q && i == j
  {
    var l := Run(events);
    RunKeeps(events);
    hide Run;
    OnlyOpen(l, p, i);
    OnlyOpen(l, q, j);
    assert OneOpen(l.World(), l.ends);
    hide Inv, H.Run, Joined;
    assert BothOpen(l.World(), l.ends, p, q);
    A.AtMostOneShell(l.ends[p].events, i, j);
  }

  lemma OnlyOpen(l: Link, p: H.Peer, i: nat)
    requires Inv(l) && Free(l, p, i)
    ensures l.ends[p].open
  {
    EndIn(l, p);
    hide Joined, H.Run, A.Run, Known;
  }
}
