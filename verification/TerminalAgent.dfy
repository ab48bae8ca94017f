/** The session manager of agent/internal/terminal, one per connection: it runs at most one shell,
and the goroutine that waits for a shell reports its exit and then clears it.
*/
module TerminalAgent {
  import opened Options
  import H = TerminalHub

  type SessionId = H.SessionId
  type Data = nat

  /** Its process runs, has exited and been reported, or has been cleared by `finish`. */
  datatype Stage = Running | Exited | Finished

  /** `stopped` is the session's `once`: its process was told to terminate and its PTY closed. */
  datatype Shell = Shell(id: SessionId, cols: int, rows: int, typed: seq<Data>, stage: Stage, stopped: bool)

  datatype Reply = Output(id: SessionId) | Error(id: SessionId) | Exit(id: SessionId)

  /** `current` is an index into the shells of this connection, in the order they were started. */
  datatype Manager = Manager(shells: seq<Shell>, current: Option<nat>, sent: seq<Reply>)

  const FRESH := Manager([], None, [])

  function Clamp(value: int, minimum: int, maximum: int): (r: int)
    requires minimum <= maximum
    ensures minimum <= r <= maximum
            && (r == value || (value < minimum && r == minimum) || (value > maximum && r == maximum))
  {
    if value < minimum then minimum else if value > maximum then maximum else value
  }

  predicate Has(m: Manager) { m.current.Some? && m.current.value < |m.shells| }

  predicate Serves(m: Manager, id: SessionId) { Has(m) && m.shells[m.current.value].id == id }

  function Change(m: Manager, i: nat, s: Shell): Manager
    requires i < |m.shells|
  {
    m.(shells := m.shells[i := s])
  }

  function Say(m: Manager, reply: Reply): Manager { m.(sent := m.sent + [reply]) }

  /** `start`; `ok` says whether a shell could be found and a PTY opened. */
  function Started(m: Manager, id: SessionId, cols: int, rows: int, ok: bool): Manager {
    if m.current.Some? || !ok then Say(m, Error(id))
    else m.(shells := m.shells + [Shell(id, Clamp(cols, 20, 400), Clamp(rows, 5, 200), [], Running, false)],
            current := Some(|m.shells|))
  }

  /** `input`; `valid` says whether the data decodes and fits, `ok` whether the PTY took it. */
  function Typed(m: Manager, id: SessionId, data: Data, valid: bool, ok: bool): Manager {
    if !valid || !Serves(m, id) then m
    else if !ok then Say(m, Error(id))
    else var i := m.current.value; Change(m, i, m.shells[i].(typed := m.shells[i].typed + [data]))
  }

  function Resized(m: Manager, id: SessionId, cols: int, rows: int): Manager {
    if !Serves(m, id) then m
    else var i := m.current.value; Change(m, i, m.shells[i].(cols := Clamp(cols, 20, 400), rows := Clamp(rows, 5, 200)))
  }

  /** `close`: stops the current shell. It is not told which session the message names. */
  function Closed(m: Manager): Manager {
    if !Has(m) then m else var i := m.current.value; Change(m, i, m.shells[i].(stopped := true))
  }

  /** `finish` of shell `i`. */
  function Cleared(m: Manager, i: nat): Manager
    requires i < |m.shells|
  {
    Change(m, i, m.shells[i].(stopped := true, stage := Finished)).
        (current := if m.current == Some(i) then None else m.current)
  }

  // ----- runs -----

  datatype Event =
    | Start(id: SessionId, cols: int, rows: int, ok: bool)
    | Input(id: SessionId, data: Data, valid: bool, ok: bool)
    | Resize(id: SessionId, cols: int, rows: int)
    | Close(id: SessionId)
    | Disconnect
    | Prints(shell: nat)
    | ReadFails(shell: nat)
    | ProcessEnds(shell: nat)
    | Finish(shell: nat)

  function Next(m: Manager, e: Event): Manager {
    match e
    case Start(id, cols, rows, ok) => Started(m, id, cols, rows, ok)
    case Input(id, data, valid, ok) => Typed(m, id, data, valid, ok)
    case Resize(id, cols, rows) => Resized(m, id, cols, rows)
    case Close(_) => Closed(m)
    case Disconnect => Closed(m)
    case Prints(i) => if i < |m.shells| then Say(m, Output(m.shells[i].id)) else m
    case ReadFails(i) => if i < |m.shells| then Say(m, Error(m.shells[i].id)) else m
    case ProcessEnds(i) =>
      if i < |m.shells| && m.shells[i].stage == Running
      then Say(Change(m, i, m.shells[i].(stage := Exited)), Exit(m.shells[i].id)) else m
    case Finish(i) => if i < |m.shells| && m.shells[i].stage == Exited then Cleared(m, i) else m
  }

  function Run(events: seq<Event>): Manager {
    if events == [] then FRESH else Next(Run(events[..|events| - 1]), events[|events| - 1])
  }

  ghost predicate Inv(m: Manager) {
    && (m.current.Some? ==> m.current.value < |m.shells| && m.shells[m.current.value].stage != Finished)
    && (forall i :: 0 <= i < |m.shells| && m.shells[i].stage != Finished ==> m.current == Some(i))
    && (forall i :: 0 <= i < |m.shells| ==> 20 <= m.shells[i].cols <= 400 && 5 <= m.shells[i].rows <= 200)
    && (forall i :: 0 <= i < |m.shells| && m.shells[i].stage != Running ==> Exit(m.shells[i].id) in m.sent)
    && (forall r :: r in m.sent && r.Exit? ==> Reported(m, r.id))
  }

  ghost predicate Reported(m: Manager, id: SessionId) {
    exists i :: 0 <= i < |m.shells| && m.shells[i].id == id && m.shells[i].stage != Running
  }

  lemma ReportsKept(m: Manager, e: Event, x: Reply)
    requires x in Next(m, e).sent && x.Exit? && (x in m.sent ==> Reported(m, x.id))
    ensures Reported(Next(m, e), x.id)
  {
    var r := Next(m, e);
    if x in m.sent {
      var i :| 0 <= i < |m.shells| && m.shells[i].id == x.id && m.shells[i].stage != Running;
      assert r.shells[i].id == x.id && r.shells[i].stage != Running;
    } else {
      assert e.ProcessEnds? && r.shells[e.shell].id == x.id;
    }
  }

  lemma StepKeeps(m: Manager, e: Event)
    requires Inv(m)
    ensures Inv(Next(m, e))
  {
    var r := Next(m, e);
    assert forall x :: x in m.sent ==> x in r.sent;
    hide Reported;
    forall x | x in r.sent && x.Exit? ensures Reported(r, x.id) { ReportsKept(m, e, x); }
  }

  lemma {:induction false} RunKeeps(events: seq<Event>)
    ensures Inv(Run(events))
  {
    if events != [] {
      RunKeeps(events[..|events| - 1]);
      StepKeeps(Run(events[..|events| - 1]), events[|events| - 1]);
    }
  }

  /** Whatever starts race in, two shells never run at the same time, and a shell's exit is
      reported exactly when its process is gone. */
  lemma AtMostOneShell(events: seq<Event>, i: nat, j: nat)
    requires i < |Run(events).shells| && j < |Run(events).shells|
    ensures var m := Run(events);
            && (m.shells[i].stage == Running && m.shells[j].stage == Running ==> i == j)
            && (m.shells[i].stage != Running ==> Exit(m.shells[i].id) in m.sent)
            && (Exit(m.shells[i].id) in m.sent ==>
                  exists k :: 0 <= k < |m.shells| && m.shells[k].id == m.shells[i].id && m.shells[k].stage != Running)
  {
    RunKeeps(events);
  }

  /** What is typed into shell `i` over the run: the data of the valid inputs that its PTY takes and that
      name its session while it is current, in their order. */
  ghost function Keystrokes(events: seq<Event>, i: nat): seq<Data> {
    if events == [] then []
    else
      var front, e := events[..|events| - 1], events[|events| - 1];
      var m := Run(front);
      Keystrokes(front, i)
      + if TypesInto(m, e, i) then [e.data] else []
  }

  /** The step types into shell `i`. */
  ghost predicate TypesInto(m: Manager, e: Event, i: nat) {
    e.Input? && e.valid && e.ok && m.current == Some(i) && i < |m.shells| && m.shells[i].id == e.id
  }

  lemma StepTypes(m: Manager, e: Event, i: nat)
    requires Inv(m) && i < |Next(m, e).shells|
    ensures Next(m, e).shells[i].typed == (if i < |m.shells| then m.shells[i].typed else [])
            + if TypesInto(m, e, i) then [e.data] else []
  {
    hide Reported;
  }

  /** A shell receives exactly what is typed into it: nothing is lost, repeated, reordered or misdirected. */
  lemma {:induction false} ShellReceives(events: seq<Event>, i: nat)
    ensures i < |Run(events).shells| ==> Run(events).shells[i].typed == Keystrokes(events, i)
    ensures i >= |Run(events).shells| ==> Keystrokes(events, i) == []
  {
    if events != [] {
      var front, e := events[..|events| - 1], events[|events| - 1];
      ShellReceives(front, i);
      RunKeeps(front);
      hide Next, Inv;
      StepGrows(Run(front), e);
      if i < |Run(events).shells| { StepTypes(Run(front), e, i); }
    }
  }

  /** So everything it received was typed into its own session. */
  lemma {:induction false} TypedIntoOwnSession(events: seq<Event>, i: nat, data: Data)
    requires i < |Run(events).shells| && data in Run(events).shells[i].typed
    ensures exists k :: 0 <= k < |events| && events[k] == Input(Run(events).shells[i].id, data, true, true)
  {
    ShellReceives(events, i);
    hide Next;
    var front, e := events[..|events| - 1], events[|events| - 1];
    var m := Run(front);
    StepGrows(m, e);
    ShellReceives(front, i);
    var id := Run(events).shells[i].id;
    if data in Keystrokes(front, i) {
      TypedIntoOwnSession(front, i, data);
      var k :| 0 <= k < |front| && front[k] == Input(m.shells[i].id, data, true, true);
      assert events[k] == Input(id, data, true, true);
    } else {
      assert events[|events| - 1] == Input(id, data, true, true);
    }
  }

  /** Whom a step can name in a reply: the session it is told to start, or one whose shell there is. */
  lemma RepliesName(m: Manager, e: Event, r: Reply)
    requires r in Next(m, e).sent
    ensures r in m.sent || (e.Start? && r == Error(e.id)) || exists i :: 0 <= i < |m.shells| && m.shells[i].id == r.id
  {
  }

  /** A step keeps the shells there are, in their order, and says nothing twice. */
  lemma StepGrows(m: Manager, e: Event)
    ensures var r := Next(m, e);
            && m.sent <= r.sent && |m.shells| <= |r.shells|
            && (forall i :: 0 <= i < |m.shells| ==> r.shells[i].id == m.shells[i].id)
            && (|m.shells| < |r.shells| ==> e.Start? && |r.shells| == |m.shells| + 1 && r.shells[|m.shells|].id == e.id)
  {
  }

  lemma RunExtends(events: seq<Event>, e: Event)
    ensures Run(events + [e]) == Next(Run(events), e)
  {
    assert (events + [e])[..|events|] == events;
  }

  // ----- the manager as it is -----

  /** Every method is one event of the manager's run, so what is proved of runs holds of the object. */
  class SessionManager {
    var shells: seq<Shell>
    var current: Option<nat>
    var sent: seq<Reply>
    ghost var events: seq<Event>

    ghost function State(): Manager reads this { Manager(shells, current, sent) }

    ghost predicate Valid() reads this { Run(events) == State() }

    constructor ()
      ensures Valid() && events == [] && State() == FRESH
    {
      shells, current, sent := [], None, [];
      events := [];
    }

    /** At most one process runs, and the current shell is the one that has not been cleared. */
    lemma OneShell(i: nat, j: nat)
      requires Valid() && i < |shells| && j < |shells| && shells[i].stage == Running && shells[j].stage == Running
      ensures i == j && current == Some(i)
    {
      RunKeeps(events);
    }

    lemma Extended(before: seq<Event>, e: Event)
      requires events == before + [e] && State() == Next(Run(before), e)
      ensures Valid()
    {
      RunExtends(before, e);
    }

    method HandleStart(id: SessionId, cols: int, rows: int, ok: bool)
      requires Valid()
      modifies this
      ensures Valid() && events == old(events) + [Start(id, cols, rows, ok)]
      ensures old(current).Some? || !ok ==>
              shells == old(shells) && current == old(current) && sent == old(sent) + [Error(id)]
      ensures old(current).None? && ok ==>
        && sent == old(sent) && |shells| == |old(shells)| + 1 && shells[..|old(shells)|] == old(shells)
        && current == Some(|old(shells)|)
        && shells[|old(shells)|] == Shell(id, if cols < 20 then 20 else if cols > 400 then 400 else cols,
            if rows < 5 then 5 else if rows > 200 then 200 else rows, [], Running, false)
    {
      events := events + [Start(id, cols, rows, ok)];
      if current.Some? {
        sent := sent + [Error(id)];
        Extended(old(events), Start(id, cols, rows, ok));
        return;
      }
      var c := Clamp(cols, 20, 400);
      var r := Clamp(rows, 5, 200);
      if !ok {
        sent := sent + [Error(id)];
        Extended(old(events), Start(id, cols, rows, ok));
        return;
      }
      current := Some(|shells|);
      shells := shells + [Shell(id, c, r, [], Running, false)];
      Extended(old(events), Start(id, cols, rows, ok));
    }

    /** Valid data for the current shell's session is typed into that shell, after what it has already
        received, or answered with one error if the PTY does not take it; any other input does nothing. */
    method HandleInput(id: SessionId, data: Data, valid: bool, ok: bool)
      requires Valid()
      modifies this
      ensures Valid() && events == old(events) + [Input(id, data, valid, ok)] && current == old(current)
      ensures current.Some? ==> current.value < |old(shells)|
      ensures var mine := valid && current.Some? && old(shells)[current.value].id == id;
              && (mine && ok ==>
                    shells == old(shells)[current.value := old(shells)[current.value].
                        (typed := old(shells)[current.value].typed + [data])])
              && (mine && !ok ==> sent == old(sent) + [Error(id)])
              && (!(mine && ok) ==> shells == old(shells))
              && (!(mine && !ok) ==> sent == old(sent))
    {
      RunKeeps(events);
      events := events + [Input(id, data, valid, ok)];
      if !valid { Extended(old(events), Input(id, data, valid, ok)); return; }
      var now := current;
      if now.None? || shells[now.value].id != id { Extended(old(events), Input(id, data, valid, ok)); return; }
      if ok {
        shells := shells[now.value := shells[now.value].(typed := shells[now.value].typed + [data])];
      } else {
        sent := sent + [Error(id)];
      }
      Extended(old(events), Input(id, data, valid, ok));
    }

    method HandleResize(id: SessionId, cols: int, rows: int)
      requires Valid()
      modifies this
      ensures Valid() && events == old(events) + [Resize(id, cols, rows)] && current == old(current)
              && sent == old(sent)
      ensures current.Some? ==> current.value < |old(shells)|
      ensures shells == if !(current.Some? && old(shells)[current.value].id == id) then old(shells)
              else old(shells)[current.value := old(shells)[current.value].(
                  cols := if cols < 20 then 20 else if cols > 400 then 400 else cols,
                  rows := if rows < 5 then 5 else if rows > 200 then 200 else rows)]
    {
      RunKeeps(events);
      events := events + [Resize(id, cols, rows)];
      var now := current;
      if now.Some? && shells[now.value].id == id {
        shells := shells[now.value := shells[now.value].(cols := Clamp(cols, 20, 400), rows := Clamp(rows, 5, 200))];
      }
      Extended(old(events), Resize(id, cols, rows));
    }

    /** Afterwards no process runs that has not been told to terminate. */
    method HandleClose(id: SessionId)
      requires Valid()
      modifies this
      ensures Valid() && events == old(events) + [Close(id)] && current == old(current) && sent == old(sent)
      ensures current.Some? ==> current.value < |old(shells)|
      ensures shells == if current.None? then old(shells)
              else old(shells)[current.value := old(shells)[current.value].(stopped := true)]
      ensures forall i :: 0 <= i < |shells| && shells[i].stage == Running ==> shells[i].stopped
    {
      RunKeeps(events);
      events := events + [Close(id)];
      var now := current;
      if now.Some? && !shells[now.value].stopped {
        shells := shells[now.value := shells[now.value].(stopped := true)];
      }
      Extended(old(events), Close(id));
    }

    /** Output of a shell's PTY, or an error reading it. */
    method StreamOutput(i: nat, failed: bool)
      requires Valid() && i < |shells|
      modifies this
      ensures Valid() && events == old(events) + [if failed then ReadFails(i) else Prints(i)]
      ensures shells == old(shells) && current == old(current)
      ensures sent == old(sent) + [if failed then Error(shells[i].id) else Output(shells[i].id)]
    {
      events := events + [if failed then ReadFails(i) else Prints(i)];
      sent := sent + [if failed then Error(shells[i].id) else Output(shells[i].id)];
      Extended(old(events), if failed then ReadFails(i) else Prints(i));
    }

    /** The goroutine that waits for a process reports its exit, once. */
    method ProcessEnded(i: nat)
      requires Valid() && i < |shells| && shells[i].stage == Running
      modifies this
      ensures Valid() && events == old(events) + [ProcessEnds(i)] && current == old(current)
      ensures shells == old(shells)[i := old(shells)[i].(stage := Exited)] && sent == old(sent) + [Exit(shells[i].id)]
      ensures forall j :: 0 <= j < |shells| ==> shells[j].stage != Running
    {
      RunKeeps(events);
      events := events + [ProcessEnds(i)];
      shells := shells[i := shells[i].(stage := Exited)];
      sent := sent + [Exit(shells[i].id)];
      Extended(old(events), ProcessEnds(i));
    }

    /** A finished shell makes room for another exactly if it was the current one. */
    method FinishShell(i: nat)
      requires Valid() && i < |shells| && shells[i].stage == Exited
      modifies this
      ensures Valid() && events == old(events) + [Finish(i)] && current.None? && sent == old(sent)
      ensures shells == old(shells)[i := old(shells)[i].(stopped := true, stage := Finished)]
      ensures forall j :: 0 <= j < |shells| ==> shells[j].stage == Finished
    {
      RunKeeps(events);
      events := events + [Finish(i)];
      shells := shells[i := shells[i].(stopped := true, stage := Finished)];
      if current == Some(i) {
        current := None;
      }
      Extended(old(events), Finish(i));
      RunKeeps(events);
    }
  }
}
