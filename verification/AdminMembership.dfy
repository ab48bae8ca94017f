/** User administration of backend/internal/core/admin/repository.go: role changes and deletions as
transactions that interleave statement by statement, creations without one.
*/
module AdminMembership {
  import opened Options

  type UserId = nat
  type TxId = nat

  datatype Role = Superadmin | Admin | Other(name: string)

  predicate IsAdmin(r: Role) { r.Superadmin? || r.Admin? }

  function Admins(users: map<UserId, Role>): set<UserId> { set u | u in users && IsAdmin(users[u]) }

  datatype Operation = SetRole(user: UserId, role: Role) | Remove(user: UserId)

  /** The operation takes `current` out of the administrators. */
  predicate Drops(op: Operation, current: Role) { IsAdmin(current) && (op.SetRole? ==> !IsAdmin(op.role)) }

  function Written(users: map<UserId, Role>, op: Operation): map<UserId, Role> {
    if op.SetRole? then users[op.user := op.role] else users - {op.user}
  }

  datatype Outcome = Done(users: map<UserId, Role>) | NotFound | LastAdmin

  /** An operation with nothing in between. */
  function Sequential(users: map<UserId, Role>, op: Operation): Outcome {
    if op.user !in users then NotFound
    else if Drops(op, users[op.user]) && |Admins(users)| <= 1 then LastAdmin
    else Done(Written(users, op))
  }

  class Repository {
    var users: map<UserId, Role>

    constructor (initial: map<UserId, Role>)
      ensures users == initial
    {
      users := initial;
    }

    method CreateUser(id: UserId, role: Role)
      requires id !in users
      modifies this
      ensures users == old(users)[id := role]
    {
      users := users[id := role];
    }

    /** Refused exactly for a user who is not there, or who is the only administrator and would stop
        being one; otherwise that role changes and nothing else. */
    method UpdateUserRole(id: UserId, role: Role) returns (r: Outcome)
      modifies this
      ensures r == Sequential(old(users), SetRole(id, role))
      ensures r.NotFound? <==> id !in old(users)
      ensures r.LastAdmin? <==> OnlyAdmin(old(users), id) && role != Admin && role != Superadmin
      ensures r.Done? ==> users == old(users)[id := role] && r.users == users
      ensures !r.Done? ==> users == old(users)
      ensures HasAdmin(old(users)) ==> HasAdmin(users)
    {
      CountsOne(users, id);
      if id !in users { return NotFound; }
      var currentRole := users[id];
      if (currentRole == Admin || currentRole == Superadmin) && role != Admin && role != Superadmin {
        hide Admins, IsAdmin;
        var adminCount := |Admins(users)|;
        if adminCount <= 1 { return LastAdmin; }
      }
      StillAdmin(users, SetRole(id, role));
      users := users[id := role];
      return Done(users);
    }

    /** The same for a deletion. */
    method DeleteUser(id: UserId) returns (r: Outcome)
      modifies this
      ensures r == Sequential(old(users), Remove(id))
      ensures r.NotFound? <==> id !in old(users)
      ensures r.LastAdmin? <==> OnlyAdmin(old(users), id)
      ensures r.Done? ==> users == old(users) - {id} && r.users == users
      ensures !r.Done? ==> users == old(users)
      ensures HasAdmin(old(users)) ==> HasAdmin(users)
    {
      CountsOne(users, id);
      if id !in users { return NotFound; }
      var currentRole := users[id];
      if currentRole == Admin || currentRole == Superadmin {
        hide Admins, IsAdmin;
        var adminCount := |Admins(users)|;
        if adminCount <= 1 { return LastAdmin; }
      }
      StillAdmin(users, Remove(id));
      users := users - {id};
      return Done(users);
    }
  }

  ghost predicate HasAdmin(users: map<UserId, Role>) {
    exists u :: u in users && (users[u] == Admin || users[u] == Superadmin)
  }

  /** The user is an administrator and nobody else is. */
  ghost predicate OnlyAdmin(users: map<UserId, Role>, id: UserId) {
    && id in users && (users[id] == Admin || users[id] == Superadmin)
    && forall u :: u in users && (users[u] == Admin || users[u] == Superadmin) ==> u == id
  }

  lemma CountsOne(users: map<UserId, Role>, id: UserId)
    ensures id in users && IsAdmin(users[id]) ==> (|Admins(users)| <= 1 <==> OnlyAdmin(users, id))
  {
    if id in users && IsAdmin(users[id]) {
      var others := Admins(users) - {id};
      assert Admins(users) == {id} + others;
      if OnlyAdmin(users, id) {
        assert others == {};
      } else {
        var u :| u in users && IsAdmin(users[u]) && u != id;
        assert u in others;
      }
    }
  }

  lemma StillAdmin(users: map<UserId, Role>, op: Operation)
    requires op.user in users && !(Drops(op, users[op.user]) && OnlyAdmin(users, op.user))
    ensures HasAdmin(users) ==> HasAdmin(Written(users, op))
  {
    if u :| u in users && IsAdmin(users[u]) {
      var r := Written(users, op);
      if u == op.user && Drops(op, users[u]) {
        var other :| other in users && IsAdmin(users[other]) && other != u;
        assert other in r && IsAdmin(r[other]);
      } else {
        assert u in r && IsAdmin(r[u]);
      }
    }
  }

  // ----- interleaved transactions -----

  /** A transaction waits for the advisory lock, holds it, has read the user's role, has counted the
      administrators or did not need to, has written, or is over. */
  datatype Stage =
    | Waiting | Locked | Read(current: Role) | Checked(current: Role, counted: Option<nat>)
    | Wrote(current: Role, counted: Option<nat>) | Committed | Refused(why: Outcome) | RolledBack

  datatype Tx = Tx(op: Operation, stage: Stage)

  /** The committed users, the transactions, and who holds the lock. */
  datatype World = World(users: map<UserId, Role>, txs: map<TxId, Tx>, lock: Option<TxId>)

  datatype Event =
    | Create(id: UserId, role: Role)
    | Begin(tx: TxId, op: Operation)
    | Acquire(tx: TxId)
    | ReadRole(tx: TxId)
    | Count(tx: TxId)
    | Write(tx: TxId)
    | Commit(tx: TxId)
    | Rollback(tx: TxId)

  predicate Holds(stage: Stage) { stage.Locked? || stage.Read? || stage.Checked? || stage.Wrote? }

  predicate Enabled(w: World, e: Event) {
    match e
    case Create(id, _) => id !in w.users
    case Begin(tx, _) => tx !in w.txs
    case Acquire(tx) => tx in w.txs && w.txs[tx].stage.Waiting? && w.lock.None?
    case ReadRole(tx) => tx in w.txs && w.txs[tx].stage.Locked?
    case Count(tx) => tx in w.txs && w.txs[tx].stage.Read? && Drops(w.txs[tx].op, w.txs[tx].stage.current)
    case Write(tx) => tx in w.txs
        && (w.txs[tx].stage.Checked? || (w.txs[tx].stage.Read? && !Drops(w.txs[tx].op, w.txs[tx].stage.current)))
    case Commit(tx) => tx in w.txs && w.txs[tx].stage.Wrote?
    case Rollback(tx) => tx in w.txs && (Holds(w.txs[tx].stage) || w.txs[tx].stage.Waiting?)
  }

  function At(w: World, tx: TxId, stage: Stage): World
    requires tx in w.txs
  {
    w.(txs := w.txs[tx := w.txs[tx].(stage := stage)],
       lock := if w.lock == Some(tx) && !Holds(stage) then None else w.lock)
  }

  /** Reads see committed rows; a write is seen by others only after the commit. */
  function Next(w: World, e: Event): World {
    if !Enabled(w, e) then w
    else
      match e
      case Create(id, role) => w.(users := w.users[id := role])
      case Begin(tx, op) => w.(txs := w.txs[tx := Tx(op, Waiting)])
      case Acquire(tx) => At(w, tx, Locked).(lock := Some(tx))
      case ReadRole(tx) =>
        var user := w.txs[tx].op.user;
        At(w, tx, if user in w.users then Read(w.users[user]) else Refused(NotFound))
      case Count(tx) =>
        var n := |Admins(w.users)|;
        At(w, tx, if n <= 1 then Refused(LastAdmin) else Checked(w.txs[tx].stage.current, Some(n)))
      case Write(tx) =>
        var t := w.txs[tx];
        At(w, tx, if t.op.user !in w.users then Refused(NotFound)
                  else Wrote(t.stage.current, if t.stage.Checked? then t.stage.counted else None))
      case Commit(tx) => At(w, tx, Committed).(users := Written(w.users, w.txs[tx].op))
      case Rollback(tx) => At(w, tx, RolledBack)
  }

  function Run(users: map<UserId, Role>, events: seq<Event>): World {
    if events == [] then World(users, map[], None) else Next(Run(users, events[..|events| - 1]), events[|events| - 1])
  }

  /** What the holder of the lock has read is still so: the role exactly, the count as a lower bound. */
  ghost predicate HolderRow(w: World, t: Tx) {
    && (t.stage.Read? || t.stage.Checked? || t.stage.Wrote? ==>
        t.op.user in w.users && w.users[t.op.user] == t.stage.current)
    && (t.stage.Checked? || t.stage.Wrote? ==>
          && (Drops(t.op, t.stage.current) ==> t.stage.counted.Some?)
          && (t.stage.counted.Some? ==> 2 <= t.stage.counted.value <= |Admins(w.users)|))
  }

  ghost predicate Inv(w: World) {
    && 1 <= |Admins(w.users)|
    && (forall tx :: tx in w.txs && Holds(w.txs[tx].stage) ==> w.lock == Some(tx))
    && (forall tx :: tx in w.txs ==> HolderRow(w, w.txs[tx]))
  }

  lemma AdminsAfterCreate(users: map<UserId, Role>, id: UserId, role: Role)
    requires id !in users
    ensures |Admins(users)| <= |Admins(users[id := role])|
  {
    assert Admins(users) <= Admins(users[id := role]);
    Subset(Admins(users), Admins(users[id := role]));
  }

  lemma AdminsAfterWrite(users: map<UserId, Role>, op: Operation)
    requires op.user in users
    ensures |Admins(Written(users, op))| >= |Admins(users)| - if Drops(op, users[op.user]) then 1 else 0
  {
    var after := Admins(Written(users, op));
    if Drops(op, users[op.user]) {
      assert Admins(users) <= after + {op.user};
      Subset(Admins(users), after + {op.user});
    } else {
      assert Admins(users) <= after;
      Subset(Admins(users), after);
    }
  }

  lemma Subset(a: set<UserId>, b: set<UserId>)
    requires a <= b
    ensures |a| <= |b|
  {
    assert b == a + (b - a);
  }

  lemma StepKeeps(w: World, e: Event)
    requires Inv(w)
    ensures Inv(Next(w, e))
  {
    hide Admins;
    if Enabled(w, e) {
      match e
      case Create(id, role) =>
        AdminsAfterCreate(w.users, id, role);
        assert forall tx :: tx in w.txs ==> HolderRow(w, w.txs[tx]);
      case Commit(tx) =>
        assert HolderRow(w, w.txs[tx]);
        AdminsAfterWrite(w.users, w.txs[tx].op);
        var r := Next(w, e);
        forall other | other in r.txs ensures HolderRow(r, r.txs[other]) {
          if other != tx { assert HolderRow(w, w.txs[other]); }
        }
      case _ =>
        var r := Next(w, e);
        forall other | other in r.txs ensures HolderRow(r, r.txs[other]) {
          if other in w.txs { assert HolderRow(w, w.txs[other]); }
        }
    }
  }

  lemma {:induction false} RunKeeps(users: map<UserId, Role>, events: seq<Event>)
    requires |Admins(users)| >= 1
    ensures Inv(Run(users, events))
  {
    if events != [] {
      RunKeeps(users, events[..|events| - 1]);
      hide Inv;
      StepKeeps(Run(users, events[..|events| - 1]), events[|events| - 1]);
    }
  }

  /** Starting with an administrator, no interleaving of any number of role changes, deletions and
      creations reaches a state without one. */
  lemma AlwaysAnAdmin(users: map<UserId, Role>, events: seq<Event>)
    requires HasAdmin(users)
    ensures HasAdmin(Run(users, events).users)
  {
    var u :| u in users && IsAdmin(users[u]);
    assert u in Admins(users);
    RunKeeps(users, events);
    var w := Run(users, events);
    hide Run;
    assert (forall x :: x !in Admins(w.users)) ==> Admins(w.users) == {};
    var x :| x in Admins(w.users);
  }

  /** The administrators counted under the lock are still a lower bound when the transaction
      commits, and the role read is still the user's role. */
  lemma CountStillHolds(users: map<UserId, Role>, events: seq<Event>, tx: TxId)
    requires |Admins(users)| >= 1
    requires tx in Run(users, events).txs && Run(users, events).txs[tx].stage.Wrote?
    ensures var w := Run(users, events); var t := w.txs[tx];
            && t.op.user in w.users && w.users[t.op.user] == t.stage.current && w.lock == Some(tx)
            && (Drops(t.op, t.stage.current) ==>
                t.stage.counted.Some? && 2 <= t.stage.counted.value <= |Admins(w.users)|)
  {
    RunKeeps(users, events);
    hide Run, Admins;
    assert HolderRow(Run(users, events), Run(users, events).txs[tx]);
  }

  /** A commit has the effect the whole operation would have, run alone on the users of that moment;
      a refusal is the one the operation run alone would get there. */
  lemma Linearizes(users: map<UserId, Role>, events: seq<Event>, tx: TxId)
    requires |Admins(users)| >= 1 && tx in Run(users, events).txs
    ensures var w := Run(users, events); var r := Run(users, events + [Commit(tx)]);
            w.txs[tx].stage.Wrote? ==> Sequential(w.users, w.txs[tx].op) == Done(r.users) && r.lock.None?
    ensures var w := Run(users, events);
            forall e :: e == ReadRole(tx) || e == Count(tx) || e == Write(tx) ==>
              var r := Run(users, events + [e]);
              && r.users == w.users
              && (r.txs[tx].stage.Refused? && !w.txs[tx].stage.Refused? ==>
                  r.txs[tx].stage.why == Sequential(w.users, w.txs[tx].op))
  {
    var w := Run(users, events);
    RunKeeps(users, events);
    forall e: Event ensures Run(users, events + [e]) == Next(w, e) { assert (events + [e])[..|events|] == events; }
    hide Run, Admins;
    assert HolderRow(w, w.txs[tx]);
  }
}
