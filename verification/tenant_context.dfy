/** The tenant setting of pooled connections: it survives COMMIT, ROLLBACK restores its old value, and only
    the begin listener and activate_org keep it in step with the task that is using the connection. */
module TenantContext {
  import opened Base

  type OrgId = nat
  type TaskId = nat
  type ConnId = nat

  /** The database keeps '' where no organization is set; here None. */
  type Setting = Option<OrgId>

  /** An open transaction: who runs it, the setting before it began, and the setting at each open savepoint. */
  datatype Tx = Tx(owner: TaskId, before: Setting, savepoints: seq<Setting>)

  datatype Conn = Conn(setting: Setting, tx: Option<Tx>)

  datatype Task = Task(current: Setting, conn: Option<ConnId>)

  datatype Pool = Pool(conns: map<ConnId, Conn>, tasks: map<TaskId, Task>)

  datatype Event =
    | Connect(c: ConnId)
    | Spawn(t: TaskId, current: Setting)
    | Begin(t: TaskId, c: ConnId)
    | Activate(t: TaskId, org: Setting, c: ConnId)
    | Commit(t: TaskId)
    | Rollback(t: TaskId)
    | Savepoint(t: TaskId)
    | Release(t: TaskId)
    | RollbackTo(t: TaskId)
    | Finish(t: TaskId)

  predicate InTx(p: Pool, t: TaskId)
  {
    t in p.tasks && p.tasks[t].conn.Some? && p.tasks[t].conn.value in p.conns
    && p.conns[p.tasks[t].conn.value].tx.Some?
  }

  predicate Idle(p: Pool, t: TaskId) { t in p.tasks && p.tasks[t].conn.None? }

  predicate Free(p: Pool, c: ConnId) { c in p.conns && p.conns[c].tx.None? }

  function ConnOf(p: Pool, t: TaskId): Conn
    requires InTx(p, t)
  {
    p.conns[p.tasks[t].conn.value]
  }

  predicate Enabled(p: Pool, e: Event)
  {
    match e
    case Connect(c) => c !in p.conns
    case Spawn(t, _) => t !in p.tasks
    case Begin(t, c) => Idle(p, t) && Free(p, c)
    case Activate(t, _, c) => InTx(p, t) || (Idle(p, t) && Free(p, c))
    case Commit(t) => InTx(p, t)
    case Rollback(t) => InTx(p, t)
    case Savepoint(t) => InTx(p, t)
    case Release(t) => InTx(p, t) && |ConnOf(p, t).tx.value.savepoints| > 0
    case RollbackTo(t) => InTx(p, t) && |ConnOf(p, t).tx.value.savepoints| > 0
    case Finish(t) => Idle(p, t)
  }

  /** BEGIN, then the listener: whatever the connection carried, it now carries the task's organization. */
  function Begun(p: Pool, t: TaskId, c: ConnId): Pool
    requires Idle(p, t) && Free(p, c)
  {
    var task := p.tasks[t];
    p.(conns := p.conns[c := Conn(task.current, Some(Tx(t, p.conns[c].setting, [])))],
       tasks := p.tasks[t := task.(conn := Some(c))])
  }

  function OnConn(p: Pool, t: TaskId, conn: Conn): Pool
    requires InTx(p, t)
  {
    p.(conns := p.conns[p.tasks[t].conn.value := conn])
  }

  function Detached(p: Pool, t: TaskId, setting: Setting): Pool
    requires InTx(p, t)
  {
    OnConn(p, t, Conn(setting, None)).(tasks := p.tasks[t := p.tasks[t].(conn := None)])
  }

  function After(p: Pool, e: Event): Pool
    requires Enabled(p, e)
  {
    match e
    case Connect(c) => p.(conns := p.conns[c := Conn(None, None)])
    case Spawn(t, current) => p.(tasks := p.tasks[t := Task(current, None)])
    case Begin(t, c) => Begun(p, t, c)
    case Activate(t, org, c) =>
      // The context variable first; then set_config, which begins a transaction if none is open.
      var p' := p.(tasks := p.tasks[t := p.tasks[t].(current := org)]);
      if InTx(p, t) then OnConn(p', t, ConnOf(p, t).(setting := org)) else Begun(p', t, c)
    case Commit(t) => Detached(p, t, ConnOf(p, t).setting)
    case Rollback(t) => Detached(p, t, ConnOf(p, t).tx.value.before)
    case Savepoint(t) =>
      var c := ConnOf(p, t);
      OnConn(p, t, c.(tx := Some(c.tx.value.(savepoints := c.tx.value.savepoints + [c.setting]))))
    case Release(t) =>
      var c, s := ConnOf(p, t), ConnOf(p, t).tx.value.savepoints;
      OnConn(p, t, c.(tx := Some(c.tx.value.(savepoints := s[..|s| - 1]))))
    case RollbackTo(t) =>
      var c, s := ConnOf(p, t), ConnOf(p, t).tx.value.savepoints;
      OnConn(p, t, Conn(s[|s| - 1], Some(c.tx.value.(savepoints := s[..|s| - 1]))))
    case Finish(t) => p.(tasks := p.tasks - {t})
  }

  predicate Step(p: Pool, e: Event, p': Pool) { Enabled(p, e) && p' == After(p, e) }

  /** Each task's open transaction is on a connection of its own ... */
  ghost predicate Owned(p: Pool)
  {
    && (forall t :: t in p.tasks && p.tasks[t].conn.Some? ==>
          InTx(p, t) && ConnOf(p, t).tx.value.owner == t)
    && (forall c :: c in p.conns && p.conns[c].tx.Some? ==>
          p.conns[c].tx.value.owner in p.tasks && p.tasks[p.conns[c].tx.value.owner].conn == Some(c))
  }

  /** ... whose setting is that task's organization: what any query of the task is scoped by. */
  ghost predicate Isolated(p: Pool)
  {
    Owned(p) && forall t :: InTx(p, t) ==> ConnOf(p, t).setting == p.tasks[t].current
  }

  /** A rollback to a savepoint is tidy if the organization was not switched since the savepoint. */
  predicate Tidy(p: Pool, e: Event)
    requires Enabled(p, e)
  {
    e.RollbackTo? ==>
      var s := ConnOf(p, e.t).tx.value.savepoints;
      s[|s| - 1] == p.tasks[e.t].current
  }

  /** The first half, for one task ... */
  predicate TaskOwns(p: Pool, t: TaskId)
  {
    t in p.tasks && p.tasks[t].conn.Some? ==> InTx(p, t) && ConnOf(p, t).tx.value.owner == t
  }

  /** ... and the second, for one connection. */
  predicate ConnOwned(p: Pool, c: ConnId)
  {
    c in p.conns && p.conns[c].tx.Some? ==>
      p.conns[c].tx.value.owner in p.tasks && p.tasks[p.conns[c].tx.value.owner].conn == Some(c)
  }

  lemma StepKeepsTaskOwns(p: Pool, e: Event, t: TaskId)
    requires Enabled(p, e) && Owned(p)
    ensures TaskOwns(After(p, e), t)
  {
    assert TaskOwns(p, t);
  }

  lemma StepKeepsConnOwned(p: Pool, e: Event, c: ConnId)
    requires Enabled(p, e) && Owned(p)
    ensures ConnOwned(After(p, e), c)
  {
    assert ConnOwned(p, c);
  }

  lemma StepKeepsOwned(p: Pool, e: Event, p': Pool)
    requires Step(p, e, p') && Owned(p)
    ensures Owned(p')
  {
    forall t | t in p'.tasks && p'.tasks[t].conn.Some?
      ensures InTx(p', t) && ConnOf(p', t).tx.value.owner == t
    {
      StepKeepsTaskOwns(p, e, t);
    }
    forall c | c in p'.conns && p'.conns[c].tx.Some?
      ensures p'.conns[c].tx.value.owner in p'.tasks && p'.tasks[p'.conns[c].tx.value.owner].conn == Some(c)
    {
      StepKeepsConnOwned(p, e, c);
    }
  }

  /** A task's own setting stays its own, unless it rolls back to a savepoint itself. */
  lemma StepKeepsSetting(p: Pool, e: Event, t: TaskId)
    requires Enabled(p, e) && Isolated(p) && InTx(After(p, e), t) && !(e.RollbackTo? && e.t == t)
    ensures ConnOf(After(p, e), t).setting == After(p, e).tasks[t].current
  {
    var p' := After(p, e);
    StepKeepsOwned(p, e, p');
    if InTx(p, t) && p.tasks[t].conn == p'.tasks[t].conn {
      assert ConnOf(p, t).tx.value.owner == t;
    }
  }

  /** Every step but an untidy partial rollback keeps isolation, and an untidy one always breaks it. */
  lemma IsolationKeptExactly(p: Pool, e: Event, p': Pool)
    requires Step(p, e, p') && Isolated(p)
    ensures Isolated(p') <==> Tidy(p, e)
  {
    StepKeepsOwned(p, e, p');
    forall t | InTx(p', t) && !(e.RollbackTo? && e.t == t)
      ensures ConnOf(p', t).setting == p'.tasks[t].current
    {
      StepKeepsSetting(p, e, t);
    }
    if e.RollbackTo? { assert InTx(p', e.t); }
  }

  ghost predicate Reaches(p: Pool, n: nat)
    decreases n
  {
    if n == 0 then p == Pool(map[], map[])
    else exists m: Pool, e: Event :: Reaches(m, n - 1) && Step(m, e, p) && Tidy(m, e)
  }

  /** In every interleaving of requests, transactions and connection reuse, every open transaction runs
      under its own task's organization. */
  lemma {:induction false} EveryQueryIsScoped(p: Pool, n: nat, t: TaskId)
    requires Reaches(p, n)
    ensures Isolated(p)
    ensures InTx(p, t) ==> ConnOf(p, t).setting == p.tasks[t].current && ConnOf(p, t).tx.value.owner == t
    decreases n
  {
    if n > 0 {
      var m, e :| Reaches(m, n - 1) && Step(m, e, p) && Tidy(m, e);
      EveryQueryIsScoped(m, n - 1, t);
      IsolationKeptExactly(m, e, p);
    }
  }

  ghost predicate Runs(p: Pool, es: seq<Event>, p': Pool)
    decreases es
  {
    if es == [] then p == p' else Enabled(p, es[0]) && Runs(After(p, es[0]), es[1..], p')
  }

  ghost predicate IsolatedThroughout(p: Pool, es: seq<Event>)
    decreases es
  {
    Isolated(p) && (es != [] && Enabled(p, es[0]) ==> IsolatedThroughout(After(p, es[0]), es[1..]))
  }

  predicate AllTidy(p: Pool, es: seq<Event>)
    decreases es
  {
    es != [] && Enabled(p, es[0]) ==> Tidy(p, es[0]) && AllTidy(After(p, es[0]), es[1..])
  }

  /** A run keeps every open transaction under its own task's organization at every point exactly if all its
      partial rollbacks are tidy. */
  lemma {:induction false} IsolatedThroughoutExactly(p: Pool, es: seq<Event>, p': Pool)
    requires Isolated(p) && Runs(p, es, p')
    ensures IsolatedThroughout(p, es) <==> AllTidy(p, es)
    decreases es
  {
    if es != [] {
      IsolationKeptExactly(p, es[0], After(p, es[0]));
      if Tidy(p, es[0]) { IsolatedThroughoutExactly(After(p, es[0]), es[1..], p'); }
    }
  }

  lemma {:induction false} NextStep(p: Pool, es: seq<Event>, p': Pool, e: Event)
    requires Runs(p, es, p') && Enabled(p', e)
    ensures Runs(p, es + [e], After(p', e))
    decreases es
  {
    if es == [] {
      assert [e][1..] == [];
    } else {
      assert (es + [e])[1..] == es[1..] + [e];
      NextStep(After(p, es[0]), es[1..], p', e);
    }
  }

  /** And they need not be: from the empty pool, a task switches organization inside a savepoint, rolls back to
      it, and goes on under a setting that is not its own. */
  lemma UntidyRun() returns (es: seq<Event>, p: Pool)
    ensures Runs(Pool(map[], map[]), es, p) && InTx(p, 0)
    ensures ConnOf(p, 0).setting == None && p.tasks[0].current == Some(7)
  {
    var start := Pool(map[], map[]);
    var p1 := After(start, Connect(0));
    NextStep(start, [], start, Connect(0));
    var p2 := After(p1, Spawn(0, None));
    NextStep(start, [] + [Connect(0)], p1, Spawn(0, None));
    var p3 := After(p2, Begin(0, 0));
    NextStep(start, [] + [Connect(0)] + [Spawn(0, None)], p2, Begin(0, 0));
    assert p3 == Pool(map[0 := Conn(None, Some(Tx(0, None, [])))], map[0 := Task(None, Some(0))]);
    es, p := UntidyTail(start, [] + [Connect(0)] + [Spawn(0, None)] + [Begin(0, 0)], p3);
  }

  lemma UntidyTail(start: Pool, es: seq<Event>, p: Pool) returns (es': seq<Event>, p': Pool)
    requires Runs(start, es, p)
    requires p == Pool(map[0 := Conn(None, Some(Tx(0, None, [])))], map[0 := Task(None, Some(0))])
    ensures Runs(start, es', p') && InTx(p', 0)
    ensures ConnOf(p', 0).setting == None && p'.tasks[0].current == Some(7)
  {
    var p4 := After(p, Savepoint(0));
    NextStep(start, es, p, Savepoint(0));
    var p5 := After(p4, Activate(0, Some(7), 0));
    NextStep(start, es + [Savepoint(0)], p4, Activate(0, Some(7), 0));
    p' := After(p5, RollbackTo(0));
    NextStep(start, es + [Savepoint(0)] + [Activate(0, Some(7), 0)], p5, RollbackTo(0));
    es' := es + [Savepoint(0)] + [Activate(0, Some(7), 0)] + [RollbackTo(0)];
  }

  /** The listener is what makes this true: a connection comes back to the pool carrying its last task's
      organization after a commit, or an older one after a rollback. Left alone, the next task would run under
      that; with the listener it runs under its own. */
  lemma ReturnedConnectionsAreDirty(p: Pool, t: TaskId, u: TaskId, commit: bool)
    requires Isolated(p) && InTx(p, t) && Idle(p, u)
    ensures var c := p.tasks[t].conn.value;
      var back := After(p, if commit then Commit(t) else Rollback(t));
      && back.conns[c] == Conn(if commit then p.tasks[t].current else ConnOf(p, t).tx.value.before, None)
      && Enabled(back, Begin(u, c))
      && (back.conns[c].setting == back.tasks[u].current <==>
            p.tasks[u].current == (if commit then p.tasks[t].current else ConnOf(p, t).tx.value.before))
      && ConnOf(After(back, Begin(u, c)), u).setting == p.tasks[u].current
  {
  }

  // ---- The session object -----------------------------------------------------------------

  class Connection {
    var setting: Setting
    var before: Option<Setting>

    constructor ()
      ensures setting == None && before == None
    {
      setting, before := None, None;
    }

    /** BEGIN with the listener attached. */
    method Begin(current: Setting)
      requires before.None?
      modifies this
      ensures setting == current && before == Some(old(setting))
    {
      before := Some(setting);
      RestoreTenantGuc(current);
    }

    method RestoreTenantGuc(current: Setting)
      modifies this`setting
      ensures setting == current
    {
      setting := current;
    }

    method End(commit: bool)
      requires before.Some?
      modifies this
      ensures before.None? && setting == if commit then old(setting) else old(before).value
    {
      if !commit { setting := before.value; }
      before := None;
    }
  }

  class TaskSession {
    var current: Setting
    var conn: Connection?

    /** A transaction that is open runs under the task's organization. */
    ghost predicate Valid()
      reads this, conn
    {
      conn != null ==> conn.before.Some? && conn.setting == current
    }

    constructor (current: Setting)
      ensures Valid() && conn == null && this.current == current
    {
      this.current, conn := current, null;
    }

    method Begin(free: Connection)
      requires Valid() && conn == null && free.before.None?
      modifies this, free
      ensures Valid() && conn == free && current == old(current)
    {
      free.Begin(current);
      conn := free;
    }

    method ActivateOrg(org: Setting, free: Connection)
      requires Valid() && (conn == null ==> free.before.None?)
      modifies this, conn, free
      ensures Valid() && current == org && conn == if old(conn) == null then free else old(conn)
      ensures old(conn) != null && old(conn) != free ==>
        free.setting == old(free.setting) && free.before == old(free.before)
    {
      current := org;
      if conn == null {
        free.Begin(current);
        conn := free;
      }
      conn.RestoreTenantGuc(org);
    }

    method DeactivateOrg(free: Connection)
      requires Valid() && (conn == null ==> free.before.None?)
      modifies this, conn, free
      ensures Valid() && current == None && conn == if old(conn) == null then free else old(conn)
    {
      ActivateOrg(None, free);
    }

    method End(commit: bool)
      requires Valid() && conn != null
      modifies this, conn
      ensures Valid() && conn == null && current == old(current)
      ensures old(conn).before.None?
      ensures old(conn).setting == if commit then current else old(conn.before).value
    {
      conn.End(commit);
      conn := null;
    }
  }
}
