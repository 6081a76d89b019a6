/** Connections under concurrent Close and CloseWrite from any number of
    threads: the operations on each connection happen in one fixed order, each
    at most once. */
module SessionConns {
  import opened Prelude
  import opened SessionMachine
  import opened SessionLocks

  // The once-guards of a connection against the teardown operations made on it.
  predicate OpsOk(conn: Conn) {
    var n := |conn.ops|;
    && conn.ops <= TEARDOWN
    && (conn.writeOnce.Fresh? ==> n == 0)
    && (conn.writeOnce.Spent? ==> n >= 1)
    && (conn.closeOnce.Fresh? ==> n <= 1)
    && (conn.closeOnce.Spent? ==> n == 4)
    && (n >= 2 ==> conn.writeOnce.Spent?)
  }

  // A guard somebody is inside names the thread.
  ghost predicate ConnOk(s: State, c: nat)
    requires c < |s.world.conns|
  {
    var conn := s.world.conns[c];
    && OpsOk(conn)
    && (conn.writeOnce.Active? ==> conn.writeOnce.who < |s.threads| && s.threads[conn.writeOnce.who].task.Shutting(c))
    && (conn.closeOnce.Active? ==> conn.closeOnce.who < |s.threads| && s.threads[conn.closeOnce.who].task.Closing(c))
  }

  // Where thread t stands on a connection says how many operations have been made.
  predicate TaskOk(task: Task, conn: Conn, t: nat)
    requires task.OnConn()
  {
    && (task.Shutting(task.conn) ==> conn.writeOnce == Active(t))
    && (task.Closing(task.conn) ==> conn.closeOnce == Active(t))
    && (task.ShutDo? ==> conn.ops == [])
    && (task.ShutLeave? ==> |conn.ops| == 1)
    && (task.ShutEnter? && task.closing ==> |conn.ops| <= 1)
    && (task.CloseIn? ==> |conn.ops| == 1 && conn.writeOnce.Spent?)
    && (task.CloseOut? ==> |conn.ops| == 2)
    && (task.CloseEval? ==> |conn.ops| == 3)
    && (task.Releasing? ==> |conn.ops| == 4 && conn.process.Some?)
  }

  ghost predicate ThreadConns(s: State, t: nat)
    requires t < |s.threads|
  {
    var task := s.threads[t].task;
    task.OnConn() ==> task.conn < |s.world.conns| && TaskOk(task, s.world.conns[task.conn], t)
  }

  ghost predicate ConnInv(s: State) {
    && (forall c | 0 <= c < |s.world.conns| :: ConnOk(s, c))
    && (forall t | 0 <= t < |s.threads| :: ThreadConns(s, t))
  }

  // Connections are untouched, and thread t neither enters nor leaves one.
  ghost predicate Aside(s: State, s': State, t: nat) {
    && t < |s.threads| && |s'.threads| == |s.threads|
    && (forall u | 0 <= u < |s.threads| && u != t :: s'.threads[u] == s.threads[u])
    && s'.world.conns == s.world.conns
    && (s'.threads[t].task == s.threads[t].task
        || !(s.threads[t].task.OnConn() || s'.threads[t].task.OnConn()))
  }

  lemma AsideKeepsConns(s: State, s': State, t: nat)
    requires ConnInv(s) && Aside(s, s', t)
    ensures ConnInv(s')
  {
    forall c | 0 <= c < |s'.world.conns| ensures ConnOk(s', c) {
      assert ConnOk(s, c);
    }
    forall u | 0 <= u < |s'.threads| ensures ThreadConns(s', u) {
      assert ThreadConns(s, u);
    }
  }

  // A call of CloseWrite or Close begins: outside both guards.
  lemma StartKeepsConns(s: State, a: Action)
    requires ConnInv(s) && Enabled(s, a) && a.Start?
    ensures ConnInv(Apply(s, a))
  {
    var s' := Apply(s, a);
    if a.call.CloseWriteCall? || a.call.CloseConnCall? {
      assert s'.world.conns == s.world.conns;
      forall c | 0 <= c < |s'.world.conns| ensures ConnOk(s', c) { assert ConnOk(s, c); }
      forall u | 0 <= u < |s'.threads| && u != a.t ensures ThreadConns(s', u) { assert ThreadConns(s, u); }
    } else {
      AsideKeepsConns(s, s', a.t);
    }
  }

  lemma DialKeepsConns(s: State, a: Action)
    requires ConnInv(s) && Enabled(s, a) && a.DialStep?
    ensures ConnInv(Apply(s, a))
  {
    var s' := Apply(s, a);
    if s'.world.conns == s.world.conns {
      AsideKeepsConns(s, s', a.t);
    } else {
      forall c | 0 <= c < |s'.world.conns| ensures ConnOk(s', c) {
        if c < |s.world.conns| { assert ConnOk(s, c); }
      }
      forall u | 0 <= u < |s'.threads| ensures ThreadConns(s', u) {
        assert ThreadConns(s, u);
      }
    }
  }

  // One step of thread t on its connection, on values.
  ghost predicate MoveOk(conn: Conn, task: Task, t: nat, next: Task, conn': Conn)
    requires task.OnConn()
  {
    && OpsOk(conn') && conn'.process == conn.process
    && (next.OnConn() ==> next.conn == task.conn && TaskOk(next, conn', t))
    && (conn'.writeOnce == Active(t) ==> next.Shutting(task.conn))
    && (conn'.closeOnce == Active(t) ==> next.Closing(task.conn))
    && (forall u: nat | u != t :: conn'.writeOnce == Active(u) <==> conn.writeOnce == Active(u))
    && (forall u: nat | u != t :: conn'.closeOnce == Active(u) <==> conn.closeOnce == Active(u))
  }

  lemma MovesAreOk(conn: Conn, task: Task, t: nat)
    requires task.OnConn() && OpsOk(conn) && TaskOk(task, conn, t)
    requires conn.writeOnce == Active(t) ==> task.Shutting(task.conn)
    requires conn.closeOnce == Active(t) ==> task.Closing(task.conn)
    requires (task.ShutEnter? ==> !conn.writeOnce.Active?) && (task.CloseEnter? ==> !conn.closeOnce.Active?)
    requires task.CloseEval? ==> conn.process.Some?
    ensures var (next, conn') := ConnMove(conn, task, t); MoveOk(conn, task, t, next, conn')
  {
  }

  // Another thread on the same connection.
  lemma OthersStandStill(conn: Conn, task: Task, t: nat, other: Task, u: nat)
    requires task.OnConn() && OpsOk(conn) && TaskOk(task, conn, t) && u != t
    requires (task.ShutEnter? ==> !conn.writeOnce.Active?) && (task.CloseEnter? ==> !conn.closeOnce.Active?)
    requires other.OnConn() && other.conn == task.conn && TaskOk(other, conn, u)
    ensures TaskOk(other, ConnMove(conn, task, t).1, u)
  {
  }

  // Thread a.t moves on its connection; no other thread and connection is touched.
  ghost predicate Moves(s: State, s': State, t: nat, next: Task, conn': Conn) {
    && t < |s.threads| == |s'.threads| && |s'.world.conns| == |s.world.conns|
    && s.threads[t].task.OnConn() && s.threads[t].task.conn < |s.world.conns|
    && s'.threads == s.threads[t := s'.threads[t]] && s'.threads[t].task == next
    && s'.world.conns == s.world.conns[s.threads[t].task.conn := conn']
  }

  lemma ConnStepMoves(s: State, a: Action)
    requires Enabled(s, a) && a.ConnStep?
    requires s.threads[a.t].task.CloseEval? ==> s.world.conns[s.threads[a.t].task.conn].process.Some?
    ensures var task := s.threads[a.t].task;
      var (next, conn') := ConnMove(s.world.conns[task.conn], task, a.t);
      Moves(s, Apply(s, a), a.t, next, conn')
  {
  }

  lemma MoveKeepsConns(s: State, s': State, t: nat)
    requires ConnInv(s) && t < |s.threads| && ConnReady(s, s.threads[t].task)
    requires s.threads[t].task.CloseEval? ==> s.world.conns[s.threads[t].task.conn].process.Some?
    requires var task := s.threads[t].task;
      var (next, conn') := ConnMove(s.world.conns[task.conn], task, t);
      Moves(s, s', t, next, conn')
    ensures ConnInv(s')
  {
    var task := s.threads[t].task;
    var conn := s.world.conns[task.conn];
    assert ThreadConns(s, t) && ConnOk(s, task.conn);
    MovesAreOk(conn, task, t);
    forall c | 0 <= c < |s'.world.conns| ensures ConnOk(s', c) { assert ConnOk(s, c); }
    forall u | 0 <= u < |s'.threads| ensures ThreadConns(s', u) {
      assert ThreadConns(s, u);
      var other := s.threads[u].task;
      if u != t && other.OnConn() && other.conn == task.conn { OthersStandStill(conn, task, t, other, u); }
    }
  }

  lemma ConnStepKeepsConns(s: State, a: Action)
    requires ConnInv(s) && Enabled(s, a) && a.ConnStep?
    ensures ConnInv(Apply(s, a))
  {
    var task := s.threads[a.t].task;
    if task.CloseEval? && s.world.conns[task.conn].process.None? {
      assert Apply(s, a) == s.(fault := NilRelease);
      forall c | 0 <= c < |s.world.conns| ensures ConnOk(Apply(s, a), c) { assert ConnOk(s, c); }
      forall u | 0 <= u < |s.threads| ensures ThreadConns(Apply(s, a), u) { assert ThreadConns(s, u); }
    } else {
      ConnStepMoves(s, a);
      MoveKeepsConns(s, Apply(s, a), a.t);
    }
  }

  lemma FinishIsAside(s: State, a: Action)
    requires LockInv(s) && Enabled(s, a) && a.Finish?
    ensures Aside(s, Apply(s, a), s.ctl.com.who)
  {
    assert ThreadLocks(s, s.ctl.com.who);
  }

  lemma ControlIsAside(s: State, a: Action)
    requires Enabled(s, a) && (a.RLock? || a.Check? || a.Send? || a.RUnlock? || a.StopStep?)
    ensures Aside(s, Apply(s, a), a.t)
  {
  }

  lemma ConnsKept(s: State, a: Action)
    requires LockInv(s) && ConnInv(s) && Enabled(s, a)
    ensures ConnInv(Apply(s, a))
  {
    var s' := Apply(s, a);
    match a
    case Start(_, _) => StartKeepsConns(s, a);
    case DialStep(_) => DialKeepsConns(s, a);
    case ConnStep(_) => ConnStepKeepsConns(s, a);
    case Finish(_) => FinishIsAside(s, a); AsideKeepsConns(s, s', s.ctl.com.who);
    case TeardownStep =>
      forall c | 0 <= c < |s'.world.conns| ensures ConnOk(s', c) { assert ConnOk(s, c); }
      forall u | 0 <= u < |s'.threads| ensures ThreadConns(s', u) { assert ThreadConns(s, u); }
    case _ => ControlIsAside(s, a); AsideKeepsConns(s, s', a.t);
  }
}
