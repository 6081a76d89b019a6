/** Each do call and what became of its closure: the process and the handles of
    a dial are there exactly when the closures that fetch them ran, and a
    process is released or dropped exactly when the one closure that was to
    release it ran or was skipped. */
module SessionClosures {
  import opened Prelude
  import opened SessionMachine
  import opened SessionLocks
  import opened SessionConns
  import opened SessionProcesses
  import opened SessionHistory

  // The call's closure has run or has been skipped.
  predicate Settled(r: CallRec) {
    r.ended.Some? || r.skipped.Some?
  }

  // The task of a thread in or just after a call, and the task it made the call with.
  predicate SameClosure(closure: Task, task: Task) {
    match task
    case Naming => closure.Naming?
    case Mounting(_, _, _) => closure.Mounting?
    case Creating(_, _, _, _) => closure.Creating?
    case Handling(proc, _, _) => closure.Handling? && closure.proc == proc
    case _ => closure == task
  }

  // Call c is the last one its thread made before call h.
  ghost predicate PreviousCall(calls: seq<CallRec>, c: nat, h: nat) {
    && c < h < |calls| && calls[c].who == calls[h].who
    && forall j | c < j < h :: calls[j].who != calls[h].who
  }

  // The call before h asked for a process, and got one exactly when its closure ran.
  ghost predicate Asked(calls: seq<CallRec>, h: nat, proc: Option<nat>) {
    exists c: nat :: PreviousCall(calls, c, h) && calls[c].closure.Creating? && (proc.Some? <==> calls[c].ended.Some?)
  }

  ghost predicate ThreadClosure(s: State, t: nat)
    requires t < |s.threads|
  {
    var th, calls := s.threads[t], s.log.calls;
    && (forall k | 0 <= k < |calls| && calls[k].who == t :: k <= th.call)
    && (th.task.Calls() ==>
          && th.call < |calls| && calls[th.call].who == t && SameClosure(calls[th.call].closure, th.task)
          && (Resolved(th) <==> Settled(calls[th.call]))
          && (th.task.Creating? && Resolved(th) && !th.task.err ==>
                (th.task.proc.Some? <==> calls[th.call].ended.Some?))
          && (th.task.Handling? && Resolved(th) && !th.task.err ==>
                (th.task.handles <==> calls[th.call].ended.Some?))
          && (th.task.Handling? ==> Asked(calls, th.call, th.task.proc)))
  }

  // The process a closure releases.
  function ReleaseOf(conns: seq<Conn>, closure: Task): Option<nat> {
    match closure
    case Discarding(p) => Some(p)
    case Releasing(c) => if c < |conns| then conns[c].process else None
    case _ => None
  }

  ghost predicate CallReleases(s: State, k: nat, p: nat) {
    k < |s.log.calls| && ReleaseOf(s.world.conns, s.log.calls[k].closure) == Some(p)
  }

  // Call k against the fate of the process it is to release.
  ghost predicate ReleaseOk(s: State, k: nat)
    requires k < |s.log.calls|
  {
    var r := s.log.calls[k];
    var p := ReleaseOf(s.world.conns, r.closure);
    && (r.closure.Releasing? ==> r.closure.conn < |s.world.conns|)
    && (r.ended.None? || r.skipped.None?)
    && (p.Some? ==>
          && p.value < |s.world.fates|
          && (r.ended.Some? <==> s.world.fates[p.value].Released?)
          && (r.skipped.Some? <==> s.world.fates[p.value].Dropped?))
  }

  ghost predicate FinalOk(s: State, p: nat)
    requires p < |s.world.fates|
  {
    s.world.fates[p].Released? || s.world.fates[p].Dropped? ==> exists k :: CallReleases(s, k, p)
  }

  ghost predicate OneRelease(s: State, j: nat, k: nat)
    requires j < |s.log.calls| && k < |s.log.calls|
  {
    var p := ReleaseOf(s.world.conns, s.log.calls[j].closure);
    p.Some? && p == ReleaseOf(s.world.conns, s.log.calls[k].closure) ==> j == k
  }

  ghost predicate ReleaseInv(s: State) {
    && (forall k | 0 <= k < |s.log.calls| :: ReleaseOk(s, k))
    && (forall p | 0 <= p < |s.world.fates| :: FinalOk(s, p))
    && (forall j, k | 0 <= j < |s.log.calls| && 0 <= k < |s.log.calls| :: OneRelease(s, j, k))
  }

  ghost predicate ClosureInv(s: State) {
    && (forall t | 0 <= t < |s.threads| :: ThreadClosure(s, t))
    && ReleaseInv(s)
  }

  ghost predicate Base(s: State) {
    LockInv(s) && ConnInv(s) && DialInv(s) && FateInv(s) && LogInv(s)
  }

  // ------------------------------------------------------------ the other threads

  // Only thread t moves, and only its records change or are added.
  ghost predicate OnlyCallsOf(s: State, s': State, t: nat) {
    && t < |s.threads| && |s'.threads| == |s.threads|
    && (forall u | 0 <= u < |s.threads| && u != t :: s'.threads[u] == s.threads[u])
    && |s.log.calls| <= |s'.log.calls|
    && (forall k | 0 <= k < |s.log.calls| ::
          && s'.log.calls[k].who == s.log.calls[k].who && s'.log.calls[k].closure == s.log.calls[k].closure
          && (s.log.calls[k].who != t ==> s'.log.calls[k] == s.log.calls[k]))
    && (forall k | |s.log.calls| <= k < |s'.log.calls| :: s'.log.calls[k].who == t)
  }

  lemma AskedStays(s: State, s': State, t: nat, u: nat, h: nat, proc: Option<nat>)
    requires OnlyCallsOf(s, s', t) && u != t
    requires Asked(s.log.calls, h, proc) && h < |s.log.calls| && s.log.calls[h].who == u
    ensures Asked(s'.log.calls, h, proc)
  {
    var calls, calls' := s.log.calls, s'.log.calls;
    var c: nat :| PreviousCall(calls, c, h) && calls[c].closure.Creating? && (proc.Some? <==> calls[c].ended.Some?);
    assert PreviousCall(calls', c, h);
  }

  lemma OthersKeepClosure(s: State, s': State, t: nat, u: nat)
    requires OnlyCallsOf(s, s', t) && u < |s.threads| && u != t && ThreadClosure(s, u)
    ensures ThreadClosure(s', u)
  {
    var th := s.threads[u];
    if th.task.Handling? { AskedStays(s, s', t, u, th.call, th.task.proc); }
  }

  // ------------------------------------------------------------ the stepping thread

  // Inside do, and with the same closure still to be settled or already so.
  ghost predicate SameCall(s: State, s': State, t: nat) {
    && OnlyCallsOf(s, s', t) && |s'.log.calls| == |s.log.calls|
    && s'.threads[t].task == s.threads[t].task && s'.threads[t].call == s.threads[t].call
    && Resolved(s'.threads[t]) == Resolved(s.threads[t])
    && forall k | 0 <= k < |s.log.calls| ::
         s'.log.calls[k].ended == s.log.calls[k].ended && s'.log.calls[k].skipped == s.log.calls[k].skipped
  }

  lemma AskedBefore(s: State, s': State, t: nat, h: nat, proc: Option<nat>)
    requires OnlyCallsOf(s, s', t) && Asked(s.log.calls, h, proc)
    requires forall k | 0 <= k < h < |s.log.calls| :: s'.log.calls[k].ended == s.log.calls[k].ended
    ensures Asked(s'.log.calls, h, proc)
  {
    var calls, calls' := s.log.calls, s'.log.calls;
    var c: nat :| PreviousCall(calls, c, h) && calls[c].closure.Creating? && (proc.Some? <==> calls[c].ended.Some?);
    assert PreviousCall(calls', c, h);
  }

  lemma SameCallKeepsClosure(s: State, s': State, t: nat)
    requires SameCall(s, s', t) && ThreadClosure(s, t)
    ensures ThreadClosure(s', t)
  {
    var th := s.threads[t];
    if th.task.Handling? { AskedBefore(s, s', t, th.call, th.task.proc); }
  }

  lemma ControlIsSameCall(s: State, a: Action)
    requires LockInv(s) && LogInv(s) && Enabled(s, a)
    requires a.RLock? || a.Send? || a.RUnlock? || (a.Check? && !s.ctl.stopped)
    ensures SameCall(s, Apply(s, a), a.t)
  {
    assert ThreadLog(s, a.t);
  }

  // The settling of a thread's call, seen from the thread.
  ghost predicate Resolves(s: State, s': State, t: nat, ran: bool) {
    && t < |s.threads| && s.threads[t].call < |s.log.calls|
    && OnlyCallsOf(s, s', t) && |s'.log.calls| == |s.log.calls|
    && Resolved(s'.threads[t]) && s'.threads[t].call == s.threads[t].call
    && SameClosure(s.threads[t].task, s'.threads[t].task)
    && (forall k | 0 <= k < |s.log.calls| && k != s.threads[t].call :: s'.log.calls[k].ended == s.log.calls[k].ended)
    && var r, task := s'.log.calls[s.threads[t].call], s'.threads[t].task;
       && r.ended.Some? == ran && r.skipped.Some? == !ran
       && (task.Creating? && !task.err ==> task.proc.Some? == ran)
       && (task.Handling? && !task.err ==> task.handles == ran)
  }

  lemma ResolvingKeepsClosure(s: State, s': State, t: nat, ran: bool)
    requires Resolves(s, s', t, ran) && s.threads[t].task.Calls() && ThreadClosure(s, t)
    ensures ThreadClosure(s', t)
  {
    var th := s.threads[t];
    if th.task.Handling? { AskedBefore(s, s', t, th.call, th.task.proc); }
  }

  // do returns without running the closure.
  lemma SkipResolves(s: State, t: nat)
    requires LockInv(s) && LogInv(s) && DialInv(s) && t < |s.threads| && s.threads[t].pc.AtCheck? && s.ctl.stopped
    ensures Resolves(s, DoCheck(s, t), t, false) && s.threads[t].task.Calls()
  {
    assert ThreadLog(s, t) && ThreadLocks(s, t) && DialOk(s, t);
  }

  // The closure runs.
  lemma RunResolves(s: State, outcome: Outcome)
    requires LockInv(s) && LogInv(s) && DialInv(s) && Runs(s)
    ensures Resolves(s, DoFinish(s, outcome), s.ctl.com.who, true) && s.threads[s.ctl.com.who].task.Calls()
  {
    assert ThreadLog(s, s.ctl.com.who) && ThreadLocks(s, s.ctl.com.who) && DialOk(s, s.ctl.com.who);
  }

  // A thread outside do makes a call, or goes on without one.
  ghost predicate Enters(s: State, s': State, t: nat, closure: Task) {
    && t < |s.threads| == |s'.threads| && s'.threads == s.threads[t := s'.threads[t]]
    && s'.threads[t].task == closure && s'.threads[t].pc.AtRLock? && s'.threads[t].call == |s.log.calls|
    && s'.log.calls == s.log.calls + [CallRec(t, closure, |s.log.history|, None, None, None, None)]
  }

  ghost predicate GoesOn(s: State, s': State, t: nat) {
    && t < |s.threads| == |s'.threads| && s'.threads == s.threads[t := s'.threads[t]]
    && s'.threads[t].call == s.threads[t].call && s'.log.calls == s.log.calls
    && (s'.threads[t].task.Calls() ==> s'.threads[t].task == s.threads[t].task && s'.threads[t].pc == s.threads[t].pc)
  }

  // A dial whose creation reported no error.
  predicate FromCreation(th: Thread, proc: Option<nat>) {
    th.task.Creating? && th.pc.Out? && !th.task.err && th.task.proc == proc
  }

  lemma EntersKeepsClosure(s: State, s': State, t: nat, closure: Task)
    requires Enters(s, s', t, closure) && ThreadClosure(s, t)
    requires closure.Handling? ==> FromCreation(s.threads[t], closure.proc)
    ensures OnlyCallsOf(s, s', t) && ThreadClosure(s', t)
  {
    if closure.Handling? {
      assert PreviousCall(s'.log.calls, s.threads[t].call, |s.log.calls|);
      assert Asked(s'.log.calls, |s.log.calls|, closure.proc);
    }
  }

  lemma GoesOnKeepsClosure(s: State, s': State, t: nat)
    requires GoesOn(s, s', t) && ThreadClosure(s, t)
    ensures OnlyCallsOf(s, s', t) && ThreadClosure(s', t)
  {
  }

  lemma StartEntersOrGoesOn(s: State, a: Action)
    requires Enabled(s, a) && a.Start?
    ensures var s' := Apply(s, a);
      GoesOn(s, s', a.t) || (Enters(s, s', a.t, s'.threads[a.t].task) && !s'.threads[a.t].task.Handling?)
  {
  }

  lemma DialEntersOrGoesOn(s: State, a: Action)
    requires Enabled(s, a) && a.DialStep?
    ensures var s' := Apply(s, a);
      || GoesOn(s, s', a.t)
      || (Enters(s, s', a.t, s'.threads[a.t].task)
          && (s'.threads[a.t].task.Handling? ==> FromCreation(s.threads[a.t], s'.threads[a.t].task.proc)))
  {
  }

  lemma ConnEntersOrGoesOn(s: State, a: Action)
    requires Enabled(s, a) && a.ConnStep?
    ensures var s' := Apply(s, a);
      GoesOn(s, s', a.t) || (Enters(s, s', a.t, s'.threads[a.t].task) && s'.threads[a.t].task.Releasing?)
  {
  }

  lemma StopGoesOn(s: State, a: Action)
    requires Enabled(s, a) && a.StopStep?
    ensures GoesOn(s, Apply(s, a), a.t)
  {
  }

  lemma OutsideKeepsClosure(s: State, a: Action)
    requires Enabled(s, a) && (a.Start? || a.DialStep? || a.ConnStep? || a.StopStep?)
    requires ThreadClosure(s, a.t)
    ensures OnlyCallsOf(s, Apply(s, a), a.t) && ThreadClosure(Apply(s, a), a.t)
  {
    var s' := Apply(s, a);
    match a {
      case Start(_, _) => StartEntersOrGoesOn(s, a);
      case DialStep(_) => DialEntersOrGoesOn(s, a);
      case ConnStep(_) => ConnEntersOrGoesOn(s, a);
      case StopStep(_) => StopGoesOn(s, a);
    }
    if GoesOn(s, s', a.t) { GoesOnKeepsClosure(s, s', a.t); }
    else { EntersKeepsClosure(s, s', a.t, s'.threads[a.t].task); }
  }

  lemma InsideKeepsClosure(s: State, a: Action)
    requires LockInv(s) && LogInv(s) && DialInv(s) && Enabled(s, a)
    requires (a.RLock? || a.Check? || a.Send? || a.RUnlock?) && ThreadClosure(s, a.t)
    ensures OnlyCallsOf(s, Apply(s, a), a.t) && ThreadClosure(Apply(s, a), a.t)
  {
    if a.Check? && s.ctl.stopped {
      SkipResolves(s, a.t);
      ResolvingKeepsClosure(s, Apply(s, a), a.t, false);
    } else {
      ControlIsSameCall(s, a);
      SameCallKeepsClosure(s, Apply(s, a), a.t);
    }
  }

  lemma ThreadsKept(s: State, a: Action)
    requires LockInv(s) && LogInv(s) && DialInv(s) && Enabled(s, a)
    requires forall t | 0 <= t < |s.threads| :: ThreadClosure(s, t)
    ensures forall t | 0 <= t < |Apply(s, a).threads| :: ThreadClosure(Apply(s, a), t)
  {
    var s' := Apply(s, a);
    if a.TeardownStep? {
      assert s'.threads == s.threads && s'.log == s.log;
      forall u | 0 <= u < |s'.threads| ensures ThreadClosure(s', u) { assert ThreadClosure(s, u); }
    } else {
      var t := if a.Finish? then s.ctl.com.who else a.t;
      assert ThreadClosure(s, t);
      if a.Finish? { RunResolves(s, a.outcome); ResolvingKeepsClosure(s, s', t, true); }
      else if a.RLock? || a.Check? || a.Send? || a.RUnlock? { InsideKeepsClosure(s, a); }
      else { OutsideKeepsClosure(s, a); }
      forall u | 0 <= u < |s'.threads| ensures ThreadClosure(s', u) {
        if u != t { OthersKeepClosure(s, s', t, u); }
      }
    }
  }

  // ------------------------------------------------------------ releases

  predicate Final(f: Fate) {
    f.Released? || f.Dropped?
  }

  // No call is settled, no reference comes to its end; a new call may be made,
  // which no other call competes with.
  ghost predicate NoneSettles(s: State, s': State) {
    var calls, calls' := s.log.calls, s'.log.calls;
    && |calls| <= |calls'| <= |calls| + 1
    && (forall k | 0 <= k < |calls| ::
          && calls'[k].closure == calls[k].closure
          && calls'[k].ended == calls[k].ended && calls'[k].skipped == calls[k].skipped)
    && |s'.world.fates| == |s.world.fates|
    && (forall p | 0 <= p < |s.world.fates| ::
          if Final(s.world.fates[p]) then s'.world.fates[p] == s.world.fates[p] else !Final(s'.world.fates[p]))
    && |s.world.conns| <= |s'.world.conns|
    && (forall c | 0 <= c < |s.world.conns| :: s'.world.conns[c].process == s.world.conns[c].process)
    && (|calls'| > |calls| ==> FreshCall(s, s'.world.conns, calls'[|calls|]))
  }

  ghost predicate FreshCall(s: State, conns: seq<Conn>, r: CallRec) {
    && r.ended.None? && r.skipped.None?
    && (r.closure.Releasing? ==> r.closure.conn < |s.world.conns| <= |conns|)
    && var p := ReleaseOf(conns, r.closure);
       p.Some? ==>
         && p.value < |s.world.fates| && !Final(s.world.fates[p.value])
         && forall j | 0 <= j < |s.log.calls| :: !CallReleases(s, j, p.value)
  }

  lemma NewReleasesElse(s: State, s': State, j: nat)
    requires NoneSettles(s, s') && j < |s.log.calls| < |s'.log.calls| && ReleaseOk(s, j)
    ensures OneRelease(s', j, |s.log.calls|) && OneRelease(s', |s.log.calls|, j)
  {
    var p := ReleaseOf(s.world.conns, s.log.calls[j].closure);
    assert ReleaseOf(s'.world.conns, s'.log.calls[j].closure) == p;
    if p.Some? { assert CallReleases(s, j, p.value); }
  }

  lemma NoneSettlesKeeps(s: State, s': State)
    requires ReleaseInv(s) && NoneSettles(s, s')
    ensures ReleaseInv(s')
  {
    var n := |s.log.calls|;
    forall k | 0 <= k < |s'.log.calls| ensures ReleaseOk(s', k) {
      if k < n { assert ReleaseOk(s, k); }
    }
    forall p | 0 <= p < |s'.world.fates| ensures FinalOk(s', p) {
      assert FinalOk(s, p);
      if Final(s.world.fates[p]) {
        var k :| CallReleases(s, k, p);
        assert ReleaseOk(s, k) && CallReleases(s', k, p);
      }
    }
    forall j, k | 0 <= j < |s'.log.calls| && 0 <= k < |s'.log.calls| ensures OneRelease(s', j, k) {
      if j < n && k < n { assert ReleaseOk(s, j) && ReleaseOk(s, k) && OneRelease(s, j, k); }
      else if j < n { NewReleasesElse(s, s', j); }
      else if k < n { NewReleasesElse(s, s', k); }
    }
  }

  // Call k is settled: its closure ran or was skipped, and the process it was to
  // release goes with it.
  ghost predicate CallSettles(s: State, s': State, k: nat, ran: bool) {
    var calls, calls' := s.log.calls, s'.log.calls;
    && k < |calls| == |calls'| && !Settled(calls[k])
    && calls'[k].ended.Some? == ran && calls'[k].skipped.Some? == !ran
    && (forall j | 0 <= j < |calls| ::
          && calls'[j].closure == calls[j].closure
          && (j != k ==> calls'[j].ended == calls[j].ended && calls'[j].skipped == calls[j].skipped))
    && s'.world.conns == s.world.conns
    && |s.world.fates| <= |s'.world.fates|
    && (forall p | |s.world.fates| <= p < |s'.world.fates| :: !Final(s'.world.fates[p]))
    && (forall p | 0 <= p < |s.world.fates| ::
          s'.world.fates[p] ==
          if CallReleases(s, k, p) then (if ran then Released else Dropped) else s.world.fates[p])
  }

  lemma CallSettlesKeeps(s: State, s': State, k: nat, ran: bool)
    requires ReleaseInv(s) && CallSettles(s, s', k, ran)
    ensures ReleaseInv(s')
  {
    forall j | 0 <= j < |s'.log.calls| ensures ReleaseOk(s', j) {
      assert ReleaseOk(s, j) && OneRelease(s, j, k);
    }
    forall p | 0 <= p < |s'.world.fates| ensures FinalOk(s', p) {
      if p < |s.world.fates| {
        assert FinalOk(s, p);
        if CallReleases(s, k, p) {
          assert CallReleases(s', k, p);
        } else if Final(s'.world.fates[p]) {
          var j: nat :| CallReleases(s, j, p);
          assert CallReleases(s', j, p);
        }
      }
    }
    forall i, j | 0 <= i < |s'.log.calls| && 0 <= j < |s'.log.calls| ensures OneRelease(s', i, j) {
      assert OneRelease(s, i, j);
    }
  }

  // The thread that is in a call to release p, and what the fate of p says of it.
  lemma ReleaserOf(s: State, j: nat, p: nat) returns (u: nat)
    requires Base(s) && ClosureInv(s) && CallReleases(s, j, p) && !Settled(s.log.calls[j])
    ensures u < |s.threads| && !s.threads[u].pc.Out? && p < |s.world.fates|
    ensures s.world.fates[p] == Dialing(u)
         || (s.world.fates[p].InConn? && s.world.fates[p].conn < |s.world.conns|
             && s.world.conns[s.world.fates[p].conn].closeOnce == Active(u))
  {
    u := s.log.calls[j].who;
    assert OpenOk(s, j) && CallOk(s.log, j) && ReleaseOk(s, j);
    assert ThreadLocks(s, u) && ThreadClosure(s, u) && ThreadConns(s, u) && HolderOk(s, u);
    var closure := s.log.calls[j].closure;
    assert s.threads[u].task == closure;
    if closure.Releasing? { assert OwnerOk(s, closure.conn); }
  }

  // A thread outside do that holds p, or is closing the connection that owes it:
  // no call to release it has been made.
  lemma NoReleaseYet(s: State, t: nat, p: nat)
    requires Base(s) && ClosureInv(s) && t < |s.threads| && s.threads[t].pc.Out? && p < |s.world.fates|
    requires s.world.fates[p] == Dialing(t)
          || (s.world.fates[p].InConn? && s.world.fates[p].conn < |s.world.conns|
              && s.world.conns[s.world.fates[p].conn].closeOnce == Active(t))
    ensures forall j | 0 <= j < |s.log.calls| :: !CallReleases(s, j, p)
  {
    forall j | 0 <= j < |s.log.calls| && CallReleases(s, j, p) ensures false {
      assert ReleaseOk(s, j);
      var u := ReleaserOf(s, j, p);
    }
  }

  lemma ControlSettlesNone(s: State, a: Action)
    requires LogInv(s) && Enabled(s, a)
    requires a.RLock? || a.Send? || a.RUnlock? || (a.Check? && !s.ctl.stopped) || a.StopStep? || a.TeardownStep?
    ensures NoneSettles(s, Apply(s, a))
  {
    if !a.TeardownStep? { assert ThreadLog(s, a.t); }
  }

  lemma StartSettlesNone(s: State, a: Action)
    requires Enabled(s, a) && a.Start?
    ensures NoneSettles(s, Apply(s, a))
  {
  }

  lemma DialSettlesNone(s: State, a: Action)
    requires Base(s) && ClosureInv(s) && Enabled(s, a) && a.DialStep?
    ensures NoneSettles(s, Apply(s, a))
  {
    assert DialOk(s, a.t) && HolderOk(s, a.t);
    var h := Held(s.threads[a.t]);
    if h.Some? { NoReleaseYet(s, a.t, h.value); }
  }

  lemma ConnSettlesNone(s: State, a: Action)
    requires Base(s) && ClosureInv(s) && Enabled(s, a) && a.ConnStep?
    ensures NoneSettles(s, Apply(s, a))
  {
    var task := s.threads[a.t].task;
    assert ThreadConns(s, a.t) && OwnerOk(s, task.conn);
    if task.CloseEval? && s.world.conns[task.conn].process.Some? {
      NoReleaseYet(s, a.t, s.world.conns[task.conn].process.value);
    }
  }

  // The call a thread is in, before it is settled, against its closure.
  lemma CallInHand(s: State, t: nat)
    requires Base(s) && ClosureInv(s) && t < |s.threads| && !s.threads[t].pc.Out? && !s.threads[t].pc.AtRUnlock?
    ensures var k := s.threads[t].call;
      && k < |s.log.calls| && !Settled(s.log.calls[k]) && s.threads[t].task.Calls()
      && ReleaseOf(s.world.conns, s.log.calls[k].closure) == Releases(s, t)
      && (Releases(s, t).Some? ==> Releases(s, t).value < |s.world.fates|)
  {
    assert ThreadLog(s, t) && ThreadLocks(s, t) && ThreadClosure(s, t);
    assert ReleaseOk(s, s.threads[t].call);
  }

  lemma SkipSettles(s: State, t: nat)
    requires Base(s) && ClosureInv(s) && t < |s.threads| && s.threads[t].pc.AtCheck? && s.ctl.stopped
    ensures CallSettles(s, DoCheck(s, t), s.threads[t].call, false)
  {
    CallInHand(s, t);
    assert ThreadLog(s, t);
  }

  lemma RunSettles(s: State, outcome: Outcome)
    requires Base(s) && ClosureInv(s) && Runs(s)
    ensures CallSettles(s, DoFinish(s, outcome), s.threads[s.ctl.com.who].call, true)
  {
    var t := s.ctl.com.who;
    assert ThreadLocks(s, t) && ThreadLog(s, t) && DialOk(s, t);
    CallInHand(s, t);
    if Releases(s, t).Some? { ReleaseSettles(s, outcome); } else { NoReleaseSettles(s, outcome); }
  }

  // A closure that releases nothing brings no reference to its end.
  lemma NoReleaseSettles(s: State, outcome: Outcome)
    requires Runs(s) && s.threads[s.ctl.com.who].task.Calls() && Releases(s, s.ctl.com.who).None?
    ensures var fates, fates' := s.world.fates, DoFinish(s, outcome).world.fates;
      && |fates| <= |fates'| && fates'[..|fates|] == fates
      && forall p | |fates| <= p < |fates'| :: fates'[p].Dialing?
  {
  }

  lemma ReleasesKept(s: State, a: Action)
    requires Base(s) && ClosureInv(s) && Enabled(s, a)
    ensures ReleaseInv(Apply(s, a))
  {
    var s' := Apply(s, a);
    if a.Finish? {
      RunSettles(s, a.outcome);
      CallSettlesKeeps(s, s', s.threads[s.ctl.com.who].call, true);
    } else if a.Check? && s.ctl.stopped {
      SkipSettles(s, a.t);
      CallSettlesKeeps(s, s', s.threads[a.t].call, false);
    } else {
      match a {
        case Start(_, _) => StartSettlesNone(s, a);
        case DialStep(_) => DialSettlesNone(s, a);
        case ConnStep(_) => ConnSettlesNone(s, a);
        case _ => ControlSettlesNone(s, a);
      }
      NoneSettlesKeeps(s, s');
    }
  }

  /** Every step keeps calls, closures, processes and fates in agreement. */
  lemma ClosuresKept(s: State, a: Action)
    requires Base(s) && ClosureInv(s) && Enabled(s, a)
    ensures ClosureInv(Apply(s, a))
  {
    ThreadsKept(s, a);
    ReleasesKept(s, a);
  }
}
