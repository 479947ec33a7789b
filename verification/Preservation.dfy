/** Every step of the executor preserves the invariant, so it holds over every run. */
module Preservation {
  import opened Tasks
  import opened Machine
  import opened Invariant

  // ---------------------------------------------------------------------------------------------
  // Runs

  /** A live run's step on its own task, given that the task is still in order afterwards. */
  lemma LiveStepInv(c: Config, s: State, s': State, th: ThreadId, ph: Phase, x: Execution)
    requires Inv(c, s) && IsRun(c, s, th) && Live(s.threads[th])
    requires s' == s.(threads := s.threads[th := ph], exec := s.exec[th.task := x])
    requires x.starts == s.exec[th.task].starts && x.resets == s.exec[th.task].resets
    requires s.exec[th.task].state == Done ==> x.state == Done
    requires PhaseOk(th, ph) && !HoldsLock(ph)
    requires Good(c, s', th.task)
    ensures Inv(c, s')
  {
    hide WellFormed, Good, TasksOk, ChainsOk, ThreadsOk, LockOk, RunIds;
    ThreadAt(c, s, th);
    TouchFrame(c, s, s', th, th.task);
    ChainsFrame(c, s, s');
    ThreadsFrame(s, s', th);
    LockFrame(c, s, s', th);
    RunAdded(s.threads, th, ph);
  }

  lemma CaptureInv(c: Config, s: State, th: ThreadId)
    requires Inv(c, s) && RunEnabled(c, s, th, Capture)
    ensures Inv(c, Captured(s, th))
  {
    hide WellFormed;
    var s' := Captured(s, th);
    assert ThreadOk(s, th) && Good(c, s, th.task);
    LiveStepInv(c, s, s', th, s'.threads[th], s'.exec[th.task]);
  }

  lemma DecideInv(c: Config, s: State, th: ThreadId, failed: bool)
    requires Inv(c, s) && RunEnabled(c, s, th, Decide(failed))
    ensures Inv(c, ApplyRun(c, s, th, Decide(failed)))
  {
    hide WellFormed;
    var s' := ApplyRun(c, s, th, Decide(failed));
    assert ThreadOk(s, th) && Good(c, s, th.task);
    if s.exec[th.task].state == Running && Root !in s.cancelled {
      OwnContextAlive(c, s, th.task);
    }
    assert s'.exec == s.exec[th.task := s.exec[th.task]];
    LiveStepInv(c, s, s', th, s'.threads[th], s.exec[th.task]);
  }

  lemma WriteIsGood(c: Config, s: State, th: ThreadId)
    requires Inv(c, s) && RunEnabled(c, s, th, Write)
    ensures Good(c, OutcomeWritten(s, th), th.task)
    ensures s.exec[th.task].state == Done ==> OutcomeWritten(s, th).exec[th.task].state == Done
  {
    hide WellFormed, TasksOk, ChainsOk, CancelledOk, ThreadsOk, LockOk;
    ThreadAt(c, s, th);
    TaskAt(c, s, th.task);
  }

  lemma WriteInv(c: Config, s: State, th: ThreadId)
    requires Inv(c, s) && RunEnabled(c, s, th, Write)
    ensures Inv(c, OutcomeWritten(s, th))
  {
    hide WellFormed, Good, TasksOk, ChainsOk, CancelledOk, ThreadsOk, LockOk;
    var s' := OutcomeWritten(s, th);
    WriteIsGood(c, s, th);
    LiveStepInv(c, s, s', th, s'.threads[th], s'.exec[th.task]);
  }

  lemma FlushInv(c: Config, s: State, th: ThreadId)
    requires Inv(c, s) && RunEnabled(c, s, th, Flush)
    ensures Inv(c, Flushed(s, th))
  {
    hide WellFormed;
    var s' := Flushed(s, th);
    assert ThreadOk(s, th) && Good(c, s, th.task);
    LiveStepInv(c, s, s', th, s'.threads[th], s'.exec[th.task]);
  }

  // ---------------------------------------------------------------------------------------------
  // Invalidations

  /** A thread that leaves its pass changes nothing else. */
  lemma LeaverStays(s: State, th: ThreadId)
    ensures AfterPass(s, th).exec == s.exec && AfterPass(s, th).lock == s.lock && AfterPass(s, th).accepted == s.accepted
    ensures AfterPass(s, th).signal == s.signal && AfterPass(s, th).timer == s.timer
    ensures AfterPass(s, th).cancelled == s.cancelled && OthersStay(s, AfterPass(s, th), th)
    ensures th in AfterPass(s, th).threads ==> th == Main && AfterPass(s, th).threads[th] == Waiting
  {}

  /** A step of a run moves that run only. */
  lemma RunLeavesOthers(c: Config, s: State, th: ThreadId, r: RunStep)
    requires s.exec.Keys == c.tasks && RunEnabled(c, s, th, r)
    ensures OthersStay(s, ApplyRun(c, s, th, r), th) && th in ApplyRun(c, s, th, r).threads
    ensures ApplyRun(c, s, th, r).lock == s.lock && ApplyRun(c, s, th, r).cancelled == s.cancelled
    ensures ApplyRun(c, s, th, r).signal == s.signal && ApplyRun(c, s, th, r).timer == s.timer
  {
    hide WellFormed, Marks, AddMarks, Cancelled, InvalidIn, MarkedTasks, Accepts;
  }

  /** Where a run goes from its keep-alive check. */
  function AfterCheck(c: Config, s: State, th: ThreadId, failed: bool): Phase
    requires s.exec.Keys == c.tasks && IsRun(c, s, th)
  {
    if KeptAliveSends(c, s, th) then Signalling(failed) else AfterKeepAlive(failed)
  }

  /** The phases of a run, in order. */
  lemma RunAdvances(c: Config, s: State, th: ThreadId, r: RunStep)
    requires s.exec.Keys == c.tasks && RunEnabled(c, s, th, r)
    ensures th in ApplyRun(c, s, th, r).threads
    ensures match r
      case Capture => s.threads[th] == Spawned && ApplyRun(c, s, th, r).threads[th].Body?
      case Decide(failed) =>
        s.threads[th].Body? && ApplyRun(c, s, th, r).threads[th].Decided? && ApplyRun(c, s, th, r).threads[th].failed == failed
      case Write => s.threads[th].Decided? && ApplyRun(c, s, th, r).threads[th] == Flushing(s.threads[th].failed)
      case Flush => s.threads[th].Flushing? && ApplyRun(c, s, th, r).threads[th] == KeepingAlive(s.threads[th].failed)
      case KeepAlive =>
        s.threads[th].KeepingAlive? && ApplyRun(c, s, th, r).threads[th] == AfterCheck(c, s, th, s.threads[th].failed)
  {
    hide WellFormed, Marks, AddMarks, Cancelled;
  }

  /** The phases that a step under the lock can lead to. */
  lemma LockAdvances(c: Config, s: State, th: ThreadId, act: LockStep)
    requires s.exec.Keys == c.tasks && LockEnabled(c, s, th, act)
    ensures forall u :: u in ApplyLock(c, s, th, act).threads ==>
      (u in s.threads && ApplyLock(c, s, th, act).threads[u] == s.threads[u]) || UnderLock(ApplyLock(c, s, th, act).threads[u])
  {
    hide WellFormed, Collect, Executable, Reset, Settle, Begun, AfterPass;
    if act.CheckLive? { LeaverStays(s, th); }
    if act.ReleasePass? { LeaverStays(s.(lock := Free), th); }
  }

  predicate UnderLock(ph: Phase) {
    ph.Planning? || ph.CheckPass? || ph.AwaitPass? || ph.Passing? || ph.Spawned? || ph.Waiting? || ph.Selecting?
  }

  lemma MarkedExecution(exec: map<Task, Execution>, marks: set<(Task, Event)>, t: Task)
    requires t in exec
    ensures AddMarks(exec, marks)[t] == exec[t].(pending := AddMarks(exec, marks)[t].pending)
    ensures (forall p :: p in marks ==> p.0 != t) ==> AddMarks(exec, marks)[t] == exec[t]
  {
    if forall p :: p in marks ==> p.0 != t {
      assert AddMarks(exec, marks)[t].pending == exec[t].pending;
    }
  }

  lemma MarkInv(c: Config, s: State, s': State, t: Task, e: Event)
    requires Inv(c, s) && t in c.tasks
    requires s' == s.(exec := AddMarks(s.exec, Marks(c, InvalidIn(s.exec), t, e)), accepted := s'.accepted)
    ensures Inv(c, s')
  {
    hide WellFormed, Marks, AddMarks, Good, TasksOk, ChainsOk, ThreadsOk, LockOk;
    forall u | u in c.tasks ensures s'.exec[u] == s.exec[u].(pending := s'.exec[u].pending) {
      MarkedExecution(s.exec, Marks(c, InvalidIn(s.exec), t, e), u);
    }
    InvalidUnmarked(c, s.exec, t, e);
    MarksAreGood(c, s, s');
    ChainsFrame(c, s, s');
    ThreadsKept(c, s, s');
  }

  lemma InvalidUnmarked(c: Config, exec: map<Task, Execution>, t: Task, e: Event)
    requires t in c.tasks
    ensures forall u :: u in exec && exec[u].state == Invalid ==>
      AddMarks(exec, Marks(c, InvalidIn(exec), t, e))[u].pending == exec[u].pending
  {
    hide WellFormed, Marks;
    var marks := Marks(c, InvalidIn(exec), t, e);
    forall u | u in exec && exec[u].state == Invalid ensures AddMarks(exec, marks)[u].pending == exec[u].pending {
      assert (set p | p in marks && p.0 == u :: p.1) == {};
    }
  }

  lemma MarksAreGood(c: Config, s: State, s': State)
    requires Inv(c, s) && s'.exec.Keys == s.exec.Keys == c.tasks && s'.threads == s.threads && s'.lock == s.lock
    requires s'.cancelled == s.cancelled
    requires forall u :: u in c.tasks ==> s'.exec[u] == s.exec[u].(pending := s'.exec[u].pending)
    requires forall u :: u in c.tasks && s.exec[u].state == Invalid ==> s'.exec[u].pending == s.exec[u].pending
    ensures TasksOk(c, s')
  {
    hide WellFormed, ChainsOk, CancelledOk, ThreadsOk, LockOk;
    forall u | u in c.tasks ensures Good(c, s', u) { assert Good(c, s, u); }
  }

  lemma ThreadsKept(c: Config, s: State, s': State)
    requires Inv(c, s) && s'.threads == s.threads && s'.lock == s.lock && s'.nextId == s.nextId
    requires s'.exec.Keys == s.exec.Keys && forall u :: u in s.exec ==> s'.exec[u].starts == s.exec[u].starts
    ensures ThreadsOk(s') && LockOk(c, s')
  {
    hide WellFormed, TasksOk, ChainsOk, CancelledOk;
    forall u | u in s'.threads ensures ThreadOk(s', u) && HoldsRightly(s', u) {
      assert ThreadOk(s, u) && HoldsRightly(s, u);
    }
  }

  lemma InvalidateInv(c: Config, s: State, t: Task, e: Event)
    requires Inv(c, s) && t in c.tasks
    ensures Inv(c, Invalidated(c, s, t, e))
  {
    hide WellFormed, Marks, AddMarks;
    if Accepts(c, s, t, e) {
      var s' := Invalidated(c, s, t, e);
      var s1 := s.(exec := s'.exec, accepted := s'.accepted);
      MarkInv(c, s, s1, t, e);
      SpawnInv(c, s1, s', Sender(s.nextId), Signalling(false));
    }
  }

  lemma KeepAliveInv(c: Config, s: State, th: ThreadId)
    requires Inv(c, s) && RunEnabled(c, s, th, KeepAlive)
    ensures Inv(c, KeptAlive(c, s, th))
  {
    hide WellFormed, Marks, AddMarks;
    var s' := KeptAlive(c, s, th);
    var s1 := s.(exec := s'.exec, accepted := s'.accepted);
    var t := th.task;
    if KeptAliveSends(c, s, th) {
      MarkInv(c, s, s1, t, KeepAliveStopped);
    }
    assert HoldsRightly(s1, th);
    MoveInv(c, s1, s', th, s'.threads[th]);
  }

  lemma SignalInv(c: Config, s: State, th: ThreadId)
    requires Inv(c, s) && Enabled(c, s, Signal(th))
    ensures Inv(c, SignalSent(s, th))
  {
    hide WellFormed;
    var s' := SignalSent(s, th);
    assert HoldsRightly(s, th) && ThreadOk(s, th);
    if th.Sender? {
      EndInv(c, s, s', th);
    } else {
      MoveInv(c, s, s', th, s'.threads[th]);
    }
  }

  // ---------------------------------------------------------------------------------------------
  // Plans

  /** The first half of a reset leaves its task in order, by (a) and (b). */
  lemma ResetIsGood(c: Config, s: State, s': State, t: Task)
    requires s.exec.Keys == c.tasks == s'.exec.Keys && t in c.tasks && Good(c, s, t) && !InReset(s, t)
    requires s.exec[t].state != Invalid && s.exec[t].state != Canceled
    requires s'.exec[t] == Reset(s.exec[t], t) && s'.cancelled == s.cancelled + {s.exec[t].ctx}
    requires InReset(s', t) && s'.threads == s.threads
    requires forall n :: RunOf(t, n) in s.threads ==>
      !s.threads[RunOf(t, n)].Spawned? && !s.threads[RunOf(t, n)].Decided?
    ensures Good(c, s', t)
  {}

  lemma EffectiveResetInv(c: Config, s: State, s': State, th: ThreadId, t: Task)
    requires Inv(c, s) && LockEnabled(c, s, th, BeginReset(t)) && Atomic(s, OfLock(th, BeginReset(t)))
    requires s.exec[t].state != Invalid && s.exec[t].state != Canceled && s' == ResetBegun(s, th, t)
    ensures Inv(c, s')
  {
    hide WellFormed, Good, TasksOk, ChainsOk, ThreadsOk, LockOk, Executable;
    ThreadAt(c, s, th);
    TaskAt(c, s, t);
    CtxIsOwn(c, s, t);
    ActiveHasStarted(c, s, t);
    LockBounds(c, s);
    ResetIsGood(c, s, s', t);
    TouchFrame(c, s, s', th, t);
    ChainsFrame(c, s, s');
    ThreadsFrame(s, s', th);
    LockFrame(c, s, s', th);
  }

  lemma ActiveHasStarted(c: Config, s: State, t: Task)
    requires s.exec.Keys == c.tasks && t in c.tasks && Good(c, s, t)
    requires s.exec[t].state != Invalid && s.exec[t].state != Canceled
    ensures s.exec[t].starts > 0
  {
    hide WellFormed, TraceOk, CtxOk;
  }

  lemma LockBounds(c: Config, s: State)
    requires Inv(c, s)
    ensures LockInBounds(c, s.lock)
  {
    hide WellFormed, TasksOk, ChainsOk, CancelledOk, ThreadsOk;
  }

  lemma BeginResetInv(c: Config, s: State, th: ThreadId, t: Task)
    requires Inv(c, s) && LockEnabled(c, s, th, BeginReset(t)) && Atomic(s, OfLock(th, BeginReset(t)))
    ensures Inv(c, ResetBegun(s, th, t))
  {
    hide WellFormed;
    var s' := ResetBegun(s, th, t);
    if s.exec[t].state == Invalid || s.exec[t].state == Canceled {
      assert HoldsRightly(s, th) && ThreadOk(s, th);
      assert s'.threads == s'.threads[th := Planning];
      MoveInv(c, s, s', th, Planning);
    } else {
      EffectiveResetInv(c, s, s', th, t);
    }
  }

  lemma EndResetIsGood(c: Config, s: State, th: ThreadId)
    requires Inv(c, s) && LockEnabled(c, s, th, EndReset)
    ensures Good(c, ResetEnded(s, th), s.lock.task)
  {
    hide WellFormed, TasksOk, ChainsOk, CancelledOk, ThreadsOk, LockOk;
    TaskAt(c, s, s.lock.task);
  }

  lemma EndResetInv(c: Config, s: State, th: ThreadId)
    requires Inv(c, s) && LockEnabled(c, s, th, EndReset)
    ensures Inv(c, ResetEnded(s, th))
  {
    hide WellFormed, Good, TasksOk, ChainsOk, ThreadsOk, LockOk, Executable;
    var s' := ResetEnded(s, th);
    ThreadAt(c, s, th);
    LockBounds(c, s);
    EndResetIsGood(c, s, th);
    TouchFrame(c, s, s', th, s.lock.task);
    ChainsFrame(c, s, s');
    ThreadsFrame(s, s', th);
    LockFrame(c, s, s', th);
  }

  lemma ReleasePlanInv(c: Config, s: State, th: ThreadId)
    requires Inv(c, s) && LockEnabled(c, s, th, ReleasePlan)
    ensures Inv(c, PlanReleased(s, th))
  {
    hide WellFormed;
    var s' := PlanReleased(s, th);
    assert HoldsRightly(s, th) && ThreadOk(s, th);
    if th.Loop? {
      var s1 := s.(lock := Free, threads := s.threads[Loop := Selecting]);
      MoveInv(c, s, s1, Loop, Selecting);
      SpawnInv(c, s1, s', Worker(s.nextId), CheckPass);
    } else {
      MoveInv(c, s, s', th, CheckPass);
    }
  }

  // ---------------------------------------------------------------------------------------------
  // Passes

  /** No task on its first context and not done has `t` further up its chain. */
  lemma StartChains(c: Config, s: State, s': State, t: Task)
    requires s.exec.Keys == c.tasks && ChainsOk(c, s) && t in c.tasks && Executable(c, s, t)
    requires s'.exec.Keys == c.tasks
    requires s'.exec == s.exec[t := s'.exec[t]] && s'.exec[t].resets == s.exec[t].resets
    ensures ChainsOk(c, s')
  {
    forall u | u in c.tasks ensures ChainOk(c, s', u) {
      assert ChainOk(c, s, u) && OriginOk(c, u);
    }
  }

  lemma NoLiveRun(c: Config, s: State, t: Task)
    requires Inv(c, s) && t in c.tasks && s.exec[t].state == Invalid && !InReset(s, t)
    ensures forall n :: RunOf(t, n) in s.threads ==> !Live(s.threads[RunOf(t, n)])
  {
    hide WellFormed, TasksOk, ChainsOk, CancelledOk, ThreadsOk, LockOk, TraceOk, CtxOk;
    TaskAt(c, s, t);
    forall n | RunOf(t, n) in s.threads ensures !Live(s.threads[RunOf(t, n)]) {
      ThreadAt(c, s, RunOf(t, n));
    }
  }

  lemma IsInvalid(c: Config, s: State, t: Task)
    requires s.exec.Keys == c.tasks && t in c.tasks && Executable(c, s, t)
    ensures s.exec[t].state == Invalid
  {
    hide WellFormed;
  }

  lemma StartIsGood(c: Config, s: State, s': State, th: ThreadId, t: Task)
    requires Inv(c, s) && s.lock.Passer? && s.lock.holder == th && t in c.tasks && Executable(c, s, t)
    requires s' == Start(s.(lock := Passer(th, s.lock.unvisited - {t})), t)
    ensures Good(c, s', t)
  {
    hide WellFormed, TasksOk, ChainsOk, CancelledOk, ThreadsOk, LockOk;
    TaskAt(c, s, t);
  }

  lemma StartInv(c: Config, s: State, s': State, th: ThreadId, t: Task)
    requires Inv(c, s) && s.lock.Passer? && s.lock.holder == th && t in c.tasks && Executable(c, s, t)
    requires s' == Start(s.(lock := Passer(th, s.lock.unvisited - {t})), t)
    ensures Inv(c, s')
  {
    hide WellFormed, Good, TasksOk, ThreadsOk, LockOk, Executable, RunIds;
    var run := RunOf(t, s.exec[t].starts);
    RunIsFresh(s, t);
    StartIsGood(c, s, s', th, t);
    assert s.exec[t].state == Invalid by { IsInvalid(c, s, t); }
    NoLiveRun(c, s, t);
    TouchFrame(c, s, s', run, t);
    StartChains(c, s, s', t);
    StartThreads(c, s, s', th, t);
    RunAdded(s.threads, run, Spawned);
  }

  /** A task's new run is a thread of its own, and the pass goes on. */
  lemma StartThreads(c: Config, s: State, s': State, th: ThreadId, t: Task)
    requires Inv(c, s) && s.lock.Passer? && s.lock.holder == th && t in c.tasks
    requires s' == Start(s.(lock := Passer(th, s.lock.unvisited - {t})), t)
    requires forall n :: RunOf(t, n) in s.threads ==> !Live(s.threads[RunOf(t, n)])
    ensures ThreadsOk(s') && LockOk(c, s')
  {
    hide WellFormed, Good, TasksOk, ChainsOk, CancelledOk, RunIds;
    RunIsFresh(s, t);
    forall u | u in s'.threads ensures ThreadOk(s', u) && HoldsRightly(s', u) {
      if u != RunOf(t, s.exec[t].starts) { ThreadAt(c, s, u); }
    }
  }

  lemma RunIsFresh(s: State, t: Task)
    requires ThreadsOk(s) && t in s.exec
    ensures RunOf(t, s.exec[t].starts) !in s.threads
  {
    forall u | u in s.threads ensures u != RunOf(t, s.exec[t].starts) {
      assert ThreadOk(s, u);
    }
  }

  lemma VisitInv(c: Config, s: State, th: ThreadId, t: Task)
    requires Inv(c, s) && LockEnabled(c, s, th, Visit(t))
    ensures Inv(c, Visited(c, s, th, t))
  {
    hide WellFormed;
    var s' := Visited(c, s, th, t);
    if Executable(c, s, t) {
      StartInv(c, s, s', th, t);
    } else {
      assert HoldsRightly(s, th) && ThreadOk(s, th);
      assert s'.threads == s'.threads[th := Passing];
      MoveInv(c, s, s', th, Passing);
    }
  }

  lemma AfterPassInv(c: Config, s: State, th: ThreadId)
    requires Inv(c, s) && th in s.threads && s.threads[th] == CheckPass
    ensures Inv(c, AfterPass(s, th))
  {
    hide WellFormed;
    assert HoldsRightly(s, th) && ThreadOk(s, th);
    if th.Main? {
      MoveInv(c, s, AfterPass(s, th), th, Waiting);
    } else {
      EndInv(c, s, AfterPass(s, th), th);
    }
  }

  lemma ReleasePassInv(c: Config, s: State, th: ThreadId)
    requires Inv(c, s) && LockEnabled(c, s, th, ReleasePass)
    ensures Inv(c, AfterPass(s.(lock := Free), th))
  {
    hide WellFormed;
    assert HoldsRightly(s, th) && ThreadOk(s, th);
    var s1 := s.(lock := Free, threads := s.threads[th := CheckPass]);
    MoveInv(c, s, s1, th, CheckPass);
    AfterPassInv(c, s1, th);
    assert s.threads - {th} == s1.threads - {th};
    assert s.threads[th := Waiting] == s1.threads[th := Waiting];
  }

  // ---------------------------------------------------------------------------------------------
  // All steps

  lemma ShutdownInv(c: Config, s: State)
    requires Inv(c, s)
    ensures Inv(c, s.(cancelled := s.cancelled + {Root}))
  {
    hide WellFormed;
    var s' := s.(cancelled := s.cancelled + {Root});
    forall t | t in c.tasks ensures Good(c, s', t) {
      assert Good(c, s, t);
      GoodFrame(c, s, s', t);
    }
    ChainsFrame(c, s, s');
    forall u | u in s'.threads ensures ThreadOk(s', u) && HoldsRightly(s', u) {
      assert ThreadOk(s, u) && HoldsRightly(s, u);
    }
  }

  lemma LoopInv(c: Config, s: State, l: LoopStep)
    requires Inv(c, s) && LoopEnabled(s, l)
    ensures Inv(c, ApplyLoop(s, l))
  {
    hide WellFormed;
    var s' := ApplyLoop(s, l);
    assert HoldsRightly(s, Loop);
    assert l == Receive ==> s'.threads == s'.threads[Loop := Selecting];
    MoveInv(c, s, s', Loop, s'.threads[Loop]);
  }

  lemma ShortLockInv(c: Config, s: State, th: ThreadId, act: LockStep)
    requires Inv(c, s) && LockEnabled(c, s, th, act) && (act.AcquirePlan? || act.CheckLive? || act.AcquirePass?)
    ensures Inv(c, ApplyLock(c, s, th, act))
  {
    hide WellFormed, TasksOk, ChainsOk, CancelledOk, ThreadsOk, LockOk, Executable;
    var s' := ApplyLock(c, s, th, act);
    ThreadAt(c, s, th);
    match act
    case AcquirePlan => MoveInv(c, s, s', th, Planning);
    case AcquirePass => MoveInv(c, s, s', th, Passing);
    case CheckLive => if Root in s.cancelled { AfterPassInv(c, s, th); } else { MoveInv(c, s, s', th, AwaitPass); }
  }

  lemma LockStepInv(c: Config, s: State, th: ThreadId, act: LockStep)
    requires Inv(c, s) && LockEnabled(c, s, th, act) && Atomic(s, OfLock(th, act))
    ensures Inv(c, ApplyLock(c, s, th, act))
  {
    hide WellFormed, Inv, Atomic, ResetBegun, ResetEnded, PlanReleased, Visited, AfterPass, Collect;
    InvKeys(c, s);
    match act
    case BeginReset(t) => BeginResetInv(c, s, th, t);
    case EndReset => EndResetInv(c, s, th);
    case ReleasePlan => ReleasePlanInv(c, s, th);
    case Visit(t) => VisitInv(c, s, th, t);
    case ReleasePass => ReleasePassInv(c, s, th);
    case AcquirePlan => ShortLockInv(c, s, th, act);
    case AcquirePass => ShortLockInv(c, s, th, act);
    case CheckLive => ShortLockInv(c, s, th, act);
  }

  lemma RunStepInv(c: Config, s: State, th: ThreadId, r: RunStep)
    requires Inv(c, s) && RunEnabled(c, s, th, r)
    ensures Inv(c, ApplyRun(c, s, th, r))
  {
    match r
    case Capture => CaptureInv(c, s, th);
    case Decide(failed) => DecideInv(c, s, th, failed);
    case Write => WriteInv(c, s, th);
    case Flush => FlushInv(c, s, th);
    case KeepAlive => KeepAliveInv(c, s, th);
  }

  lemma StepInv(c: Config, s: State, step: Step)
    requires Inv(c, s) && Enabled(c, s, step) && Atomic(s, step)
    ensures Inv(c, Apply(c, s, step))
  {
    match step
    case Shutdown => ShutdownInv(c, s);
    case Invalidate(t, e) => InvalidateInv(c, s, t, e);
    case HandlerInvalidate(t, e) => MarkInv(c, s, Mark(c, s, t, e), t, e);
    case Signal(th) => SignalInv(c, s, th);
    case MainReturn =>
      assert HoldsRightly(s, Main);
      MoveInv(c, s, Apply(c, s, step), Main, Returned);
    case OfLoop(l) => LoopInv(c, s, l);
    case OfLock(th, act) => LockStepInv(c, s, th, act);
    case OfRun(th, r) => RunStepInv(c, s, th, r);
  }

  lemma {:induction false} RunInv(c: Config, s: State, steps: seq<Step>)
    requires Inv(c, s) && IsRunFrom(c, s, steps)
    ensures Inv(c, After(c, s, steps))
    decreases |steps|
  {
    if steps != [] {
      StepInv(c, s, steps[0]);
      RunInv(c, Apply(c, s, steps[0]), steps[1..]);
    }
  }
}
