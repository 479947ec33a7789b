/** No wakeup is lost: an executable task always has a pass coming, and an accepted invalidation always has
    a plan coming. */
module Wakeup {
  import opened Tasks
  import opened Machine
  import opened Invariant
  import opened Preservation
  import opened Safety

  /** The thread has finished its task's body, or has none, and a pass is still ahead of it. */
  predicate OwesPass(th: ThreadId, ph: Phase) {
    match ph
    case Flushing(_) => true
    case KeepingAlive(_) => true
    case Signalling(_) => th.RunOf?
    case AwaitPlan => true
    case Planning => true
    case CheckPass => true
    case AwaitPass => true
    case _ => false
  }

  ghost predicate PassOwed(s: State) {
    exists th :: th in s.threads && OwesPass(th, s.threads[th])
  }

  predicate PassPending(s: State, t: Task) {
    s.lock.Passer? && t in s.lock.unvisited
  }

  /** A plan is about to be made, or the present one has yet to deal with `t`. */
  ghost predicate PlanComing(s: State, t: Task) {
    || s.signal || s.timer
    || Collected(s, t) || InReset(s, t)
    || exists th :: th in s.threads && (s.threads[th].Signalling? || s.threads[th] == AwaitPlan)
  }

  predicate LoopAlive(s: State) {
    Root !in s.cancelled ==> !At(s, Loop, LoopExited)
  }

  ghost predicate PassInv(c: Config, s: State)
    requires s.exec.Keys == c.tasks
  {
    Root !in s.cancelled ==>
      forall t {:trigger Executable(c, s, t)} :: t in c.tasks && Executable(c, s, t) ==> PassOwed(s) || PassPending(s, t)
  }

  ghost predicate PlanInv(c: Config, s: State)
    requires s.exec.Keys == c.tasks
  {
    forall t {:trigger PlanComing(s, t)} :: t in c.tasks && t in s.accepted ==>
      && s.exec[t].pending != {}
      && (s.exec[t].state != Canceled ==> PlanComing(s, t))
  }

  ghost predicate WakeInv(c: Config, s: State) {
    Inv(c, s) && LoopAlive(s) && s.accepted <= c.tasks && PassInv(c, s) && PlanInv(c, s)
  }

  // ---------------------------------------------------------------------------------------------
  // Passes

  ghost predicate SameStates(s: State, s': State) {
    s'.exec.Keys == s.exec.Keys && forall t :: t in s.exec ==> s'.exec[t].state == s.exec[t].state
  }

  lemma SameExecutable(c: Config, s: State, s': State, t: Task)
    requires s.exec.Keys == c.tasks && SameStates(s, s') && t in c.tasks
    ensures Executable(c, s', t) == Executable(c, s, t)
  {
    hide WellFormed;
    BelowIsInside(c, t);
  }

  /** No task becomes executable, no thread stops owing a pass, and no pass in progress changes. */
  lemma PassKept(c: Config, s: State, s': State)
    requires s.exec.Keys == c.tasks && PassInv(c, s) && SameStates(s, s')
    requires s.cancelled <= s'.cancelled
    requires PassOwed(s) ==> PassOwed(s') || Root in s'.cancelled
    requires s.lock.Passer? ==> s'.lock == s.lock || (s.lock.unvisited == {})
    ensures PassInv(c, s')
  {
    if Root !in s'.cancelled {
      forall t | t in c.tasks && Executable(c, s', t) ensures PassOwed(s') || PassPending(s', t) {
        SameExecutable(c, s, s', t);
      }
    }
  }

  lemma StillOwed(s: State, s': State, th: ThreadId)
    requires OthersStay(s, s', th) && PassOwed(s)
    requires th in s.threads && OwesPass(th, s.threads[th]) ==> th in s'.threads && OwesPass(th, s'.threads[th])
    ensures PassOwed(s')
  {
    var u :| u in s.threads && OwesPass(u, s.threads[u]);
    assert u in s'.threads && OwesPass(u, s'.threads[u]);
  }

  lemma WritePass(c: Config, s: State, th: ThreadId)
    requires s.exec.Keys == c.tasks && RunEnabled(c, s, th, Write)
    ensures PassInv(c, OutcomeWritten(s, th))
  {
    hide WellFormed, PassInv, Executable, Written;
    HolderOwes(c, OutcomeWritten(s, th), th);
  }

  /** A step of a run other than the state write leaves the lock and the other threads alone, and owes no less. */
  lemma RunStepOwes(c: Config, s: State, th: ThreadId, r: RunStep)
    requires s.exec.Keys == c.tasks && RunEnabled(c, s, th, r) && r != Write
    ensures var s' := ApplyRun(c, s, th, r);
      && OthersStay(s, s', th) && th in s'.threads && s'.lock == s.lock && s'.cancelled == s.cancelled
      && (OwesPass(th, s.threads[th]) ==> OwesPass(th, s'.threads[th]))
  {
    hide WellFormed, Marks, AddMarks, OthersStay, Cancelled;
    RunLeavesOthers(c, s, th, r);
  }

  lemma RunStepPass(c: Config, s: State, th: ThreadId, r: RunStep)
    requires WakeInv(c, s) && RunEnabled(c, s, th, r)
    ensures PassInv(c, ApplyRun(c, s, th, r))
  {
    hide WellFormed, PlanInv, PassInv, Inv, RunEnabled, Captured, Flushed, KeptAlive, OutcomeWritten, OwesPass, Executable;
    InvKeys(c, s);
    var s' := ApplyRun(c, s, th, r);
    if r == Write {
      WritePass(c, s, th);
    } else {
      forall t | t in c.tasks ensures s'.exec[t].state == s.exec[t].state {
        RunStepEffect(c, s, th, r, t);
      }
      RunStepOwes(c, s, th, r);
      if PassOwed(s) { StillOwed(s, s', th); }
      PassKept(c, s, s');
    }
  }

  lemma VisitPass(c: Config, s: State, th: ThreadId, u: Task)
    requires WakeInv(c, s) && LockEnabled(c, s, th, Visit(u))
    ensures PassInv(c, Visited(c, s, th, u))
  {
    hide WellFormed, Inv, PlanInv, Executable, Start;
    InvKeys(c, s);
    var s' := Visited(c, s, th, u);
    VisitAddsRun(c, s, th, u);
    if PassOwed(s) { StillOwed(s, s', RunOf(u, s.exec[u].starts)); }
    if Root !in s'.cancelled {
      forall t | t in c.tasks && Executable(c, s', t) ensures PassOwed(s') || PassPending(s', t) {
        VisitMakesNoneExecutable(c, s, th, u, t);
        VisitPending(c, s, th, u, t);
      }
    }
  }

  lemma VisitPending(c: Config, s: State, th: ThreadId, u: Task, t: Task)
    requires s.exec.Keys == c.tasks && LockEnabled(c, s, th, Visit(u)) && t != u
    ensures PassPending(s, t) <==> PassPending(Visited(c, s, th, u), t)
    ensures Visited(c, s, th, u).cancelled == s.cancelled
  {
    hide WellFormed, Executable;
  }

  lemma VisitMakesNoneExecutable(c: Config, s: State, th: ThreadId, u: Task, t: Task)
    requires s.exec.Keys == c.tasks && LockEnabled(c, s, th, Visit(u)) && t in c.tasks
    requires Executable(c, Visited(c, s, th, u), t)
    ensures t != u && Executable(c, s, t)
  {
    hide WellFormed;
    BelowIsInside(c, t);
    var s' := Visited(c, s, th, u);
    assert s'.exec[t].state == Invalid;
    forall d | d in c.below[t] ensures s.exec[d].state == Done {
      assert s'.exec[d].state == Done;
    }
    assert Executable(c, s, t);
  }

  lemma HolderOwes(c: Config, s: State, th: ThreadId)
    requires s.exec.Keys == c.tasks && th in s.threads && OwesPass(th, s.threads[th])
    ensures PassInv(c, s)
  {
    hide WellFormed, Executable;
  }

  lemma PassTaken(c: Config, s: State)
    requires s.exec.Keys == c.tasks && s.lock.Passer? && s.lock.unvisited == c.tasks
    ensures PassInv(c, s)
  {
    hide WellFormed, Executable;
  }

  lemma QuietLockPass(c: Config, s: State, th: ThreadId, act: LockStep)
    requires WakeInv(c, s) && LockEnabled(c, s, th, act)
    requires act.AcquirePlan? || act.EndReset? || act.CheckLive? || act.ReleasePass?
    ensures PassInv(c, ApplyLock(c, s, th, act))
  {
    hide WellFormed, PlanInv, PassInv, TasksOk, ChainsOk, CancelledOk, ThreadsOk, LockOk, Collect, Executable, AfterPass;
    var s' := ApplyLock(c, s, th, act);
    ThreadAt(c, s, th);
    if act.ReleasePass? { LeaverStays(s.(lock := Free), th); }
    if act.CheckLive? { LeaverStays(s, th); }
    if PassOwed(s) && Root !in s'.cancelled { StillOwed(s, s', th); }
    PassKept(c, s, s');
  }

  lemma BeginResetPass(c: Config, s: State, th: ThreadId, t: Task)
    requires Inv(c, s) && LockEnabled(c, s, th, BeginReset(t))
    ensures PassInv(c, ResetBegun(s, th, t))
  {
    hide WellFormed, PassInv, TasksOk, ChainsOk, CancelledOk, ThreadsOk, LockOk, Reset, Executable;
    ThreadAt(c, s, th);
    HolderOwes(c, ResetBegun(s, th, t), th);
  }

  lemma ReleasePlanPass(c: Config, s: State, th: ThreadId)
    requires Inv(c, s) && LockEnabled(c, s, th, ReleasePlan)
    ensures PassInv(c, PlanReleased(s, th))
  {
    hide WellFormed, PassInv, TasksOk, ChainsOk, CancelledOk, ThreadsOk, LockOk, Executable;
    HolderOwes(c, PlanReleased(s, th), if th.Loop? then Worker(s.nextId) else th);
  }

  lemma LockStepPass(c: Config, s: State, th: ThreadId, act: LockStep)
    requires WakeInv(c, s) && LockEnabled(c, s, th, act)
    ensures PassInv(c, ApplyLock(c, s, th, act))
  {
    hide WellFormed, PlanInv, PassInv, Inv, ResetBegun, ResetEnded, PlanReleased, Visited, AfterPass, Collect;
    InvKeys(c, s);
    match act
    case BeginReset(t) => BeginResetPass(c, s, th, t);
    case Visit(t) => VisitPass(c, s, th, t);
    case AcquirePass => PassTaken(c, ApplyLock(c, s, th, act));
    case ReleasePlan => ReleasePlanPass(c, s, th);
    case AcquirePlan => QuietLockPass(c, s, th, act);
    case EndReset => QuietLockPass(c, s, th, act);
    case CheckLive => QuietLockPass(c, s, th, act);
    case ReleasePass => QuietLockPass(c, s, th, act);
  }

  /** The thread that moves in a step that is neither a run's nor under the lock. */
  function Mover(s: State, step: Step): ThreadId {
    match step
    case Invalidate(_, _) => Sender(s.nextId)
    case Signal(th) => th
    case MainReturn => Main
    case _ => Loop
  }

  lemma MoverMoves(c: Config, s: State, step: Step)
    requires s.exec.Keys == c.tasks && ThreadsOk(s) && Enabled(c, s, step) && !step.OfLock? && !step.OfRun?
    ensures var s', th := Apply(c, s, step), Mover(s, step);
      && OthersStay(s, s', th) && s'.lock == s.lock && s.cancelled <= s'.cancelled
      && (th in s.threads && OwesPass(th, s.threads[th]) ==> th in s'.threads && OwesPass(th, s'.threads[th]))
  {
    hide WellFormed, ThreadsOk, ThreadOk, Invalidated, SignalSent, MarkAndSignal, Marks, AddMarks, OwesPass;
    hide ApplyLoop, LoopEnabled;
    match step
    case Invalidate(t, e) => InvalidateMoves(c, s, t, e);
    case Signal(th) => SignalMoves(s, th);
    case OfLoop(l) => LoopMoves(s, l);
    case Shutdown =>
    case HandlerInvalidate(_, _) =>
    case MainReturn => assert !OwesPass(Main, Waiting) by { WaitingOwesNothing(); }
  }

  lemma LoopMoves(s: State, l: LoopStep)
    requires LoopEnabled(s, l)
    ensures OthersStay(s, ApplyLoop(s, l), Loop) && ApplyLoop(s, l).lock == s.lock
    ensures ApplyLoop(s, l).cancelled == s.cancelled && !OwesPass(Loop, s.threads[Loop])
  {}

  lemma WaitingOwesNothing()
    ensures !OwesPass(Main, Waiting)
  {}

  lemma SignalMoves(s: State, th: ThreadId)
    requires ThreadsOk(s) && th in s.threads && s.threads[th].Signalling?
    ensures var s' := SignalSent(s, th);
      && OthersStay(s, s', th) && s'.lock == s.lock && s'.cancelled == s.cancelled
      && (OwesPass(th, s.threads[th]) ==> th in s'.threads && OwesPass(th, s'.threads[th]))
  {
    hide ThreadsOk;
    ThreadsAre(s, th);
  }

  lemma ThreadsAre(s: State, th: ThreadId)
    requires ThreadsOk(s) && th in s.threads
    ensures ThreadOk(s, th)
  {}

  lemma InvalidateMoves(c: Config, s: State, t: Task, e: Event)
    requires s.exec.Keys == c.tasks && ThreadsOk(s) && t in c.tasks
    ensures var s', th := Invalidated(c, s, t, e), Sender(s.nextId);
      OthersStay(s, s', th) && s'.lock == s.lock && s'.cancelled == s.cancelled && th !in s.threads
  {
    hide WellFormed, ThreadsOk, Marks, AddMarks, MarkedTasks, Accepts, InvalidIn;
    IdsAreFresh(s);
  }

  lemma OtherStepPass(c: Config, s: State, step: Step)
    requires WakeInv(c, s) && Enabled(c, s, step) && !step.OfLock? && !step.OfRun?
    ensures PassInv(c, Apply(c, s, step))
  {
    hide WellFormed, PlanInv, TasksOk, ChainsOk, LockOk, CancelledOk, Marks, AddMarks;
    var s' := Apply(c, s, step);
    forall t | t in c.tasks ensures s'.exec[t].state == s.exec[t].state {
      MarkEffect(c, s, step, t);
    }
    MoverMoves(c, s, step);
    hide Apply, Enabled, ThreadsOk, PassInv;
    if PassOwed(s) { StillOwed(s, s', Mover(s, step)); }
    PassKept(c, s, s');
  }

  lemma StepPass(c: Config, s: State, step: Step)
    requires WakeInv(c, s) && Enabled(c, s, step)
    ensures PassInv(c, Apply(c, s, step))
  {
    hide WellFormed, WakeInv, PassInv, ApplyRun, ApplyLock;
    match step
    case OfRun(th, r) => RunStepPass(c, s, th, r);
    case OfLock(th, act) => LockStepPass(c, s, th, act);
    case _ => OtherStepPass(c, s, step);
  }

  // ---------------------------------------------------------------------------------------------
  // Plans

  ghost predicate CallWaits(s: State) {
    exists th :: th in s.threads && (s.threads[th].Signalling? || s.threads[th] == AwaitPlan)
  }

  lemma StillWaits(s: State, s': State, th: ThreadId)
    requires OthersStay(s, s', th) && CallWaits(s)
    requires th in s.threads && (s.threads[th].Signalling? || s.threads[th] == AwaitPlan) ==>
      s'.signal || (th in s'.threads && (s'.threads[th].Signalling? || s'.threads[th] == AwaitPlan))
    ensures CallWaits(s') || s'.signal
  {
    var u :| u in s.threads && (s.threads[u].Signalling? || s.threads[u] == AwaitPlan);
    if u != th {
      assert u in s'.threads && (s'.threads[u].Signalling? || s'.threads[u] == AwaitPlan);
    }
  }

  /** Nothing new is accepted, and whatever announced a plan still does. */
  lemma PlanKept(c: Config, s: State, s': State)
    requires s.exec.Keys == c.tasks == s'.exec.Keys && PlanInv(c, s) && s'.accepted == s.accepted
    requires forall t :: t in c.tasks ==>
      && s.exec[t].pending <= s'.exec[t].pending
      && (s.exec[t].state == Canceled ==> s'.exec[t].state == Canceled)
      && (Collected(s, t) ==> Collected(s', t)) && (InReset(s, t) ==> InReset(s', t))
    requires s.signal || s.timer || CallWaits(s) ==> s'.signal || s'.timer || CallWaits(s')
    ensures PlanInv(c, s')
  {
    forall t | t in c.tasks && t in s'.accepted
      ensures s'.exec[t].pending != {} && (s'.exec[t].state != Canceled ==> PlanComing(s', t))
    {
      if s'.exec[t].state != Canceled { assert PlanComing(s, t); }
      assert PlanComing(s, t) || !PlanComing(s, t);
    }
  }

  lemma MarkedPending(c: Config, s: State, t: Task, e: Event, u: Task)
    requires s.exec.Keys == c.tasks && t in c.tasks && u in c.tasks
    ensures var marks := Marks(c, InvalidIn(s.exec), t, e);
      && s.exec[u].pending <= AddMarks(s.exec, marks)[u].pending
      && (u in MarkedTasks(marks) ==> AddMarks(s.exec, marks)[u].pending != {})
  {
    hide WellFormed, Marks;
    var marks := Marks(c, InvalidIn(s.exec), t, e);
    if u in MarkedTasks(marks) {
      var p :| p in marks && p.0 == u;
      assert p.1 in AddMarks(s.exec, marks)[u].pending;
    }
  }

  lemma AcceptedPlan(c: Config, s: State, t: Task, e: Event, th: ThreadId)
    requires WakeInv(c, s) && t in c.tasks
    ensures PlanInv(c, MarkAndSignal(c, s, t, e, th, Signalling(false)))
    ensures forall failed :: PlanInv(c, MarkAndSignal(c, s, t, e, th, Signalling(failed)))
  {
    hide WellFormed, Marks, AddMarks, TasksOk, ChainsOk, LockOk, CancelledOk, ThreadsOk, PassInv;
    forall failed ensures PlanInv(c, MarkAndSignal(c, s, t, e, th, Signalling(failed))) {
      var s' := MarkAndSignal(c, s, t, e, th, Signalling(failed));
      assert s'.threads[th].Signalling?;
      forall u | u in c.tasks && u in s'.accepted ensures s'.exec[u].pending != {} && PlanComing(s', u) {
        MarkedPending(c, s, t, e, u);
        assert PlanComing(s, u) || !PlanComing(s, u);
      }
    }
  }

  predicate KeepAliveAccepted(c: Config, s: State, th: ThreadId, r: RunStep)
    requires s.exec.Keys == c.tasks && RunEnabled(c, s, th, r)
  {
    r == KeepAlive && KeptAliveSends(c, s, th)
  }

  /** A run's step that accepts no invalidation announces no plan and takes none back. */
  lemma QuietRunStep(c: Config, s: State, th: ThreadId, r: RunStep)
    requires s.exec.Keys == c.tasks && RunEnabled(c, s, th, r) && !KeepAliveAccepted(c, s, th, r)
    ensures var s' := ApplyRun(c, s, th, r);
      && s'.accepted == s.accepted && s'.lock == s.lock && s'.signal == s.signal && s'.timer == s.timer
      && OthersStay(s, s', th) && th in s'.threads
      && !s.threads[th].Signalling? && s.threads[th] != AwaitPlan
      && forall t :: t in c.tasks ==> s'.exec[t].pending == s.exec[t].pending
  {
    hide WellFormed, Marks, OthersStay, Cancelled;
    RunLeavesOthers(c, s, th, r);
    match r
    case KeepAlive => assert ApplyRun(c, s, th, r) == s.(threads := s.threads[th := AfterKeepAlive(s.threads[th].failed)]);
    case _ =>
  }

  lemma KeepAlivePlan(c: Config, s: State, th: ThreadId, r: RunStep)
    requires WakeInv(c, s) && RunEnabled(c, s, th, r) && KeepAliveAccepted(c, s, th, r)
    ensures PlanInv(c, ApplyRun(c, s, th, r))
  {
    hide WellFormed, Marks, AddMarks, WakeInv, PlanInv;
    AcceptedPlan(c, s, th.task, KeepAliveStopped, th);
  }

  lemma RunStepPlan(c: Config, s: State, th: ThreadId, r: RunStep)
    requires WakeInv(c, s) && RunEnabled(c, s, th, r)
    ensures PlanInv(c, ApplyRun(c, s, th, r))
  {
    hide WellFormed, Marks, AddMarks, ChainsOk, LockOk, CancelledOk, PassInv, PlanInv, TasksOk, ThreadsOk, ApplyRun, RunEnabled;
    var s' := ApplyRun(c, s, th, r);
    if KeepAliveAccepted(c, s, th, r) {
      KeepAlivePlan(c, s, th, r);
    } else {
      QuietRunStep(c, s, th, r);
      forall t | t in c.tasks && s.exec[t].state == Canceled ensures s'.exec[t].state == Canceled {
        CanceledRunStays(c, s, th, r, t);
      }
      if CallWaits(s) { StillWaits(s, s', th); }
      PlanKept(c, s, s');
    }
  }

  /** What the steps around the visits of a pass do. */
  lemma PassStepShape(c: Config, s: State, th: ThreadId, act: LockStep)
    requires Inv(c, s) && LockEnabled(c, s, th, act) && (act.CheckLive? || act.AcquirePass? || act.ReleasePass?)
    ensures var s' := ApplyLock(c, s, th, act);
      && OthersStay(s, s', th) && s'.exec == s.exec && s'.accepted == s.accepted
      && s'.signal == s.signal && s'.timer == s.timer
      && !s.threads[th].Signalling? && s.threads[th] != AwaitPlan
      && (forall t :: !Collected(s, t) || Collected(s', t)) && (forall t :: !InReset(s, t) || InReset(s', t))
  {
    hide WellFormed, Inv, AfterPass, PhaseOk, ApplyLock, Collected, InReset;
    InvKeys(c, s);
    ThreadAt(c, s, th);
    PassStepMoves(c, s, th, act);
    PassStepOthers(c, s, th, act);
    PassKeepsPlans(s, ApplyLock(c, s, th, act));
  }

  /** A step between two locks of which neither is a plan's takes no task out of a plan. */
  lemma PassKeepsPlans(s: State, s': State)
    requires s'.lock == s.lock || !(s.lock.Planner? || s.lock.Resetter?)
    ensures forall t :: !Collected(s, t) || Collected(s', t)
    ensures forall t :: !InReset(s, t) || InReset(s', t)
  {}

  lemma PassStepMoves(c: Config, s: State, th: ThreadId, act: LockStep)
    requires s.exec.Keys == c.tasks && LockEnabled(c, s, th, act) && (act.CheckLive? || act.AcquirePass? || act.ReleasePass?)
    ensures ApplyLock(c, s, th, act).exec == s.exec && ApplyLock(c, s, th, act).accepted == s.accepted
    ensures ApplyLock(c, s, th, act).signal == s.signal && ApplyLock(c, s, th, act).timer == s.timer
    ensures ApplyLock(c, s, th, act).lock == s.lock || !(s.lock.Planner? || s.lock.Resetter?)
  {
    hide WellFormed, AfterPass;
    if act.CheckLive? { LeaverStays(s, th); }
    if act.ReleasePass? { LeaverStays(s.(lock := Free), th); }
  }

  lemma PassStepOthers(c: Config, s: State, th: ThreadId, act: LockStep)
    requires s.exec.Keys == c.tasks && LockEnabled(c, s, th, act) && (act.CheckLive? || act.AcquirePass? || act.ReleasePass?)
    ensures OthersStay(s, ApplyLock(c, s, th, act), th)
  {
    hide WellFormed, AfterPass;
    if act.CheckLive? { LeaverStays(s, th); }
    if act.ReleasePass? { LeaverStays(s.(lock := Free), th); }
  }

  lemma PassStepPlan(c: Config, s: State, th: ThreadId, act: LockStep)
    requires WakeInv(c, s) && LockEnabled(c, s, th, act) && (act.CheckLive? || act.AcquirePass? || act.ReleasePass?)
    ensures PlanInv(c, ApplyLock(c, s, th, act))
  {
    hide WellFormed, Inv, PassInv, PlanInv, ApplyLock, LockEnabled, Collected, InReset;
    InvKeys(c, s);
    PassStepShape(c, s, th, act);
    var s' := ApplyLock(c, s, th, act);
    if CallWaits(s) { StillWaits(s, s', th); }
    PlanKept(c, s, s');
  }

  lemma LockStepPlan(c: Config, s: State, th: ThreadId, act: LockStep)
    requires WakeInv(c, s) && LockEnabled(c, s, th, act)
    ensures PlanInv(c, ApplyLock(c, s, th, act))
  {
    hide WellFormed, PassInv, PlanInv, TasksOk, ChainsOk, LockOk, CancelledOk, ThreadsOk;
    match act
    case AcquirePlan => AcquirePlanPlan(c, s, th);
    case BeginReset(t) => ResetPlan(c, s, ResetBegun(s, th, t), th);
    case EndReset => ResetPlan(c, s, ResetEnded(s, th), th);
    case Visit(t) => VisitPlan(c, s, th, t);
    case ReleasePlan => ReleasePlanPlan(c, s, th);
    case _ => PassStepPlan(c, s, th, act);
  }

  lemma ReleasePlanPlan(c: Config, s: State, th: ThreadId)
    requires WakeInv(c, s) && LockEnabled(c, s, th, ReleasePlan)
    ensures PlanInv(c, PlanReleased(s, th))
  {
    hide WellFormed, ChainsOk, CancelledOk, PassInv, PlanInv, TasksOk, ThreadsOk, LockOk, Collected, InReset;
    var s' := PlanReleased(s, th);
    ThreadAt(c, s, th);
    NoneCollected(s, th);
    IdsAreFresh(s);
    var mid := s.(threads := s.threads[th := if th.Loop? then Selecting else CheckPass]);
    if CallWaits(s) {
      StillWaits(s, mid, th);
      StillWaits(mid, s', Worker(s.nextId));
    }
    PlanKept(c, s, s');
  }

  lemma NoneCollected(s: State, th: ThreadId)
    requires s.lock == Planner(th, {})
    ensures forall t :: !Collected(s, t) && !InReset(s, t)
  {}

  lemma VisitPlan(c: Config, s: State, th: ThreadId, t: Task)
    requires WakeInv(c, s) && LockEnabled(c, s, th, Visit(t))
    ensures PlanInv(c, Visited(c, s, th, t))
  {
    hide WellFormed, Inv, PassInv, PlanInv, Visited;
    InvKeys(c, s);
    var s' := Visited(c, s, th, t);
    VisitAddsRun(c, s, th, t);
    VisitKeepsPending(c, s, th, t);
    if CallWaits(s) { StillWaits(s, s', RunOf(t, s.exec[t].starts)); }
    PlanKept(c, s, s');
  }

  lemma VisitKeepsPending(c: Config, s: State, th: ThreadId, t: Task)
    requires s.exec.Keys == c.tasks && LockEnabled(c, s, th, Visit(t))
    ensures Visited(c, s, th, t).accepted == s.accepted && Visited(c, s, th, t).signal == s.signal
    ensures Visited(c, s, th, t).timer == s.timer && s.lock.Passer?
    ensures forall u :: u in c.tasks ==> Visited(c, s, th, t).exec[u].pending == s.exec[u].pending
    ensures forall u :: u in c.tasks && s.exec[u].state == Canceled ==> Visited(c, s, th, t).exec[u].state == Canceled
  {
    hide WellFormed;
  }

  lemma VisitAddsRun(c: Config, s: State, th: ThreadId, t: Task)
    requires Inv(c, s) && s.exec.Keys == c.tasks && LockEnabled(c, s, th, Visit(t))
    ensures RunOf(t, s.exec[t].starts) !in s.threads
    ensures OthersStay(s, Visited(c, s, th, t), RunOf(t, s.exec[t].starts))
  {
    hide WellFormed, ChainsOk, CancelledOk, TasksOk, LockOk, ThreadsOk, Executable;
    RunIsFresh(s, t);
  }

  lemma AcquirePlanPlan(c: Config, s: State, th: ThreadId)
    requires WakeInv(c, s) && LockEnabled(c, s, th, AcquirePlan)
    ensures PlanInv(c, ApplyLock(c, s, th, AcquirePlan))
  {
    hide WellFormed, ChainsOk, CancelledOk, PassInv;
    var s' := ApplyLock(c, s, th, AcquirePlan);
    forall t | t in c.tasks && t in s'.accepted ensures s'.exec[t].pending != {} && PlanComing(s', t) {
      assert Good(c, s, t);
      assert PlanComing(s, t) || !PlanComing(s, t);
      assert Collected(s', t);
    }
  }

  lemma ResetPlan(c: Config, s: State, s': State, th: ThreadId)
    requires WakeInv(c, s) && s'.exec.Keys == c.tasks
    requires (exists t :: LockEnabled(c, s, th, BeginReset(t)) && s' == ResetBegun(s, th, t))
          || (LockEnabled(c, s, th, EndReset) && s' == ResetEnded(s, th))
    ensures PlanInv(c, s')
  {
    hide WellFormed, PassInv, PlanInv, Inv;
    InvKeys(c, s);
    if LockEnabled(c, s, th, EndReset) && s' == ResetEnded(s, th) {
      EndResetPlan(c, s, th);
    } else {
      var t :| LockEnabled(c, s, th, BeginReset(t)) && s' == ResetBegun(s, th, t);
      BeginResetPlan(c, s, th, t);
    }
  }

  lemma EndResetPlan(c: Config, s: State, th: ThreadId)
    requires WakeInv(c, s) && LockEnabled(c, s, th, EndReset)
    ensures PlanInv(c, ResetEnded(s, th))
  {
    hide WellFormed, ChainsOk, CancelledOk, PassInv, ThreadsOk, LockOk, TasksOk;
    var s' := ResetEnded(s, th);
    forall t | t in c.tasks && t in s'.accepted
      ensures s'.exec[t].pending != {} && (s'.exec[t].state != Canceled ==> PlanComing(s', t))
    {
      assert PlanComing(s, t) || !PlanComing(s, t);
    }
  }

  lemma BeginResetPlan(c: Config, s: State, th: ThreadId, u: Task)
    requires WakeInv(c, s) && LockEnabled(c, s, th, BeginReset(u))
    ensures PlanInv(c, ResetBegun(s, th, u))
  {
    hide WellFormed, ChainsOk, CancelledOk, PassInv, ThreadsOk, LockOk, TasksOk, TraceOk, CtxOk;
    var s' := ResetBegun(s, th, u);
    TaskAt(c, s, u);
    forall t | t in c.tasks && t in s'.accepted
      ensures s'.exec[t].pending != {} && (s'.exec[t].state != Canceled ==> PlanComing(s', t))
    {
      assert PlanComing(s, t) || !PlanComing(s, t);
    }
  }

  lemma InvalidatePlan(c: Config, s: State, t: Task, e: Event)
    requires WakeInv(c, s) && s.exec.Keys == c.tasks && t in c.tasks && Accepts(c, s, t, e)
    ensures PlanInv(c, Invalidated(c, s, t, e))
  {
    hide WellFormed, WakeInv, MarkAndSignal;
    AcceptedPlan(c, s, t, e, Sender(s.nextId));
    var m := MarkAndSignal(c, s, t, e, Sender(s.nextId), Signalling(false));
    forall u | u in c.tasks && u in m.accepted
      ensures m.exec[u].pending != {} && (m.exec[u].state != Canceled ==> PlanComing(m.(nextId := s.nextId + 1), u))
    {
      assert PlanComing(m, u) || !PlanComing(m, u);
    }
  }

  /** The thread that another step moves: it still waits, or the signal is set. */
  lemma OtherStepWaits(c: Config, s: State, step: Step)
    requires s.exec.Keys == c.tasks && Enabled(c, s, step) && !step.OfLock? && !step.OfRun? && !step.Invalidate?
    ensures var s' := Apply(c, s, step);
      && s'.accepted == s.accepted && s'.lock == s.lock && (!step.HandlerInvalidate? ==> s'.exec == s.exec)
      && (s.signal || s.timer || CallWaits(s) ==> s'.signal || s'.timer || CallWaits(s'))
  {
    hide WellFormed, Marks, AddMarks, CallWaits;
    var s' := Apply(c, s, step);
    var mover := match step
      case Signal(th) => th
      case MainReturn => Main
      case _ => Loop;
    if step == OfLoop(Fire) {
      assert CallWaits(s') by { Waits(s', Loop); }
    } else if CallWaits(s) {
      StillWaits(s, s', mover);
    }
  }

  lemma Waits(s: State, th: ThreadId)
    requires th in s.threads && s.threads[th] == AwaitPlan
    ensures CallWaits(s)
  {}

  lemma OtherStepPlan(c: Config, s: State, step: Step)
    requires WakeInv(c, s) && Enabled(c, s, step) && !step.OfLock? && !step.OfRun?
    ensures PlanInv(c, Apply(c, s, step))
  {
    hide WellFormed, Inv, Mark, MarkAndSignal, SignalSent, LoopEnabled, ApplyLoop, PassInv, PlanInv, CallWaits;
    InvKeys(c, s);
    var s' := Apply(c, s, step);
    if step.Invalidate? {
      if Accepts(c, s, step.task, step.event) { InvalidatePlan(c, s, step.task, step.event); }
    } else {
      OtherStepWaits(c, s, step);
      forall t | t in c.tasks ensures s.exec[t].pending <= s'.exec[t].pending && s'.exec[t].state == s.exec[t].state {
        MarkEffect(c, s, step, t);
        if step.HandlerInvalidate? { HandlerPending(c, s, step.task, step.event, t); }
      }
      PlanKept(c, s, s');
    }
  }

  lemma HandlerPending(c: Config, s: State, t: Task, e: Event, u: Task)
    requires s.exec.Keys == c.tasks && t in c.tasks && u in c.tasks
    ensures s.exec[u].pending <= Mark(c, s, t, e).exec[u].pending
  {
    hide WellFormed, Marks, AddMarks;
    MarkedPending(c, s, t, e, u);
  }

  // ---------------------------------------------------------------------------------------------
  // Runs

  lemma StepPlan(c: Config, s: State, step: Step)
    requires WakeInv(c, s) && Enabled(c, s, step)
    ensures PlanInv(c, Apply(c, s, step))
  {
    hide WellFormed, WakeInv, PlanInv, ApplyRun, ApplyLock;
    match step
    case OfRun(th, r) => RunStepPlan(c, s, th, r);
    case OfLock(th, act) => LockStepPlan(c, s, th, act);
    case _ => OtherStepPlan(c, s, step);
  }

  lemma StepWake(c: Config, s: State, step: Step)
    requires WakeInv(c, s) && Enabled(c, s, step) && Atomic(s, step)
    ensures WakeInv(c, Apply(c, s, step))
  {
    hide WellFormed, PlanInv, PassInv, Apply, Enabled, Atomic, TasksOk, ChainsOk, LockOk, CancelledOk;
    StepInv(c, s, step);
    StepPass(c, s, step);
    StepPlan(c, s, step);
    LoopAliveStep(c, s, step);
  }

  lemma MarkedInside(c: Config, s: State, t: Task, e: Event)
    requires s.exec.Keys == c.tasks && t in c.tasks
    ensures MarkedTasks(Marks(c, InvalidIn(s.exec), t, e)) <= c.tasks
  {
    hide WellFormed;
  }

  lemma LoopAliveStep(c: Config, s: State, step: Step)
    requires s.exec.Keys == c.tasks && LoopAlive(s) && s.accepted <= c.tasks && Enabled(c, s, step)
    requires ThreadsOk(s)
    ensures LoopAlive(Apply(c, s, step)) && Apply(c, s, step).accepted <= c.tasks
  {
    hide WellFormed, AddMarks, Marks, MarkedTasks, ThreadsOk, ApplyLock, ApplyRun, RunEnabled, Collect;
    match step
    case Invalidate(t, e) => MarkedInside(c, s, t, e);
    case OfRun(th, r) => LoopAliveRun(c, s, th, r);
    case OfLock(th, act) =>
      ThreadsAre(s, th);
      LoopAliveLock(c, s, th, act);
    case Signal(th) => ThreadsAre(s, th);
    case _ =>
  }

  lemma LoopAliveRun(c: Config, s: State, th: ThreadId, r: RunStep)
    requires s.exec.Keys == c.tasks && LoopAlive(s) && s.accepted <= c.tasks && RunEnabled(c, s, th, r)
    ensures LoopAlive(ApplyRun(c, s, th, r)) && ApplyRun(c, s, th, r).accepted <= c.tasks
  {
    hide WellFormed, AddMarks, Marks, MarkedTasks;
    MarkedInside(c, s, th.task, KeepAliveStopped);
  }

  lemma LoopAliveLock(c: Config, s: State, th: ThreadId, act: LockStep)
    requires s.exec.Keys == c.tasks && LoopAlive(s) && s.accepted <= c.tasks && LockEnabled(c, s, th, act)
    requires ThreadOk(s, th)
    ensures LoopAlive(ApplyLock(c, s, th, act)) && ApplyLock(c, s, th, act).accepted <= c.tasks
  {
    hide WellFormed, LoopAlive, ApplyLock, LockEnabled;
    LockStepExits(c, s, th, act);
    LockStepShrinks(c, s, th, act);
    assert LoopAlive(ApplyLock(c, s, th, act)) by { StaysAlive(s, ApplyLock(c, s, th, act)); }
  }

  lemma StaysAlive(s: State, s': State)
    requires LoopAlive(s) && s.cancelled <= s'.cancelled && (At(s', Loop, LoopExited) ==> At(s, Loop, LoopExited))
    ensures LoopAlive(s')
  {}

  lemma LockStepExits(c: Config, s: State, th: ThreadId, act: LockStep)
    requires s.exec.Keys == c.tasks && LockEnabled(c, s, th, act)
    ensures At(ApplyLock(c, s, th, act), Loop, LoopExited) ==> At(s, Loop, LoopExited)
  {
    hide WellFormed, LockEnabled, ApplyLock;
    LockAdvances(c, s, th, act);
  }

  lemma LockStepShrinks(c: Config, s: State, th: ThreadId, act: LockStep)
    requires s.exec.Keys == c.tasks && LockEnabled(c, s, th, act)
    ensures ApplyLock(c, s, th, act).accepted <= s.accepted && s.cancelled <= ApplyLock(c, s, th, act).cancelled
  {
    hide WellFormed, Collect, Executable, Reset, Settle, Begun, AfterPass;
    if act.CheckLive? { LeaverStays(s, th); }
    if act.ReleasePass? { LeaverStays(s.(lock := Free), th); }
  }

  lemma {:induction false} RunWake(c: Config, s: State, steps: seq<Step>)
    requires WakeInv(c, s) && IsRunFrom(c, s, steps)
    ensures WakeInv(c, After(c, s, steps))
    decreases |steps|
  {
    if steps != [] {
      StepWake(c, s, steps[0]);
      RunWake(c, Apply(c, s, steps[0]), steps[1..]);
    }
  }

  lemma ReachableWake(c: Config, s: State)
    requires Reachable(c, s)
    ensures WakeInv(c, s)
  {
    var steps :| IsRunFrom(c, Init(c), steps) && s == After(c, Init(c), steps);
    InitInv(c);
    assert OwesPass(Main, Init(c).threads[Main]);
    RunWake(c, Init(c), steps);
  }

  /** Whenever a task is executable and the executor is live, a pass that will look at the task is in
      progress, or some thread that has no task body to wait for has a pass ahead of it. */
  lemma ExecutableHasPass(c: Config, s: State, t: Task)
    requires Reachable(c, s) && Root !in s.cancelled && t in c.tasks && Executable(c, s, t)
    ensures PassPending(s, t) || exists th :: th in s.threads && OwesPass(th, s.threads[th])
  {
    ReachableWake(c, s);
  }

  /** Whenever an invalidation accepted through Executor.Invalidate is outstanding for a task that is
      not canceled and the executor is live, a plan that will deal with it is owed: by a blocked sender,
      the channel, the timer, a thread about to plan, or the plan in progress. */
  lemma AcceptedHasPlan(c: Config, s: State, t: Task)
    requires Reachable(c, s) && Root !in s.cancelled && t in s.accepted && t in c.tasks && s.exec[t].state != Canceled
    ensures s.exec[t].pending != {} && !At(s, Loop, LoopExited)
    ensures s.signal || s.timer || Collected(s, t) || InReset(s, t)
      || exists th :: th in s.threads && (s.threads[th].Signalling? || s.threads[th] == AwaitPlan)
  {
    ReachableWake(c, s);
    assert PlanComing(s, t) || !PlanComing(s, t);
  }
}
