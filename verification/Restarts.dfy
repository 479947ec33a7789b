/** A keep-alive task that accepts the end of its own run as a reason is restarted whenever it exits. */
module Restarts {
  import opened Tasks
  import opened Machine
  import opened Invariant
  import opened Preservation
  import opened Safety
  import opened Wakeup
  import opened Progress

  predicate HasEnded(x: Execution) {
    x.state.Done? || x.state.Error?
  }

  /** The last run of `t` has yet to make its keep-alive check. */
  predicate BeforeCheck(s: State, t: Task)
    requires t in s.exec
  {
    var x := s.exec[t];
    x.starts > 0 && RunOf(t, x.starts - 1) in s.threads
    && (s.threads[RunOf(t, x.starts - 1)].Flushing? || s.threads[RunOf(t, x.starts - 1)].KeepingAlive?)
  }

  /** Once `t` has ended, its restart is due: accepted, or about to be. */
  predicate RestartDue(s: State, t: Task)
    requires t in s.exec
  {
    HasEnded(s.exec[t]) ==> t in s.accepted || BeforeCheck(s, t)
  }

  ghost predicate RestartsInv(c: Config, s: State)
    requires s.exec.Keys == c.tasks
  {
    forall t {:trigger RestartDue(s, t)} :: RestartsItself(c, t) ==> RestartDue(s, t)
  }

  /** The task's state and starts stay, nothing accepted is dropped, and its last run stays where it was. */
  lemma StaysDue(s: State, s': State, t: Task)
    requires t in s.exec && t in s'.exec && RestartDue(s, t)
    requires s'.exec[t].state == s.exec[t].state && s'.exec[t].starts == s.exec[t].starts
    requires t in s.accepted ==> t in s'.accepted
    requires BeforeCheck(s, t) ==> BeforeCheck(s', t)
    ensures RestartDue(s', t)
  {}

  /** A run that ended is live or has sent its token; the task's own run is the last as long as it is live. */
  lemma LiveIsLast(c: Config, s: State, th: ThreadId)
    requires Inv(c, s) && IsRun(c, s, th) && Live(s.threads[th])
    ensures s.exec[th.task].starts == th.nth + 1
    ensures Busy(s.threads[th]) ==> !HasEnded(s.exec[th.task])
  {
    hide WellFormed, TasksOk, ChainsOk, CancelledOk, ThreadsOk, LockOk, TraceOk, CtxOk;
    ThreadAt(c, s, th);
    TaskAt(c, s, th.task);
  }

  lemma RunKeepsAccepted(c: Config, s: State, th: ThreadId, r: RunStep)
    requires s.exec.Keys == c.tasks && RunEnabled(c, s, th, r)
    ensures s.accepted <= ApplyRun(c, s, th, r).accepted
    ensures r == KeepAlive && KeptAliveSends(c, s, th) ==> th.task in ApplyRun(c, s, th, r).accepted
  {
    hide WellFormed, AddMarks, Cancelled;
    if r == KeepAlive && KeptAliveSends(c, s, th) {
      assert (th.task, KeepAliveStopped) in Marks(c, InvalidIn(s.exec), th.task, KeepAliveStopped);
    }
  }

  lemma OtherRunKeepsDue(c: Config, s: State, th: ThreadId, r: RunStep, t: Task)
    requires s.exec.Keys == c.tasks && RunEnabled(c, s, th, r) && t in c.tasks && RestartDue(s, t)
    requires th.task != t || th.nth + 1 != s.exec[t].starts
    requires r != Write || th.task != t
    ensures RestartDue(ApplyRun(c, s, th, r), t)
  {
    hide WellFormed, ApplyRun;
    RunStepEffect(c, s, th, r, t);
    RunKeepsAccepted(c, s, th, r);
    RunLeavesOthers(c, s, th, r);
    StaysDue(s, ApplyRun(c, s, th, r), t);
  }

  lemma OwnRunKeepsDue(c: Config, s: State, th: ThreadId, r: RunStep, t: Task)
    requires Inv(c, s) && s.exec.Keys == c.tasks && RunEnabled(c, s, th, r) && RestartsItself(c, t) && RestartDue(s, t)
    requires th.task == t && th.nth + 1 == s.exec[t].starts
    ensures RestartDue(ApplyRun(c, s, th, r), t)
  {
    hide WellFormed, Inv, ApplyRun;
    RunStepEffect(c, s, th, r, t);
    RunKeepsAccepted(c, s, th, r);
    RunAdvances(c, s, th, r);
    if Live(s.threads[th]) { LiveIsLast(c, s, th); }
  }

  lemma RunKeepsDue(c: Config, s: State, th: ThreadId, r: RunStep, t: Task)
    requires Inv(c, s) && s.exec.Keys == c.tasks && RunEnabled(c, s, th, r) && RestartsItself(c, t) && RestartDue(s, t)
    ensures RestartDue(ApplyRun(c, s, th, r), t)
  {
    hide WellFormed, Inv, ApplyRun, RestartDue, RestartsItself;
    assert t in c.tasks by { RestartsInside(c, t); }
    if Live(s.threads[th]) { LiveIsLast(c, s, th); }
    if th.task == t && th.nth + 1 == s.exec[t].starts {
      OwnRunKeepsDue(c, s, th, r, t);
    } else {
      OtherRunKeepsDue(c, s, th, r, t);
    }
  }

  lemma RestartsInside(c: Config, t: Task)
    requires RestartsItself(c, t)
    ensures t in c.tasks
  {}

  /** The run before its check is not the one that acts under the lock. */
  lemma LockKeepsCheck(c: Config, s: State, u: ThreadId, act: LockStep, t: Task)
    requires Inv(c, s) && s.exec.Keys == c.tasks && LockEnabled(c, s, u, act) && t in c.tasks && BeforeCheck(s, t)
    requires ApplyLock(c, s, u, act).exec[t].starts == s.exec[t].starts
    ensures BeforeCheck(ApplyLock(c, s, u, act), t)
  {
    hide WellFormed, TasksOk, ChainsOk, CancelledOk, ThreadsOk, LockOk, ApplyLock;
    ThreadAt(c, s, u);
    if act.Visit? { RunIsFresh(s, act.task); }
    LockKeepsThread(c, s, u, act, RunOf(t, s.exec[t].starts - 1));
  }

  /** Under the lock a task ends in no other state than it was in, and what it is due is dropped only while
      it is invalid or canceled. */
  lemma LockKeepsEnded(c: Config, s: State, u: ThreadId, act: LockStep, t: Task)
    requires Inv(c, s) && s.exec.Keys == c.tasks && LockEnabled(c, s, u, act) && t in c.tasks
    requires HasEnded(ApplyLock(c, s, u, act).exec[t])
    ensures HasEnded(s.exec[t]) && ApplyLock(c, s, u, act).exec[t].starts == s.exec[t].starts
    ensures t in s.accepted ==> t in ApplyLock(c, s, u, act).accepted
  {
    hide WellFormed, TasksOk, ChainsOk, CancelledOk, ThreadsOk, LockOk, TraceOk, CtxOk, Collect, Executable, AfterPass;
    TaskAt(c, s, t);
    if act.CheckLive? { LeaverStays(s, u); }
    if act.ReleasePass? { LeaverStays(s.(lock := Free), u); }
  }

  lemma LockKeepsDue(c: Config, s: State, u: ThreadId, act: LockStep, t: Task)
    requires Inv(c, s) && s.exec.Keys == c.tasks && LockEnabled(c, s, u, act) && t in c.tasks && RestartDue(s, t)
    ensures RestartDue(ApplyLock(c, s, u, act), t)
  {
    hide WellFormed, Inv, ApplyLock, LockEnabled, BeforeCheck, HasEnded;
    if HasEnded(ApplyLock(c, s, u, act).exec[t]) {
      LockKeepsEnded(c, s, u, act, t);
      if BeforeCheck(s, t) { LockKeepsCheck(c, s, u, act, t); }
    }
  }

  lemma OtherStepKeepsDue(c: Config, s: State, step: Step, t: Task)
    requires s.exec.Keys == c.tasks && Enabled(c, s, step) && t in c.tasks && RestartDue(s, t)
    requires !step.OfLock? && !step.OfRun?
    ensures RestartDue(Apply(c, s, step), t)
  {
    hide WellFormed, Apply;
    MarkEffect(c, s, step, t);
    OtherStepKeepsCheck(c, s, step, t);
    StaysDue(s, Apply(c, s, step), t);
  }

  lemma OtherStepKeepsCheck(c: Config, s: State, step: Step, t: Task)
    requires s.exec.Keys == c.tasks && Enabled(c, s, step) && t in c.tasks && !step.OfLock? && !step.OfRun?
    requires Apply(c, s, step).exec[t].starts == s.exec[t].starts
    ensures BeforeCheck(s, t) ==> BeforeCheck(Apply(c, s, step), t)
    ensures s.accepted <= Apply(c, s, step).accepted
  {
    hide WellFormed, Marks, AddMarks, MarkedTasks, InvalidIn, Accepts;
  }

  /** An accepted invalidation is dropped by the end of a reset of that task, and by nothing else. */
  lemma AcceptedUntilReset(c: Config, s: State, step: Step, t: Task)
    requires s.exec.Keys == c.tasks && Enabled(c, s, step) && t in s.accepted
    ensures t !in Apply(c, s, step).accepted <==> step.OfLock? && step.act == EndReset && s.lock.task == t
  {
    hide WellFormed, ApplyRun, RunEnabled, Marks, AddMarks, MarkedTasks, InvalidIn, Accepts, Executable, Collect, AfterPass;
    match step
    case OfRun(th, r) => RunKeepsAccepted(c, s, th, r);
    case OfLock(th, act) =>
      if act.CheckLive? { LeaverStays(s, th); }
      if act.ReleasePass? { LeaverStays(s.(lock := Free), th); }
    case _ =>
  }

  lemma StepRestarts(c: Config, s: State, step: Step)
    requires Inv(c, s) && s.exec.Keys == c.tasks && RestartsInv(c, s) && Enabled(c, s, step)
    ensures RestartsInv(c, Apply(c, s, step))
  {
    hide WellFormed, Inv, ApplyLock, ApplyRun, LockEnabled, RunEnabled, RestartsItself;
    forall t | RestartsItself(c, t) ensures t in c.tasks && RestartDue(Apply(c, s, step), t) {
      RestartsInside(c, t);
      assert RestartDue(s, t);
      match step
      case OfRun(th, r) => RunKeepsDue(c, s, th, r, t);
      case OfLock(th, act) => LockKeepsDue(c, s, th, act, t);
      case _ => OtherStepKeepsDue(c, s, step, t);
    }
  }

  lemma {:induction false} RunRestarts(c: Config, s: State, steps: seq<Step>)
    requires Inv(c, s) && s.exec.Keys == c.tasks && RestartsInv(c, s) && IsRunFrom(c, s, steps)
    ensures RestartsInv(c, After(c, s, steps))
    decreases |steps|
  {
    hide WellFormed, Inv, RestartsInv, Apply, Enabled, Atomic;
    if steps != [] {
      StepInv(c, s, steps[0]);
      StepRestarts(c, s, steps[0]);
      RunRestarts(c, Apply(c, s, steps[0]), steps[1..]);
    }
  }

  lemma ReachableRestarts(c: Config, s: State)
    requires Reachable(c, s)
    ensures RestartsInv(c, s)
  {
    hide WellFormed, Inv, IsRunFrom, After;
    var steps :| IsRunFrom(c, Init(c), steps) && s == After(c, Init(c), steps);
    InitInv(c);
    RunRestarts(c, Init(c), steps);
  }

  /** A task that restarts itself never stays ended in a live executor: its last run has yet to make its
      keep-alive check, or its invalidation was accepted, is pending, and has a plan coming. */
  lemma RestartIsDue(c: Config, s: State, t: Task)
    requires Reachable(c, s) && Root !in s.cancelled && RestartsItself(c, t) && HasEnded(s.exec[t])
    ensures BeforeCheck(s, t) || (t in s.accepted && s.exec[t].pending != {} && PlanComing(s, t))
  {
    hide WellFormed, Reachable;
    ReachableRestarts(c, s);
    assert RestartDue(s, t);
    if t in s.accepted { AcceptedHasPlan(c, s, t); }
  }
}
