/** When the executor can block for good: some step of its own is enabled, and keeps to assumptions (a) and
    (b), unless every thread is at rest or waits to signal an invalidation loop that has exited. The latter
    happens after a shutdown only, and then it is for good. */
module Progress {
  import opened Tasks
  import opened Machine
  import opened Invariant
  import opened Preservation
  import opened Safety
  import opened Wakeup

  /** A step of the executor's own threads, as opposed to one that its surroundings choose to make. */
  predicate Internal(step: Step) {
    !step.Shutdown? && !step.Invalidate? && !step.HandlerInvalidate?
  }

  /** The thread waits for something outside: the main goroutine for its runs, the loop for a signal. */
  predicate AtRest(s: State, th: ThreadId)
    requires th in s.threads
  {
    match s.threads[th]
    case Waiting => s.running > 0
    case Returned => true
    case Selecting => !s.signal && !s.timer && Root !in s.cancelled
    case LoopExited => true
    case _ => false
  }

  /** The thread is at its send to the loop, which has exited with the channel full. */
  predicate Hung(s: State, th: ThreadId) {
    th in s.threads && s.threads[th].Signalling? && s.signal && At(s, Loop, LoopExited)
  }

  ghost predicate CanMove(c: Config, s: State, step: Step)
    requires s.exec.Keys == c.tasks
  {
    Enabled(c, s, step) && Atomic(s, step) && Internal(step)
  }

  /** The next step of a live run. */
  function RunStepOf(ph: Phase): RunStep {
    match ph
    case Spawned => Capture
    case Body(_) => Decide(false)
    case Decided(_, _) => Write
    case Flushing(_) => Flush
    case _ => KeepAlive
  }

  lemma LiveRunMoves(c: Config, s: State, th: ThreadId)
    requires Inv(c, s) && IsRun(c, s, th) && Live(s.threads[th])
    ensures CanMove(c, s, OfRun(th, RunStepOf(s.threads[th])))
  {
    hide WellFormed;
    assert ThreadOk(s, th) && Good(c, s, th.task);
  }

  /** A plan can begin to reset `t`, or the run of `t` that (a) or (b) makes it wait for can move. */
  lemma ResetMoves(c: Config, s: State, th: ThreadId, t: Task) returns (step: Step)
    requires Inv(c, s) && LockEnabled(c, s, th, BeginReset(t))
    ensures CanMove(c, s, step)
  {
    hide WellFormed, TasksOk, ChainsOk, LockOk, CancelledOk;
    if n :| RunOf(t, n) in s.threads && (s.threads[RunOf(t, n)].Spawned? || s.threads[RunOf(t, n)].Decided?) {
      LiveRunMoves(c, s, RunOf(t, n));
      step := OfRun(RunOf(t, n), RunStepOf(s.threads[RunOf(t, n)]));
    } else {
      step := OfLock(th, BeginReset(t));
    }
  }

  lemma HolderMoves(c: Config, s: State) returns (step: Step)
    requires Inv(c, s) && s.lock != Free
    ensures CanMove(c, s, step)
  {
    hide WellFormed, ChainsOk, CancelledOk;
    var h := s.lock.holder;
    assert HoldsRightly(s, h) && ThreadOk(s, h);
    match s.lock
    case Planner(_, todo) =>
      if todo == {} {
        step := OfLock(h, ReleasePlan);
      } else {
        var t :| t in todo;
        step := ResetMoves(c, s, h, t);
      }
    case Resetter(_, t, _) =>
      assert Good(c, s, t);
      if s.exec[t].terminal > 0 {
        step := OfLock(h, EndReset);
      } else {
        var run := RunOf(t, s.exec[t].starts - 1);
        LiveRunMoves(c, s, run);
        step := OfRun(run, RunStepOf(s.threads[run]));
      }
    case Passer(_, unvisited) =>
      if unvisited == {} {
        step := OfLock(h, ReleasePass);
      } else {
        var t :| t in unvisited;
        step := OfLock(h, Visit(t));
      }
  }

  lemma ThreadMoves(c: Config, s: State, th: ThreadId) returns (step: Step)
    requires Inv(c, s) && th in s.threads && !AtRest(s, th) && !Hung(s, th)
    ensures CanMove(c, s, step)
  {
    hide WellFormed, TasksOk, ChainsOk, CancelledOk, LockOk;
    ThreadAt(c, s, th);
    if Live(s.threads[th]) {
      LiveRunMoves(c, s, th);
      return OfRun(th, RunStepOf(s.threads[th]));
    }
    match s.threads[th]
    case Signalling(_) =>
      if s.signal {
        ThreadAt(c, s, Loop);
        if s.threads[Loop] == Selecting {
          step := OfLoop(Receive);
        } else if s.lock == Free {
          step := OfLock(Loop, AcquirePlan);
        } else {
          step := HolderMoves(c, s);
        }
      } else {
        step := Signal(th);
      }
    case AwaitPlan =>
      if s.lock == Free { step := OfLock(th, AcquirePlan); } else { step := HolderMoves(c, s); }
    case AwaitPass =>
      if s.lock == Free { step := OfLock(th, AcquirePass); } else { step := HolderMoves(c, s); }
    case Planning => step := HolderMoves(c, s);
    case Passing => step := HolderMoves(c, s);
    case CheckPass => step := OfLock(th, CheckLive);
    case Waiting => step := MainReturn;
    case Selecting => step := OfLoop(if s.signal then Receive else if s.timer then Fire else Exit);
    case KeepingAlive(_) => step := OfRun(th, KeepAlive);
    case _ => assert false;
  }

  /** Deadlock freedom: whatever thread has something left to do and does not wait for the exited loop, some
      executor step is enabled, before a shutdown and after it. */
  lemma NeverDeadlocks(c: Config, s: State, th: ThreadId) returns (step: Step)
    requires Reachable(c, s) && th in s.threads && !AtRest(s, th) && !Hung(s, th)
    ensures Enabled(c, s, step) && Atomic(s, step) && Internal(step)
  {
    hide WellFormed, Inv, Reachable;
    ReachableInv(c, s);
    step := ThreadMoves(c, s, th);
  }

  /** While the executor is live no thread hangs. */
  lemma LiveNeverHangs(c: Config, s: State, th: ThreadId)
    requires Reachable(c, s) && Root !in s.cancelled
    ensures !Hung(s, th)
  {
    hide WellFormed, Inv, PassInv, PlanInv, Reachable;
    ReachableWake(c, s);
  }

  lemma RestMoves(c: Config, s: State, step: Step)
    requires Inv(c, s) && s.exec.Keys == c.tasks && CanMove(c, s, step)
    ensures exists th :: th in s.threads && !AtRest(s, th) && !Hung(s, th)
  {
    hide WellFormed, TasksOk, ChainsOk, CancelledOk, ThreadsOk, LockOk, Executable, Collect;
    var th := match step
      case Signal(u) => u
      case MainReturn => Main
      case OfLock(u, _) => u
      case OfRun(u, _) => u
      case _ => Loop;
    ThreadAt(c, s, th);
    assert !AtRest(s, th) && !Hung(s, th);
  }

  /** The exception is exact: no executor step is left iff every thread is at rest or hangs. */
  lemma StuckIff(c: Config, s: State)
    requires Reachable(c, s)
    ensures (forall step :: !CanMove(c, s, step)) <==> forall th :: th in s.threads ==> AtRest(s, th) || Hung(s, th)
  {
    hide WellFormed, Inv, Reachable, CanMove, AtRest, Hung;
    ReachableInv(c, s);
    if th :| th in s.threads && !AtRest(s, th) && !Hung(s, th) {
      var step := ThreadMoves(c, s, th);
    }
    if step :| CanMove(c, s, step) {
      RestMoves(c, s, step);
    }
  }

  /** A step under the lock leaves every other thread where it is, unless it starts it. */
  lemma LockKeepsThread(c: Config, s: State, u: ThreadId, act: LockStep, th: ThreadId)
    requires s.exec.Keys == c.tasks && LockEnabled(c, s, u, act) && th in s.threads && th != u && (u != Loop || th.RunOf?)
    requires act.Visit? ==> RunOf(act.task, s.exec[act.task].starts) != th
    ensures ApplyLock(c, s, u, act).signal == s.signal
    ensures th in ApplyLock(c, s, u, act).threads && ApplyLock(c, s, u, act).threads[th] == s.threads[th]
  {
    hide WellFormed, Executable, Collect, AfterPass, Visited;
    if act.Visit? {
      VisitKeepsThread(c, s, u, act.task, th);
    } else if act.CheckLive? {
      LeaverKeepsThread(s, u, th);
    } else if act.ReleasePass? {
      LeaverKeepsThread(s.(lock := Free), u, th);
    }
  }

  lemma VisitKeepsThread(c: Config, s: State, u: ThreadId, t: Task, th: ThreadId)
    requires s.exec.Keys == c.tasks && t in c.tasks && s.lock.Passer?
    requires th in s.threads && RunOf(t, s.exec[t].starts) != th
    ensures Visited(c, s, u, t).signal == s.signal
    ensures th in Visited(c, s, u, t).threads && Visited(c, s, u, t).threads[th] == s.threads[th]
  {
    hide WellFormed, Executable;
  }

  lemma LeaverKeepsThread(s: State, u: ThreadId, th: ThreadId)
    requires th in s.threads && th != u
    ensures AfterPass(s, u).signal == s.signal
    ensures th in AfterPass(s, u).threads && AfterPass(s, u).threads[th] == s.threads[th]
  {}

  lemma LockKeepsHung(c: Config, s: State, th: ThreadId, u: ThreadId, act: LockStep)
    requires Inv(c, s) && s.exec.Keys == c.tasks && LockEnabled(c, s, u, act) && Hung(s, th)
    ensures Hung(ApplyLock(c, s, u, act), th)
  {
    hide WellFormed, TasksOk, ChainsOk, CancelledOk, LockOk, ThreadsOk, ApplyLock;
    ThreadAt(c, s, u);
    if act.Visit? { RunIsFresh(s, act.task); }
    LockKeepsThread(c, s, u, act, th);
    LockKeepsThread(c, s, u, act, Loop);
  }

  lemma HungStays(c: Config, s: State, step: Step, th: ThreadId)
    requires Inv(c, s) && s.exec.Keys == c.tasks && Enabled(c, s, step) && Hung(s, th)
    ensures Hung(Apply(c, s, step), th)
  {
    hide WellFormed, TasksOk, ChainsOk, CancelledOk, LockOk, ThreadsOk, Marks, AddMarks;
    hide ApplyLock, LockEnabled, ApplyRun, Accepts, MarkAndSignal;
    match step
    case OfLock(u, act) => LockKeepsHung(c, s, th, u, act);
    case OfRun(u, r) => RunLeavesOthers(c, s, u, r);
    case Invalidate(t, e) => SenderKeepsHung(c, s, t, e, th);
    case _ =>
  }

  lemma SenderKeepsHung(c: Config, s: State, t: Task, e: Event, th: ThreadId)
    requires s.exec.Keys == c.tasks && ThreadsOk(s) && t in c.tasks && Hung(s, th)
    ensures Hung(Invalidated(c, s, t, e), th)
  {
    hide WellFormed, ThreadsOk, Marks, AddMarks, InvalidIn, MarkedTasks, Accepts;
    IdsAreFresh(s);
  }

  lemma HungIsFull(s: State, th: ThreadId)
    requires Hung(s, th)
    ensures s.signal
  {}

  lemma HungIsWaitedFor(c: Config, s: State, th: ThreadId)
    requires Inv(c, s) && s.exec.Keys == c.tasks && Hung(s, th) && th.RunOf?
    ensures !Enabled(c, s, MainReturn)
  {
    hide WellFormed, TasksOk, ChainsOk, CancelledOk, ThreadsOk, LockOk;
    assert th in RunIds(s.threads);
  }

  /** A thread that hangs does so whatever happens; if it is a run, the wait for all runs never returns. */
  lemma {:induction false} HungForever(c: Config, s: State, steps: seq<Step>, th: ThreadId)
    requires Inv(c, s) && s.exec.Keys == c.tasks && IsRunFrom(c, s, steps) && Hung(s, th)
    ensures Hung(After(c, s, steps), th) && !Enabled(c, After(c, s, steps), Signal(th))
    ensures th.RunOf? ==> !Enabled(c, After(c, s, steps), MainReturn)
    decreases |steps|
  {
    hide WellFormed, Inv, Hung, Apply;
    if steps == [] {
      assert s.signal by { HungIsFull(s, th); }
      if th.RunOf? { HungIsWaitedFor(c, s, th); }
    } else {
      HungStays(c, s, steps[0], th);
      StepInv(c, s, steps[0]);
      HungForever(c, Apply(c, s, steps[0]), steps[1..], th);
    }
  }
}
