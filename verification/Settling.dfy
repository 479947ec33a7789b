/** Runs with any invalidations: whenever all threads have come to rest, every task is where a run without
    invalidations would have left it, and nothing accepted is left. */
module Settling {
  import opened Tasks
  import opened Machine
  import opened Invariant
  import opened Preservation
  import opened Safety
  import opened Wakeup
  import opened Progress
  import opened Uninvalidated
  import opened Restarts

  /** No shutdown, and a task's body fails exactly if the task is in `fails`. */
  ghost predicate NoShutdown(fails: set<Task>, steps: seq<Step>) {
    forall i :: 0 <= i < |steps| ==> !steps[i].Shutdown? && FailsIfIn(fails, steps[i])
  }

  /** What a task ended in is its own outcome, and no task has run whose dependencies include a failing one. */
  predicate TaskSound(c: Config, fails: set<Task>, s: State, t: Task)
    requires t in s.exec && t in c.below
  {
    && (s.exec[t].state == Done ==> t !in fails) && (s.exec[t].state == Error ==> t in fails)
    && (s.exec[t].starts > 0 ==> c.below[t] !! fails)
  }

  predicate ThreadSound(fails: set<Task>, th: ThreadId, ph: Phase) {
    th.RunOf? && ph.Decided? && ph.outcome != Stop ==> (ph.outcome == Failure <==> th.task in fails)
  }

  ghost predicate SoundInv(c: Config, fails: set<Task>, s: State)
    requires s.exec.Keys == c.tasks == c.below.Keys
  {
    && Root !in s.cancelled
    && (forall t {:trigger TaskSound(c, fails, s, t)} :: t in c.tasks ==> TaskSound(c, fails, s, t))
    && (forall th {:trigger ThreadSound(fails, th, s.threads[th])} :: th in s.threads ==> ThreadSound(fails, th, s.threads[th]))
  }

  lemma RunTaskSound(c: Config, fails: set<Task>, s: State, th: ThreadId, r: RunStep, t: Task)
    requires s.exec.Keys == c.tasks == c.below.Keys && RunEnabled(c, s, th, r) && Root !in s.cancelled
    requires t in c.tasks && TaskSound(c, fails, s, t) && ThreadSound(fails, th, s.threads[th])
    ensures TaskSound(c, fails, ApplyRun(c, s, th, r), t)
  {
    hide WellFormed, ApplyRun;
    RunStepEffect(c, s, th, r, t);
    if r == Write { WrittenState(c, s, th); }
  }

  lemma WrittenState(c: Config, s: State, th: ThreadId)
    requires s.exec.Keys == c.tasks && RunEnabled(c, s, th, Write) && Root !in s.cancelled
    ensures var x := ApplyRun(c, s, th, Write).exec[th.task];
      x.state == match s.threads[th].outcome case Stop => s.exec[th.task].state case Failure => Error case Success => Done
  {
    hide WellFormed;
  }

  lemma RunThreadSound(c: Config, fails: set<Task>, s: State, th: ThreadId, r: RunStep)
    requires s.exec.Keys == c.tasks && RunEnabled(c, s, th, r) && FailsIfIn(fails, OfRun(th, r))
    ensures th in ApplyRun(c, s, th, r).threads && ThreadSound(fails, th, ApplyRun(c, s, th, r).threads[th])
  {
    hide WellFormed, ApplyRun, Cancelled;
    RunAdvances(c, s, th, r);
    if r.Decide? { DecidedOutcome(c, s, th, r.failed); }
  }

  lemma DecidedOutcome(c: Config, s: State, th: ThreadId, failed: bool)
    requires s.exec.Keys == c.tasks && RunEnabled(c, s, th, Decide(failed))
    ensures var ph := ApplyRun(c, s, th, Decide(failed)).threads[th];
      ph.Decided? && (ph.outcome != Stop ==> (ph.outcome == Failure <==> failed))
  {
    hide WellFormed, Cancelled;
  }

  lemma RunSound(c: Config, fails: set<Task>, s: State, th: ThreadId, r: RunStep)
    requires s.exec.Keys == c.tasks == c.below.Keys && SoundInv(c, fails, s) && RunEnabled(c, s, th, r)
    requires FailsIfIn(fails, OfRun(th, r))
    ensures SoundInv(c, fails, ApplyRun(c, s, th, r))
  {
    hide WellFormed, ApplyRun, TaskSound, ThreadSound;
    var s' := ApplyRun(c, s, th, r);
    RunLeavesOthers(c, s, th, r);
    RunThreadSound(c, fails, s, th, r);
    assert ThreadSound(fails, th, s.threads[th]);
    forall t | t in c.tasks ensures TaskSound(c, fails, s', t) {
      assert TaskSound(c, fails, s, t);
      RunTaskSound(c, fails, s, th, r, t);
    }
    forall u | u in s'.threads ensures ThreadSound(fails, u, s'.threads[u]) {
      if u != th { assert ThreadSound(fails, u, s.threads[u]); }
    }
  }

  /** A start finds all dependencies done, so none of them is in `fails`. */
  lemma StartedSound(c: Config, fails: set<Task>, s: State, t: Task)
    requires s.exec.Keys == c.tasks == c.below.Keys && SoundInv(c, fails, s) && t in c.tasks && Executable(c, s, t)
    ensures c.below[t] !! fails
  {
    hide WellFormed;
    BelowIsInside(c, t);
    forall d | d in c.below[t] ensures d !in fails { assert TaskSound(c, fails, s, d); }
  }

  lemma LockTaskEffect(c: Config, s: State, th: ThreadId, act: LockStep, t: Task)
    requires s.exec.Keys == c.tasks && LockEnabled(c, s, th, act) && t in c.tasks
    ensures var x := ApplyLock(c, s, th, act).exec[t];
      (x.state == s.exec[t].state || x.state == Invalid || x.state == Running)
      && (x.starts == s.exec[t].starts || Executable(c, s, t))
  {
    hide WellFormed, Collect, Executable, AfterPass;
    if act.CheckLive? { LeaverStays(s, th); }
    if act.ReleasePass? { LeaverStays(s.(lock := Free), th); }
  }

  /** Before a shutdown, only a reset cancels a context, and that is not the root. */
  lemma LockStaysLive(c: Config, s: State, th: ThreadId, act: LockStep)
    requires Inv(c, s) && s.exec.Keys == c.tasks && LockEnabled(c, s, th, act) && Root !in s.cancelled
    ensures Root !in ApplyLock(c, s, th, act).cancelled
  {
    hide WellFormed, TasksOk, ChainsOk, CancelledOk, ThreadsOk, LockOk, TraceOk, Collect, Executable, AfterPass;
    match act
    case BeginReset(t) =>
      TaskAt(c, s, t);
      CtxIsOwn(c, s, t);
    case CheckLive => LeaverStays(s, th);
    case ReleasePass => LeaverStays(s.(lock := Free), th);
    case _ =>
  }

  lemma LockSound(c: Config, fails: set<Task>, s: State, th: ThreadId, act: LockStep)
    requires Inv(c, s) && s.exec.Keys == c.tasks == c.below.Keys && SoundInv(c, fails, s) && LockEnabled(c, s, th, act)
    ensures SoundInv(c, fails, ApplyLock(c, s, th, act))
  {
    hide WellFormed, Inv, ApplyLock, LockEnabled, Executable;
    var s' := ApplyLock(c, s, th, act);
    LockStaysLive(c, s, th, act);
    LockAdvances(c, s, th, act);
    forall t | t in c.tasks ensures TaskSound(c, fails, s', t) {
      assert TaskSound(c, fails, s, t);
      LockTaskEffect(c, s, th, act, t);
      if Executable(c, s, t) { StartedSound(c, fails, s, t); }
    }
    forall u | u in s'.threads ensures ThreadSound(fails, u, s'.threads[u]) {
      if u in s.threads { assert ThreadSound(fails, u, s.threads[u]); }
    }
  }

  lemma OtherThreads(c: Config, s: State, step: Step)
    requires s.exec.Keys == c.tasks && Enabled(c, s, step) && !step.OfLock? && !step.OfRun? && !step.Shutdown?
    ensures Apply(c, s, step).cancelled == s.cancelled
    ensures forall u :: u in Apply(c, s, step).threads ==>
      (u in s.threads && Apply(c, s, step).threads[u] == s.threads[u]) || !Apply(c, s, step).threads[u].Decided?
  {
    hide WellFormed, Marks, AddMarks, MarkedTasks, InvalidIn, Accepts;
  }

  lemma OtherSound(c: Config, fails: set<Task>, s: State, step: Step)
    requires s.exec.Keys == c.tasks == c.below.Keys && SoundInv(c, fails, s) && Enabled(c, s, step)
    requires !step.OfLock? && !step.OfRun? && !step.Shutdown?
    ensures SoundInv(c, fails, Apply(c, s, step))
  {
    hide WellFormed, Apply;
    var s' := Apply(c, s, step);
    OtherThreads(c, s, step);
    forall t | t in c.tasks ensures TaskSound(c, fails, s', t) {
      assert TaskSound(c, fails, s, t);
      MarkEffect(c, s, step, t);
    }
    forall u | u in s'.threads ensures ThreadSound(fails, u, s'.threads[u]) {
      if u in s.threads { assert ThreadSound(fails, u, s.threads[u]); }
    }
  }

  lemma StepSound(c: Config, fails: set<Task>, s: State, step: Step)
    requires Inv(c, s) && s.exec.Keys == c.tasks == c.below.Keys && SoundInv(c, fails, s)
    requires Enabled(c, s, step) && !step.Shutdown? && FailsIfIn(fails, step)
    ensures SoundInv(c, fails, Apply(c, s, step))
  {
    hide WellFormed, Inv, SoundInv, ApplyLock, ApplyRun, LockEnabled, RunEnabled;
    match step
    case OfRun(th, r) => RunSound(c, fails, s, th, r);
    case OfLock(th, act) => LockSound(c, fails, s, th, act);
    case _ => OtherSound(c, fails, s, step);
  }

  lemma {:induction false} RunStaysSound(c: Config, fails: set<Task>, s: State, steps: seq<Step>)
    requires Inv(c, s) && s.exec.Keys == c.tasks == c.below.Keys && SoundInv(c, fails, s)
    requires IsRunFrom(c, s, steps) && NoShutdown(fails, steps)
    ensures SoundInv(c, fails, After(c, s, steps))
    decreases |steps|
  {
    hide WellFormed, Inv, SoundInv, Enabled, Apply, Atomic;
    if steps != [] {
      StepInv(c, s, steps[0]);
      StepSound(c, fails, s, steps[0]);
      RunStaysSound(c, fails, Apply(c, s, steps[0]), steps[1..]);
    }
  }

  lemma InitSound(c: Config, fails: set<Task>)
    requires c.tasks == c.below.Keys
    ensures SoundInv(c, fails, Init(c))
  {
    hide WellFormed;
  }

  /** Every thread waits for something outside. */
  ghost predicate AllRest(s: State) {
    forall th {:trigger AtRest(s, th)} :: th in s.threads ==> AtRest(s, th)
  }

  /** Then no run is left, no pass or plan is under way or owed, and so nothing can be executed. */
  lemma RestIsQuiet(c: Config, s: State)
    requires Inv(c, s) && AllRest(s)
    ensures RunIds(s.threads) == {} && s.lock == Free && !PassOwed(s) && !CallWaits(s)
  {
    hide WellFormed, TasksOk, ChainsOk, CancelledOk, LockOk;
    HolderHolds(c, s);
    forall th | th in s.threads
      ensures !th.RunOf? && !HoldsLock(s.threads[th]) && !OwesPass(th, s.threads[th])
      ensures !s.threads[th].Signalling? && s.threads[th] != AwaitPlan
    {
      assert ThreadOk(s, th) && AtRest(s, th);
    }
  }

  lemma HolderHolds(c: Config, s: State)
    requires Inv(c, s)
    ensures s.lock != Free ==> s.lock.holder in s.threads && HoldsLock(s.threads[s.lock.holder])
  {
    hide WellFormed, TasksOk, ChainsOk, CancelledOk, ThreadsOk;
    if s.lock != Free { assert HoldsRightly(s, s.lock.holder); }
  }

  /** With no run left and nothing executable, every task is in its expected state. */
  lemma {:induction false} RestIsExpected(c: Config, fails: set<Task>, s: State, t: Task)
    requires Inv(c, s) && s.exec.Keys == c.tasks == c.below.Keys && SoundInv(c, fails, s) && t in c.tasks
    requires RunIds(s.threads) == {} && s.lock == Free && forall u :: u in c.tasks ==> !Executable(c, s, u)
    ensures s.exec[t].state == Expected(c, fails, t)
    decreases |c.below[t]|
  {
    hide WellFormed, TasksOk, ChainsOk, CancelledOk, ThreadsOk, LockOk, TraceOk, CtxOk;
    TaskAt(c, s, t);
    assert TaskSound(c, fails, s, t);
    assert s.exec[t].starts > 0 ==> RunOf(t, s.exec[t].starts - 1) !in RunIds(s.threads);
    if s.exec[t].state == Invalid {
      BelowIsInside(c, t);
      assert !Executable(c, s, t);
      var d :| d in c.below[t] && s.exec[d].state != Done;
      BelowShrinks(c, t, d);
      RestIsExpected(c, fails, s, d);
      assert d in fails || exists e :: e in c.below[d] && e in fails;
    }
  }

  lemma NothingOwedAtRest(c: Config, s: State)
    requires Reachable(c, s) && Root !in s.cancelled && AllRest(s)
    ensures (forall t :: t in c.tasks ==> !Executable(c, s, t)) && s.accepted == {}
  {
    hide WellFormed, Reachable, Inv, PassInv, PlanInv, Executable;
    ReachableWake(c, s);
    RestIsQuiet(c, s);
    LoopRests(c, s);
    forall t | t in c.tasks ensures !Executable(c, s, t) {
      if Executable(c, s, t) { ExecutableHasPass(c, s, t); }
    }
    forall t | t in s.accepted ensures false {
      NotCanceled(c, s, t);
      AcceptedHasPlan(c, s, t);
    }
  }

  lemma NotCanceled(c: Config, s: State, t: Task)
    requires Inv(c, s) && Root !in s.cancelled && t in c.tasks
    ensures t in s.exec && s.exec[t].state != Canceled
  {
    hide WellFormed, TasksOk, ChainsOk, CancelledOk, ThreadsOk, LockOk, TraceOk, CtxOk;
    TaskAt(c, s, t);
  }

  lemma LoopRests(c: Config, s: State)
    requires Inv(c, s) && AllRest(s)
    ensures At(s, Loop, LoopExited) || (!s.signal && !s.timer)
  {
    hide WellFormed, TasksOk, ChainsOk, CancelledOk, LockOk;
    assert AtRest(s, Loop) && ThreadOk(s, Loop);
  }

  /** However invalidations interleave, the executor settles where a run without them would: when all threads
      have come to rest, every task has the state that the failing tasks alone determine, and no accepted
      invalidation is left. */
  lemma SettlesAsFresh(c: Config, fails: set<Task>, steps: seq<Step>, t: Task)
    requires IsRunFrom(c, Init(c), steps) && NoShutdown(fails, steps) && AllRest(After(c, Init(c), steps)) && t in c.tasks
    ensures After(c, Init(c), steps).exec[t].state == Expected(c, fails, t)
    ensures After(c, Init(c), steps).accepted == {}
  {
    hide WellFormed, IsRunFrom, After, NoShutdown, AllRest, Reachable, Inv, SoundInv, PassOwed, CallWaits, Executable;
    var s := After(c, Init(c), steps);
    Domains(c);
    InitInv(c);
    InitSound(c, fails);
    RunStaysSound(c, fails, Init(c), steps);
    assert Reachable(c, s) by { HasReached(c, steps); }
    ReachableInv(c, s);
    RestIsQuiet(c, s);
    assert Root !in s.cancelled by { StaysLive(c, fails, s); }
    NothingOwedAtRest(c, s);
    RestIsExpected(c, fails, s, t);
  }

  lemma StaysLive(c: Config, fails: set<Task>, s: State)
    requires s.exec.Keys == c.tasks == c.below.Keys && SoundInv(c, fails, s)
    ensures Root !in s.cancelled
  {}

  /** So the executor only comes to rest if each task that restarts itself has a failing dependency. */
  lemma RestartersNeverRest(c: Config, fails: set<Task>, steps: seq<Step>, t: Task)
    requires IsRunFrom(c, Init(c), steps) && NoShutdown(fails, steps) && RestartsItself(c, t) && t in c.below
    requires c.below[t] !! fails
    ensures !AllRest(After(c, Init(c), steps))
  {
    hide WellFormed, IsRunFrom, After, NoShutdown, AllRest, Reachable, Inv;
    var s := After(c, Init(c), steps);
    if AllRest(s) {
      HasReached(c, steps);
      SettlesAsFresh(c, fails, steps, t);
      NotEndedAtRest(c, s, t);
    }
  }

  lemma NotEndedAtRest(c: Config, s: State, t: Task)
    requires Reachable(c, s) && AllRest(s) && s.accepted == {} && RestartsItself(c, t)
    ensures !HasEnded(s.exec[t])
  {
    hide WellFormed, AllRest, Reachable, Inv;
    ReachableInv(c, s);
    RestIsQuiet(c, s);
    ReachableRestarts(c, s);
    assert RestartDue(s, t);
    assert s.exec[t].starts > 0 ==> RunOf(t, s.exec[t].starts - 1) !in RunIds(s.threads);
  }

  lemma HasReached(c: Config, steps: seq<Step>)
    requires IsRunFrom(c, Init(c), steps)
    ensures Reachable(c, After(c, Init(c), steps))
  {
    hide WellFormed, IsRunFrom, After;
  }
}
