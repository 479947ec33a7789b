/** Dependency consistency: if every task takes the changes of its dependencies and no pass starts a task
    that has a dependency with a pending invalidation, then whatever runs or ran has its dependencies done,
    and related tasks never run together. */
module Dependency {
  import opened Tasks
  import opened Machine
  import opened Invariant
  import opened Preservation
  import opened Safety
  import opened Invalidation

  ghost predicate AllTakeDependencyChange(c: Config) {
    Linked(c) && forall t, d :: c.accepts(t, DependencyChange(d))
  }

  /** The guard on passes, which the code does not enforce. */
  ghost predicate StartsClean(c: Config, s: State, step: Step)
    requires s.exec.Keys == c.tasks
  {
    step.OfLock? && step.act.Visit? && step.act.task in c.tasks && Executable(c, s, step.act.task) ==>
      CleanBelow(c, s, step.act.task)
  }

  predicate CleanBelow(c: Config, s: State, t: Task)
    requires s.exec.Keys == c.tasks && t in c.tasks
  {
    BelowIsInside(c, t);
    forall d :: d in c.below[t] ==> s.exec[d].pending == {}
  }

  ghost predicate IsCleanRun(c: Config, s: State, steps: seq<Step>)
    requires s.exec.Keys == c.tasks
    decreases |steps|
  {
    steps != [] ==>
    && Enabled(c, s, steps[0]) && Atomic(s, steps[0]) && StartsClean(c, s, steps[0])
    && IsCleanRun(c, Apply(c, s, steps[0]), steps[1..])
  }

  predicate IsBelow(c: Config, t: Task, u: Task) {
    u in c.below && t in c.below[u]
  }

  predicate Active(x: Execution) {
    x.state.Running? || x.state.Error? || x.state.Done?
  }

  predicate IsBusy(s: State, t: Task)
    requires t in s.exec
  {
    Current(s, t).Some? && Busy(Current(s, t).value)
  }

  /** Reset by the present plan after its run had ended. */
  predicate Gone(s: State, t: Task)
    requires t in s.exec
  {
    s.exec[t].state == Invalid && !IsBusy(s, t)
  }

  /** What a pair of a task `u` and a dependency `t` of it keeps at every step. */
  predicate PairOk(s: State, t: Task, u: Task)
    requires t in s.exec && u in s.exec
  {
    && (Active(s.exec[u]) ==> s.exec[t].state == Done || (Collected(s, u) && Gone(s, t)))
    && (InReset(s, u) ==> s.exec[t].state == Done || Gone(s, t))
    && (s.exec[t].pending != {} && Active(s.exec[u]) ==> s.exec[u].pending != {})
    && (Collected(s, t) && Active(s.exec[u]) ==> Collected(s, u))
  }

  predicate PlanOk(s: State, t: Task)
    requires t in s.exec
  {
    Collected(s, t) ==> s.exec[t].pending != {} && s.exec[t].state != Invalid
  }

  ghost predicate DepInv(c: Config, s: State)
    requires s.exec.Keys == c.tasks
  {
    && (forall t {:trigger PlanOk(s, t)} :: t in c.tasks ==> PlanOk(s, t))
    && (forall t, u {:trigger PairOk(s, t, u)} :: t in c.tasks && u in c.tasks && IsBelow(c, t, u) ==> PairOk(s, t, u))
  }

  lemma BelowIsRelated(c: Config, t: Task, u: Task)
    requires u in c.tasks && t in c.below[u]
    ensures t in c.tasks && t != u && c.below[t] <= c.below[u] && c.height[u] < c.height[t] && u !in c.below[t]
  {
    assert DepOk(c, u, t);
    BelowIsInside(c, u);
  }

  // ---------------------------------------------------------------------------------------------
  // Marks

  predicate NoneInvalid(c: Config, s: State, u: Task)
    requires s.exec.Keys == c.tasks && u in c.tasks
  {
    BelowIsInside(c, u);
    s.exec[u].state != Invalid && forall d :: d in c.below[u] ==> s.exec[d].state != Invalid
  }

  lemma MarkPasses(c: Config, s: State, marks: set<(Task, Event)>, t: Task, u: Task)
    requires AllTakeDependencyChange(c) && s.exec.Keys == c.tasks && t in c.tasks && u in c.dependents[t]
    requires Propagated(c, InvalidIn(s.exec), marks) && t in MarkedTasks(marks)
    requires u in c.tasks && s.exec[u].state != Invalid
    ensures u in MarkedTasks(marks)
  {
    hide WellFormed, Linked;
    var p :| p in marks && p.0 == t;
    assert Takes(c, InvalidIn(s.exec), u, DependencyChange(t));
    assert (u, DependencyChange(t)) in marks && (u, DependencyChange(t)).0 == u;
  }

  lemma LinkStep(c: Config, t: Task, u: Task) returns (y: Task)
    requires AllTakeDependencyChange(c) && t in c.tasks && u in c.tasks && IsBelow(c, t, u)
    ensures t in c.dependents
    ensures u in c.dependents[t] || (y in c.tasks && IsBelow(c, y, u) && IsBelow(c, t, y)
      && c.below[y] <= c.below[u] && c.height[u] < c.height[y] < c.height[t])
  {
    hide WellFormed;
    Domains(c);
    y := t;
    assert LinkedOver(c, t, u);
    if u !in c.dependents[t] {
      y :| y in c.tasks && y in c.below[u] && t in c.below[y] && u in c.dependents[y];
      BelowIsRelated(c, y, u);
      BelowIsRelated(c, t, y);
    }
  }

  lemma NoneInvalidBelow(c: Config, s: State, y: Task, u: Task)
    requires s.exec.Keys == c.tasks && u in c.tasks && NoneInvalid(c, s, u)
    requires y in c.tasks && IsBelow(c, y, u) && y in c.below && c.below[y] <= c.below[u]
    ensures NoneInvalid(c, s, y)
  {
    hide WellFormed;
  }

  /** A mark reaches every task above whose chain of dependencies has no invalid task. */
  lemma {:induction false} MarksReach(c: Config, s: State, marks: set<(Task, Event)>, t: Task, u: Task)
    requires s.exec.Keys == c.tasks && u in c.tasks && NoneInvalid(c, s, u)
    requires AllTakeDependencyChange(c) && t in c.tasks && IsBelow(c, t, u)
    requires Propagated(c, InvalidIn(s.exec), marks) && t in MarkedTasks(marks)
    ensures u in MarkedTasks(marks)
    decreases if c.height[t] > c.height[u] then c.height[t] - c.height[u] else 0
  {
    hide WellFormed, Linked, Propagated, MarkedTasks, AllTakeDependencyChange;
    BelowIsRelated(c, t, u);
    var y := LinkStep(c, t, u);
    if u in c.dependents[t] {
      MarkPasses(c, s, marks, t, u);
    } else {
      NoneInvalidBelow(c, s, y, u);
      MarksReach(c, s, marks, t, y);
      MarksReach(c, s, marks, y, u);
    }
  }

  lemma MarkedPair(c: Config, s: State, s': State, r: Task, e: Event, t: Task, u: Task)
    requires AllTakeDependencyChange(c) && Inv(c, s) && DepInv(c, s)
    requires r in c.tasks && t in c.tasks && u in c.tasks && t in c.below[u]
    requires s'.exec == AddMarks(s.exec, Marks(c, InvalidIn(s.exec), r, e)) && s'.lock == s.lock
    requires Current(s', t) == Current(s, t)
    ensures PairOk(s', t, u)
  {
    hide WellFormed, Marks, AddMarks, TasksOk, ChainsOk, LockOk, CancelledOk, ThreadsOk;
    var marks := Marks(c, InvalidIn(s.exec), r, e);
    BelowIsInside(c, u);
    assert IsBelow(c, t, u) && PairOk(s, t, u) && PlanOk(s, u);
    MarkedExecution(s.exec, marks, t);
    MarkedExecution(s.exec, marks, u);
    if s'.exec[t].pending != {} && Active(s.exec[u]) {
      PendingGrows(s.exec, marks, u);
      if s.exec[t].pending == {} && !Collected(s, u) {
        PendingFrom(s.exec, marks, t);
        MarksPropagate(c, InvalidIn(s.exec), r, e);
        forall d | d in c.below[u] ensures s.exec[d].state != Invalid {
          assert IsBelow(c, d, u) && PairOk(s, d, u);
        }
        MarksReach(c, s, marks, t, u);
        PendingGrows(s.exec, marks, u);
      }
    }
  }

  lemma PendingGrows(exec: map<Task, Execution>, marks: set<(Task, Event)>, t: Task)
    requires t in exec
    ensures exec[t].pending <= AddMarks(exec, marks)[t].pending
    ensures t in MarkedTasks(marks) ==> AddMarks(exec, marks)[t].pending != {}
  {
    if t in MarkedTasks(marks) {
      var p :| p in marks && p.0 == t;
      PendingAfter(exec, marks, t, p.1);
    }
  }

  lemma PendingFrom(exec: map<Task, Execution>, marks: set<(Task, Event)>, t: Task)
    requires t in exec && exec[t].pending == {} && AddMarks(exec, marks)[t].pending != {}
    ensures t in MarkedTasks(marks)
  {
    var e :| e in AddMarks(exec, marks)[t].pending;
    PendingAfter(exec, marks, t, e);
    assert (t, e).0 == t;
  }

  lemma MarkDep(c: Config, s: State, s': State, r: Task, e: Event)
    requires AllTakeDependencyChange(c) && Inv(c, s) && DepInv(c, s) && r in c.tasks
    requires s'.exec == AddMarks(s.exec, Marks(c, InvalidIn(s.exec), r, e)) && s'.lock == s.lock
    requires forall t :: t in c.tasks ==> Current(s', t) == Current(s, t)
    ensures DepInv(c, s')
  {
    hide WellFormed, Marks, AddMarks, TasksOk, ChainsOk, LockOk, CancelledOk, ThreadsOk, Current;
    var marks := Marks(c, InvalidIn(s.exec), r, e);
    forall t | t in c.tasks ensures PlanOk(s', t) {
      assert PlanOk(s, t);
      MarkedExecution(s.exec, marks, t);
      PendingGrows(s.exec, marks, t);
    }
    forall t, u | t in c.tasks && u in c.tasks && IsBelow(c, t, u) ensures PairOk(s', t, u) {
      MarkedPair(c, s, s', r, e, t, u);
    }
  }

  // ---------------------------------------------------------------------------------------------
  // Other steps

  /** A step that changes neither states, pending sets nor the plan, and makes no run busy. */
  lemma SameDep(c: Config, s: State, s': State)
    requires s.exec.Keys == c.tasks == s'.exec.Keys && DepInv(c, s)
    requires forall t :: t in c.tasks ==>
      && s'.exec[t].state == s.exec[t].state && s'.exec[t].pending == s.exec[t].pending
      && (IsBusy(s', t) ==> IsBusy(s, t))
      && Collected(s', t) == Collected(s, t) && InReset(s', t) == InReset(s, t)
    ensures DepInv(c, s')
  {
    hide WellFormed, IsBusy;
    forall t | t in c.tasks ensures PlanOk(s', t) { assert PlanOk(s, t); }
    forall t, u | t in c.tasks && u in c.tasks && IsBelow(c, t, u) ensures PairOk(s', t, u) {
      assert PairOk(s, t, u);
    }
  }

  lemma BusyStays(c: Config, s: State, s': State)
    requires s.exec.Keys == c.tasks == s'.exec.Keys
    requires forall t :: t in c.tasks ==> s'.exec[t].starts == s.exec[t].starts
    requires forall t, n :: RunOf(t, n) in s'.threads && Busy(s'.threads[RunOf(t, n)]) ==>
      RunOf(t, n) in s.threads && Busy(s.threads[RunOf(t, n)])
    ensures forall t :: t in c.tasks && IsBusy(s', t) ==> IsBusy(s, t)
  {
    hide WellFormed;
  }

  lemma WriteDep(c: Config, s: State, th: ThreadId)
    requires Inv(c, s) && DepInv(c, s) && RunEnabled(c, s, th, Write)
    ensures DepInv(c, OutcomeWritten(s, th))
  {
    hide WellFormed, ChainsOk, LockOk, CancelledOk;
    var s' := OutcomeWritten(s, th);
    var r := th.task;
    assert ThreadOk(s, th) && Good(c, s, r) && IsBusy(s, r);
    hide TasksOk, ThreadsOk, Good;
    forall t | t in c.tasks ensures PlanOk(s', t) { assert PlanOk(s, t); }
    forall t, u | t in c.tasks && u in c.tasks && IsBelow(c, t, u) ensures PairOk(s', t, u) {
      assert PairOk(s, t, u);
    }
  }

  /** Beginning to reset `r` leaves every pair in order: its dependents are still to be reset, or are not
      active, because they were collected with it. */
  lemma BeginResetDep(c: Config, s: State, th: ThreadId, r: Task)
    requires Inv(c, s) && DepInv(c, s) && LockEnabled(c, s, th, BeginReset(r))
    ensures DepInv(c, ResetBegun(s, th, r))
  {
    hide WellFormed, TasksOk, ChainsOk, LockOk, CancelledOk, ThreadsOk, Good, IsBusy;
    var s' := ResetBegun(s, th, r);
    TaskAt(c, s, r);
    EndedIsNotBusy(c, s, r);
    ResetKeepsBusy(s, th, r);
    assert PlanOk(s, r);
    forall t | t in c.tasks ensures PlanOk(s', t) { assert PlanOk(s, t); }
    forall t, u | t in c.tasks && u in c.tasks && IsBelow(c, t, u) ensures PairOk(s', t, u) {
      BelowIsRelated(c, t, u);
      assert PairOk(s, t, u);
    }
  }

  lemma ResetKeepsBusy(s: State, th: ThreadId, r: Task)
    requires s.lock.Planner? && r in s.exec
    ensures forall t :: t in s.exec ==> IsBusy(ResetBegun(s, th, r), t) == IsBusy(s, t)
  {}

  lemma EndedIsNotBusy(c: Config, s: State, t: Task)
    requires s.exec.Keys == c.tasks && t in c.tasks && Good(c, s, t)
    ensures s.exec[t].state.Done? || s.exec[t].state.Error? ==> !IsBusy(s, t)
  {
    hide WellFormed;
  }

  lemma EndResetDep(c: Config, s: State, th: ThreadId)
    requires Inv(c, s) && DepInv(c, s) && LockEnabled(c, s, th, EndReset)
    ensures DepInv(c, ResetEnded(s, th))
  {
    hide WellFormed, ChainsOk, CancelledOk, ThreadsOk;
    var s' := ResetEnded(s, th);
    var r := s.lock.task;
    assert Good(c, s, r);
    hide TasksOk;
    forall t | t in c.tasks ensures PlanOk(s', t) { assert PlanOk(s, t); }
    forall t, u | t in c.tasks && u in c.tasks && IsBelow(c, t, u) ensures PairOk(s', t, u) {
      BelowIsRelated(c, t, u);
      assert PairOk(s, t, u);
    }
  }

  lemma AcquirePlanDep(c: Config, s: State, th: ThreadId)
    requires Inv(c, s) && DepInv(c, s) && LockEnabled(c, s, th, AcquirePlan)
    ensures DepInv(c, ApplyLock(c, s, th, AcquirePlan))
  {
    hide WellFormed, ChainsOk, CancelledOk, TasksOk, ThreadsOk;
    var s' := ApplyLock(c, s, th, AcquirePlan);
    forall t | t in c.tasks ensures PlanOk(s', t) {}
    forall t, u | t in c.tasks && u in c.tasks && IsBelow(c, t, u) ensures PairOk(s', t, u) {
      assert PairOk(s, t, u);
    }
  }

  lemma VisitDep(c: Config, s: State, th: ThreadId, r: Task)
    requires Inv(c, s) && DepInv(c, s) && LockEnabled(c, s, th, Visit(r)) && StartsClean(c, s, OfLock(th, Visit(r)))
    ensures DepInv(c, Visited(c, s, th, r))
  {
    hide WellFormed, ChainsOk, CancelledOk, LockOk;
    var s' := Visited(c, s, th, r);
    RunIsFresh(s, r);
    assert Good(c, s, r);
    hide TasksOk, ThreadsOk;
    forall t | t in c.tasks ensures PlanOk(s', t) { assert PlanOk(s, t); }
    forall t, u | t in c.tasks && u in c.tasks && IsBelow(c, t, u) ensures PairOk(s', t, u) {
      BelowIsRelated(c, t, u);
      assert PairOk(s, t, u);
    }
  }

  lemma LockStepDep(c: Config, s: State, th: ThreadId, act: LockStep)
    requires Inv(c, s) && DepInv(c, s) && LockEnabled(c, s, th, act) && StartsClean(c, s, OfLock(th, act))
    ensures DepInv(c, ApplyLock(c, s, th, act))
  {
    hide WellFormed, ChainsOk, CancelledOk, DepInv, TasksOk;
    match act
    case AcquirePlan => AcquirePlanDep(c, s, th);
    case BeginReset(t) => BeginResetDep(c, s, th, t);
    case EndReset => EndResetDep(c, s, th);
    case Visit(t) => VisitDep(c, s, th, t);
    case _ => QuietLockDep(c, s, th, act);
  }

  lemma QuietLockDep(c: Config, s: State, th: ThreadId, act: LockStep)
    requires Inv(c, s) && DepInv(c, s) && LockEnabled(c, s, th, act)
    requires act.ReleasePlan? || act.CheckLive? || act.AcquirePass? || act.ReleasePass?
    ensures DepInv(c, ApplyLock(c, s, th, act))
  {
    hide WellFormed, Inv, DepInv, IsBusy, ApplyLock, LockEnabled;
    InvKeys(c, s);
    QuietLockSame(c, s, th, act);
    BusyStays(c, s, ApplyLock(c, s, th, act));
    SameDep(c, s, ApplyLock(c, s, th, act));
  }

  lemma QuietLockSame(c: Config, s: State, th: ThreadId, act: LockStep)
    requires s.exec.Keys == c.tasks && LockEnabled(c, s, th, act)
    requires act.ReleasePlan? || act.CheckLive? || act.AcquirePass? || act.ReleasePass?
    ensures ApplyLock(c, s, th, act).exec == s.exec
    ensures forall u :: u in ApplyLock(c, s, th, act).threads && Busy(ApplyLock(c, s, th, act).threads[u]) ==>
      u in s.threads && Busy(s.threads[u])
    ensures forall t :: Collected(ApplyLock(c, s, th, act), t) == Collected(s, t)
    ensures forall t :: InReset(ApplyLock(c, s, th, act), t) == InReset(s, t)
  {
    hide WellFormed, AfterPass, PlanReleased;
    if act.ReleasePlan? { ReleaseBusy(s, th); }
    if act.CheckLive? { LeaveBusy(s, th); }
    if act.ReleasePass? { LeaveBusy(s.(lock := Free), th); }
  }

  lemma ReleaseBusy(s: State, th: ThreadId)
    ensures PlanReleased(s, th).exec == s.exec && PlanReleased(s, th).lock == Free
    ensures forall u :: u in PlanReleased(s, th).threads && Busy(PlanReleased(s, th).threads[u]) ==>
      u in s.threads && Busy(s.threads[u])
  {}

  lemma LeaveBusy(s: State, th: ThreadId)
    ensures AfterPass(s, th).lock == s.lock
    ensures forall u :: u in AfterPass(s, th).threads && Busy(AfterPass(s, th).threads[u]) ==>
      u in s.threads && Busy(s.threads[u])
  {}

  lemma KeepAliveDep(c: Config, s: State, th: ThreadId)
    requires AllTakeDependencyChange(c) && Inv(c, s) && DepInv(c, s) && RunEnabled(c, s, th, KeepAlive)
    requires KeptAliveSends(c, s, th)
    ensures DepInv(c, KeptAlive(c, s, th))
  {
    hide WellFormed, ChainsOk, CancelledOk, DepInv, TasksOk, LockOk, ThreadsOk, Marks, AddMarks;
    var s' := KeptAlive(c, s, th);
    forall u | u in c.tasks ensures Current(s', u) == Current(s, u) {
      MarkedExecution(s.exec, Marks(c, InvalidIn(s.exec), th.task, KeepAliveStopped), u);
    }
    MarkDep(c, s, s', th.task, KeepAliveStopped);
  }

  lemma RunStepDep(c: Config, s: State, th: ThreadId, r: RunStep)
    requires AllTakeDependencyChange(c) && Inv(c, s) && DepInv(c, s) && RunEnabled(c, s, th, r)
    ensures DepInv(c, ApplyRun(c, s, th, r))
  {
    hide WellFormed, ChainsOk, CancelledOk, DepInv, TasksOk, LockOk, ThreadsOk, Marks, AddMarks;
    var s' := ApplyRun(c, s, th, r);
    var t := th.task;
    if r == Write {
      WriteDep(c, s, th);
    } else if r == KeepAlive && KeptAliveSends(c, s, th) {
      KeepAliveDep(c, s, th);
    } else {
      QuietRunDep(c, s, th, r);
    }
  }

  lemma QuietRunDep(c: Config, s: State, th: ThreadId, r: RunStep)
    requires s.exec.Keys == c.tasks && DepInv(c, s) && RunEnabled(c, s, th, r) && r != Write
    requires r == KeepAlive ==> !KeptAliveSends(c, s, th)
    ensures DepInv(c, ApplyRun(c, s, th, r))
  {
    hide WellFormed, DepInv, Marks, AddMarks, IsBusy, ApplyRun, RunEnabled;
    QuietRunSame(c, s, th, r);
    SameDep(c, s, ApplyRun(c, s, th, r));
  }

  lemma QuietRunSame(c: Config, s: State, th: ThreadId, r: RunStep)
    requires s.exec.Keys == c.tasks && RunEnabled(c, s, th, r) && r != Write
    requires r == KeepAlive ==> !KeptAliveSends(c, s, th)
    ensures var s' := ApplyRun(c, s, th, r); forall t :: t in c.tasks ==>
      && s'.exec[t].state == s.exec[t].state && s'.exec[t].pending == s.exec[t].pending
      && (IsBusy(s', t) ==> IsBusy(s, t))
      && Collected(s', t) == Collected(s, t) && InReset(s', t) == InReset(s, t)
  {
    hide WellFormed, ApplyRun, RunEnabled, IsBusy, Busy, OthersStay, Accepts;
    RunLeavesOthers(c, s, th, r);
    QuietRunKeeps(c, s, th, r);
    QuietRunBusy(c, s, th, r);
    BusyStays(c, s, ApplyRun(c, s, th, r));
  }

  lemma QuietRunKeeps(c: Config, s: State, th: ThreadId, r: RunStep)
    requires s.exec.Keys == c.tasks && RunEnabled(c, s, th, r) && r != Write
    requires r == KeepAlive ==> !KeptAliveSends(c, s, th)
    ensures forall t :: t in c.tasks ==>
      && ApplyRun(c, s, th, r).exec[t].state == s.exec[t].state
      && ApplyRun(c, s, th, r).exec[t].pending == s.exec[t].pending
      && ApplyRun(c, s, th, r).exec[t].starts == s.exec[t].starts
  {
    hide WellFormed, Marks, AddMarks, Cancelled, Accepts;
  }

  lemma QuietRunBusy(c: Config, s: State, th: ThreadId, r: RunStep)
    requires s.exec.Keys == c.tasks && RunEnabled(c, s, th, r)
    ensures forall u :: u in ApplyRun(c, s, th, r).threads && Busy(ApplyRun(c, s, th, r).threads[u]) ==>
      u in s.threads && Busy(s.threads[u])
  {
    hide WellFormed, Marks, AddMarks, Cancelled, Accepts;
    RunLeavesOthers(c, s, th, r);
  }

  lemma OtherStepCurrent(c: Config, s: State, step: Step, t: Task)
    requires Inv(c, s) && Enabled(c, s, step) && t in c.tasks && !step.OfLock? && !step.OfRun?
    ensures Current(Apply(c, s, step), t) == Current(s, t)
  {
    hide WellFormed, ChainsOk, CancelledOk, TasksOk, LockOk, Marks, AddMarks;
    if step.Signal? { assert ThreadOk(s, step.thread); }
    hide ThreadsOk;
    MarkEffect(c, s, step, t);
  }

  /** What a step other than those of runs and of the lock's holder does to the executions. */
  lemma OtherStepMarks(c: Config, s: State, step: Step)
    requires s.exec.Keys == c.tasks && Enabled(c, s, step) && !step.OfLock? && !step.OfRun?
    ensures step.Invalidate? || step.HandlerInvalidate? ==>
      Apply(c, s, step).exec in {s.exec, AddMarks(s.exec, Marks(c, InvalidIn(s.exec), step.task, step.event))}
    ensures !step.Invalidate? && !step.HandlerInvalidate? ==> Apply(c, s, step).exec == s.exec
    ensures Apply(c, s, step).lock == s.lock
  {
    hide WellFormed, Marks, AddMarks, InvalidIn, Accepts, MarkedTasks;
  }

  lemma OtherStepDep(c: Config, s: State, step: Step)
    requires AllTakeDependencyChange(c) && Inv(c, s) && DepInv(c, s) && Enabled(c, s, step)
    requires !step.OfLock? && !step.OfRun?
    ensures DepInv(c, Apply(c, s, step))
  {
    hide WellFormed, Inv, DepInv, AddMarks, Current, Apply, Enabled, AllTakeDependencyChange;
    InvKeys(c, s);
    var s' := Apply(c, s, step);
    OtherStepMarks(c, s, step);
    forall t | t in c.tasks ensures Current(s', t) == Current(s, t) { OtherStepCurrent(c, s, step, t); }
    if s'.exec == s.exec {
      SameDep(c, s, s');
    } else {
      MarksInside(c, s, step);
      MarkDep(c, s, s', step.task, step.event);
    }
  }

  lemma MarksInside(c: Config, s: State, step: Step)
    requires s.exec.Keys == c.tasks && Enabled(c, s, step) && (step.Invalidate? || step.HandlerInvalidate?)
    ensures step.task in c.tasks
  {
    hide WellFormed;
  }

  lemma StepDep(c: Config, s: State, step: Step)
    requires AllTakeDependencyChange(c) && Inv(c, s) && DepInv(c, s)
    requires Enabled(c, s, step) && StartsClean(c, s, step)
    ensures DepInv(c, Apply(c, s, step))
  {
    hide WellFormed, TasksOk, ChainsOk, CancelledOk, DepInv, LockOk, ThreadsOk, ApplyRun, ApplyLock;
    match step
    case OfRun(th, r) => RunStepDep(c, s, th, r);
    case OfLock(th, act) => LockStepDep(c, s, th, act);
    case _ => OtherStepDep(c, s, step);
  }

  // ---------------------------------------------------------------------------------------------
  // Runs

  ghost predicate CleanlyReachable(c: Config, s: State)
    ensures CleanlyReachable(c, s) ==> s.exec.Keys == c.tasks
  {
    exists steps :: IsCleanRun(c, Init(c), steps) && IsRunFrom(c, Init(c), steps) && s == After(c, Init(c), steps)
  }

  lemma {:induction false} RunDep(c: Config, s: State, steps: seq<Step>)
    requires AllTakeDependencyChange(c) && Inv(c, s) && DepInv(c, s)
    requires IsCleanRun(c, s, steps) && IsRunFrom(c, s, steps)
    ensures Inv(c, After(c, s, steps)) && DepInv(c, After(c, s, steps))
    decreases |steps|
  {
    hide WellFormed, TasksOk, ChainsOk, CancelledOk, DepInv, LockOk, ThreadsOk, Apply, Enabled;
    if steps != [] {
      StepInv(c, s, steps[0]);
      StepDep(c, s, steps[0]);
      RunDep(c, Apply(c, s, steps[0]), steps[1..]);
    }
  }

  lemma InitDep(c: Config)
    ensures Init(c).exec.Keys == c.tasks && DepInv(c, Init(c))
  {
    hide WellFormed;
  }

  lemma CleanlyReachableDep(c: Config, s: State)
    requires AllTakeDependencyChange(c) && CleanlyReachable(c, s)
    ensures Inv(c, s) && DepInv(c, s)
  {
    hide WellFormed, IsCleanRun, IsRunFrom, After, DepInv, Inv;
    var steps :| IsCleanRun(c, Init(c), steps) && IsRunFrom(c, Init(c), steps) && s == After(c, Init(c), steps);
    InitInv(c);
    InitDep(c);
    RunDep(c, Init(c), steps);
  }

  /** A task `u` that runs or ran has its dependency `t` done, and a pending invalidation of `t` has reached
      `u` unless that is invalid or canceled. */
  predicate ConsistentPair(s: State, t: Task, u: Task)
    requires t in s.exec && u in s.exec
  {
    && (Active(s.exec[u]) ==> s.exec[t].state == Done)
    && (s.exec[t].pending != {} ==> s.exec[u].state.Invalid? || s.exec[u].state.Canceled? || s.exec[u].pending != {})
  }

  ghost predicate Consistent(c: Config, s: State)
    requires s.exec.Keys == c.tasks
  {
    forall t, u {:trigger ConsistentPair(s, t, u)} ::
      t in c.tasks && u in c.tasks && IsBelow(c, t, u) ==> ConsistentPair(s, t, u)
  }

  predicate BetweenPlans(s: State) {
    !s.lock.Planner? && !s.lock.Resetter?
  }

  /** Every state of the run that lies between plans is consistent. */
  ghost predicate KeepsConsistent(c: Config, s: State, steps: seq<Step>)
    requires s.exec.Keys == c.tasks && IsRunFrom(c, s, steps)
    decreases |steps|
  {
    && (BetweenPlans(s) ==> Consistent(c, s))
    && (steps != [] ==> KeepsConsistent(c, Apply(c, s, steps[0]), steps[1..]))
  }

  lemma DepIsConsistent(c: Config, s: State)
    requires s.exec.Keys == c.tasks && DepInv(c, s) && BetweenPlans(s)
    ensures Consistent(c, s)
  {
    hide WellFormed;
    forall t, u | t in c.tasks && u in c.tasks && IsBelow(c, t, u) ensures ConsistentPair(s, t, u) {
      assert PairOk(s, t, u);
    }
  }

  /** Between plans of a run with clean starts, a task that runs or ran has all its dependencies done, and one
      with a pending invalidation has only dependents that are invalid, canceled or pending themselves. */
  lemma DependencyConsistency(c: Config, s: State, t: Task, u: Task)
    requires AllTakeDependencyChange(c) && CleanlyReachable(c, s) && BetweenPlans(s)
    requires u in c.tasks && t in c.below[u] && t in c.tasks
    ensures s.exec[u].state in {Running, Error, Done} ==> s.exec[t].state == Done
    ensures s.exec[t].pending != {} ==> s.exec[u].state in {Invalid, Canceled} || s.exec[u].pending != {}
  {
    hide WellFormed, CleanlyReachable, Inv, DepInv;
    CleanlyReachableDep(c, s);
    DepIsConsistent(c, s);
    BelowIsInside(c, u);
    assert IsBelow(c, t, u) && ConsistentPair(s, t, u);
  }

  /** A pass that starts `u` while a dependency of it has a pending invalidation leaves the pair inconsistent,
      because a task that is about to be started has none pending itself. */
  lemma UncleanStartShows(c: Config, s: State, th: ThreadId, u: Task)
    requires Inv(c, s) && s.exec.Keys == c.tasks && LockEnabled(c, s, th, Visit(u)) && u in c.tasks && Executable(c, s, u)
    requires !CleanBelow(c, s, u)
    ensures BetweenPlans(Visited(c, s, th, u)) && !Consistent(c, Visited(c, s, th, u))
  {
    hide WellFormed, TasksOk, ChainsOk, CancelledOk, ThreadsOk, LockOk, TraceOk, CtxOk;
    TaskAt(c, s, u);
    BelowIsInside(c, u);
    var s' := Visited(c, s, th, u);
    var t :| t in c.below[u] && s.exec[t].pending != {};
    assert IsBelow(c, t, u) && !ConsistentPair(s', t, u);
  }

  lemma {:induction false} ConsistentIffCleanFrom(c: Config, s: State, steps: seq<Step>)
    requires AllTakeDependencyChange(c) && Inv(c, s) && s.exec.Keys == c.tasks && DepInv(c, s) && IsRunFrom(c, s, steps)
    ensures KeepsConsistent(c, s, steps) <==> IsCleanRun(c, s, steps)
    decreases |steps|
  {
    hide WellFormed, Inv, DepInv, Apply, Enabled, Consistent, StartsClean, AllTakeDependencyChange;
    if BetweenPlans(s) { DepIsConsistent(c, s); }
    if steps != [] {
      StepInv(c, s, steps[0]);
      if StartsClean(c, s, steps[0]) {
        StepDep(c, s, steps[0]);
        ConsistentIffCleanFrom(c, Apply(c, s, steps[0]), steps[1..]);
      } else {
        UncleanStepShows(c, s, steps[0]);
      }
    }
  }

  lemma UncleanStepShows(c: Config, s: State, step: Step)
    requires Inv(c, s) && s.exec.Keys == c.tasks && Enabled(c, s, step) && !StartsClean(c, s, step)
    ensures BetweenPlans(Apply(c, s, step)) && !Consistent(c, Apply(c, s, step))
  {
    hide WellFormed, Inv, Consistent, CleanBelow;
    UncleanStartShows(c, s, step.thread, step.act.task);
  }

  /** The guard is the exact condition: a run keeps every state between plans consistent iff none of its passes
      starts a task while a dependency of it has a pending invalidation. */
  lemma ConsistentIffClean(c: Config, steps: seq<Step>)
    requires AllTakeDependencyChange(c) && IsRunFrom(c, Init(c), steps)
    ensures KeepsConsistent(c, Init(c), steps) <==> IsCleanRun(c, Init(c), steps)
  {
    hide WellFormed, AllTakeDependencyChange, Inv, DepInv, IsRunFrom, KeepsConsistent, IsCleanRun;
    InitInv(c);
    InitDep(c);
    ConsistentIffCleanFrom(c, Init(c), steps);
  }

  /** At no time, inside a plan or not, do a task and a dependency of it both have a run that has yet to
      write its outcome. */
  lemma RelatedNeverRunTogether(c: Config, s: State, t: Task, u: Task, rt: ThreadId, ru: ThreadId)
    requires AllTakeDependencyChange(c) && CleanlyReachable(c, s)
    requires u in c.tasks && t in c.tasks && t in c.below[u]
    requires IsRun(c, s, rt) && rt.task == t && IsRun(c, s, ru) && ru.task == u
    ensures !(Busy(s.threads[rt]) && Busy(s.threads[ru]))
  {
    hide WellFormed, CleanlyReachable;
    CleanlyReachableDep(c, s);
    BelowIsInside(c, u);
    assert ThreadOk(s, rt) && ThreadOk(s, ru);
    assert IsBelow(c, t, u) && PairOk(s, t, u) && Good(c, s, t) && Good(c, s, u);
  }
}
