/** A run that nothing invalidates: it ends within a bounded number of steps, its final states depend only
    on which tasks fail, and the wait group is only done at that point. */
module Uninvalidated {
  import opened Tasks
  import opened Machine
  import opened Invariant
  import opened Preservation
  import opened Safety
  import opened Wakeup
  import opened Progress
  import opened Totals

  /** If the step is the end of a task's body, the body fails exactly if the task is in `fails`. */
  predicate FailsIfIn(fails: set<Task>, step: Step) {
    step.OfRun? && step.thread.RunOf? && step.run.Decide? ==> (step.run.failed <==> step.thread.task in fails)
  }

  predicate Plain(fails: set<Task>, step: Step) {
    Internal(step) && FailsIfIn(fails, step)
  }

  ghost predicate IsPlainRun(c: Config, fails: set<Task>, s: State, steps: seq<Step>)
    requires s.exec.Keys == c.tasks
    decreases |steps|
  {
    steps != [] ==>
    && Enabled(c, s, steps[0]) && Plain(fails, steps[0]) && IsPlainRun(c, fails, Apply(c, s, steps[0]), steps[1..])
  }

  ghost function PlainEnd(c: Config, fails: set<Task>, s: State, steps: seq<Step>): (s': State)
    requires s.exec.Keys == c.tasks && IsPlainRun(c, fails, s, steps)
    ensures s'.exec.Keys == c.tasks
    decreases |steps|
  {
    if steps == [] then s else PlainEnd(c, fails, Apply(c, s, steps[0]), steps[1..])
  }

  /** The state a task must end in: not run if a dependency fails, else by its own outcome. */
  function Expected(c: Config, fails: set<Task>, t: Task): TaskState
    requires t in c.tasks
  {
    if c.below[t] !! fails then (if t in fails then Error else Done) else Invalid
  }

  // ---------------------------------------------------------------------------------------------
  // What holds throughout such a run

  predicate PlainTask(c: Config, fails: set<Task>, s: State, t: Task)
    requires s.exec.Keys == c.tasks && t in c.tasks
  {
    BelowIsInside(c, t);
    var x := s.exec[t];
    && x.resets == 0 && x.pending == {} && x.state != Canceled
    && (x.state == Done ==> t !in fails) && (x.state == Error ==> t in fails)
    && (x.state != Invalid ==> forall d :: d in c.below[t] ==> s.exec[d].state == Done)
  }

  predicate PlainThread(fails: set<Task>, th: ThreadId, ph: Phase) {
    match th
    case Main => true
    case Loop => ph == Selecting
    case RunOf(t, n) =>
      && n == 0 && !ph.Signalling?
      && (ph.Decided? ==> ph.outcome == (if t in fails then Failure else Success) && (ph.failed <==> t in fails))
    case _ => false
  }

  ghost predicate PlainInv(c: Config, fails: set<Task>, s: State)
    requires s.exec.Keys == c.tasks
  {
    && s.cancelled == {} && !s.signal && !s.timer
    && !s.lock.Resetter? && (s.lock.Planner? ==> s.lock.todo == {})
    && (forall t {:trigger PlainTask(c, fails, s, t)} :: t in c.tasks ==> PlainTask(c, fails, s, t))
    && (forall th {:trigger PlainThread(fails, th, s.threads[th])} :: th in s.threads ==>
         PlainThread(fails, th, s.threads[th]))
  }

  /** Other tasks stay as they are, and a task that is done stays done. */
  lemma PlainTasksFrame(c: Config, fails: set<Task>, s: State, s': State, k: Task)
    requires s.exec.Keys == c.tasks == s'.exec.Keys && PlainInv(c, fails, s) && k in c.tasks
    requires s'.exec == s.exec[k := s'.exec[k]] && (s.exec[k].state == Done ==> s'.exec[k].state == Done)
    requires PlainTask(c, fails, s', k)
    ensures forall t :: t in c.tasks ==> PlainTask(c, fails, s', t)
  {
    forall t | t in c.tasks ensures PlainTask(c, fails, s', t) {
      assert PlainTask(c, fails, s, t);
      BelowIsInside(c, t);
      hide WellFormed;
    }
  }

  lemma PlainThreads(fails: set<Task>, s: State, s': State, th: ThreadId)
    requires forall u :: u in s.threads ==> PlainThread(fails, u, s.threads[u])
    requires OthersStay(s, s', th) && (th in s'.threads ==> PlainThread(fails, th, s'.threads[th]))
    ensures forall u :: u in s'.threads ==> PlainThread(fails, u, s'.threads[u])
  {
    forall u | u in s'.threads ensures PlainThread(fails, u, s'.threads[u]) {
      if u != th { assert PlainThread(fails, u, s.threads[u]); }
    }
  }

  /** What a step of a run keeps of its own task. */
  lemma RunStepOwnTask(c: Config, fails: set<Task>, s: State, th: ThreadId, r: RunStep)
    requires NoneRestarts(c) && Inv(c, s) && PlainInv(c, fails, s) && RunEnabled(c, s, th, r)
    ensures ApplyRun(c, s, th, r).exec == s.exec[th.task := ApplyRun(c, s, th, r).exec[th.task]]
    ensures s.exec[th.task].state == Done ==> ApplyRun(c, s, th, r).exec[th.task].state == Done
    ensures PlainTask(c, fails, ApplyRun(c, s, th, r), th.task)
  {
    hide WellFormed, ChainsOk, CancelledOk, LockOk, TasksOk, ThreadsOk, PlainInv, TraceOk, CtxOk, Marks, AddMarks, Cancelled;
    var t := th.task;
    ThreadAt(c, s, th);
    TaskAt(c, s, t);
    PlainAt(c, fails, s, th);
    PlainTaskAt(c, fails, s, t);
    NeverDown(c, fails, s);
    BelowIsInside(c, t);
    NeverSends(c, s, th);
  }

  lemma NeverSends(c: Config, s: State, th: ThreadId)
    requires NoneRestarts(c) && s.exec.Keys == c.tasks && IsRun(c, s, th)
    ensures !KeptAliveSends(c, s, th)
  {
    hide WellFormed;
    assert !RestartsItself(c, th.task);
  }

  /** What a step of a run keeps of its own thread. */
  lemma RunStepOwnThread(c: Config, fails: set<Task>, s: State, th: ThreadId, r: RunStep)
    requires NoneRestarts(c) && Inv(c, s) && PlainInv(c, fails, s)
    requires RunEnabled(c, s, th, r) && Plain(fails, OfRun(th, r))
    ensures th in ApplyRun(c, s, th, r).threads && PlainThread(fails, th, ApplyRun(c, s, th, r).threads[th])
  {
    hide WellFormed, Inv, PlainInv, Marks, AddMarks, Cancelled;
    InvKeys(c, s);
    PlainAt(c, fails, s, th);
    NeverDown(c, fails, s);
    if r.Decide? { NothingCancelled(s.threads[th].ctx); }
    NeverSends(c, s, th);
  }

  lemma NeverDown(c: Config, fails: set<Task>, s: State)
    requires s.exec.Keys == c.tasks && PlainInv(c, fails, s)
    ensures s.cancelled == {}
  {
    hide WellFormed;
  }

  lemma RunStepPlain(c: Config, fails: set<Task>, s: State, th: ThreadId, r: RunStep)
    requires NoneRestarts(c) && Inv(c, s) && PlainInv(c, fails, s)
    requires RunEnabled(c, s, th, r) && Plain(fails, OfRun(th, r))
    ensures PlainInv(c, fails, ApplyRun(c, s, th, r))
  {
    hide WellFormed, ChainsOk, CancelledOk, LockOk, TasksOk, ThreadsOk, ApplyRun, PlainTask, PlainThread, NoneRestarts;
    var s' := ApplyRun(c, s, th, r);
    RunStepOwnTask(c, fails, s, th, r);
    RunStepOwnThread(c, fails, s, th, r);
    RunLeavesOthers(c, s, th, r);
    PlainTasksFrame(c, fails, s, s', th.task);
    PlainThreads(fails, s, s', th);
  }

  lemma LockStepPlain(c: Config, fails: set<Task>, s: State, th: ThreadId, act: LockStep)
    requires NoneRestarts(c) && Inv(c, s) && PlainInv(c, fails, s) && LockEnabled(c, s, th, act)
    ensures PlainInv(c, fails, ApplyLock(c, s, th, act))
  {
    hide WellFormed, ChainsOk, CancelledOk, TasksOk, ThreadsOk;
    var s' := ApplyLock(c, s, th, act);
    assert PlainThread(fails, th, s.threads[th]) && HoldsRightly(s, th);
    hide LockOk;
    match act
    case Visit(t) => VisitPlain(c, fails, s, th, t);
    case AcquirePlan =>
      assert Collect(c, s) == {} by {
        forall t | t in c.tasks ensures s.exec[t].pending == {} { assert PlainTask(c, fails, s, t); }
      }
      PlainMove(c, fails, s, s', th);
    case _ => PlainMove(c, fails, s, s', th);
  }

  lemma PlainMove(c: Config, fails: set<Task>, s: State, s': State, th: ThreadId)
    requires s.exec.Keys == c.tasks && PlainInv(c, fails, s) && s'.exec == s.exec
    requires s'.cancelled == {} && !s'.signal && !s'.timer
    requires !s'.lock.Resetter? && (s'.lock.Planner? ==> s'.lock.todo == {})
    requires OthersStay(s, s', th) && (th in s'.threads ==> PlainThread(fails, th, s'.threads[th]))
    ensures PlainInv(c, fails, s')
  {
    hide WellFormed;
    PlainThreads(fails, s, s', th);
    forall t | t in c.tasks ensures PlainTask(c, fails, s', t) { assert PlainTask(c, fails, s, t); }
  }

  lemma VisitPlain(c: Config, fails: set<Task>, s: State, th: ThreadId, t: Task)
    requires Inv(c, s) && PlainInv(c, fails, s) && LockEnabled(c, s, th, Visit(t))
    ensures PlainInv(c, fails, Visited(c, s, th, t))
  {
    hide WellFormed, ChainsOk, CancelledOk, LockOk, ThreadsOk;
    var s' := Visited(c, s, th, t);
    if Executable(c, s, t) {
      assert Good(c, s, t) && PlainTask(c, fails, s, t);
      hide TasksOk;
      BelowIsInside(c, t);
      assert PlainTask(c, fails, s', t);
      PlainTasksFrame(c, fails, s, s', t);
      PlainThreads(fails, s, s', RunOf(t, s.exec[t].starts));
    } else {
      hide TasksOk;
      PlainMove(c, fails, s, s', th) by { assert PlainThread(fails, th, s.threads[th]); }
    }
  }

  lemma StepPlain(c: Config, fails: set<Task>, s: State, step: Step)
    requires NoneRestarts(c) && Inv(c, s) && PlainInv(c, fails, s) && Enabled(c, s, step) && Plain(fails, step)
    ensures PlainInv(c, fails, Apply(c, s, step)) && Atomic(s, step) && !step.Signal? && !step.OfLoop?
  {
    hide WellFormed, ChainsOk, CancelledOk, LockOk, TasksOk, ApplyRun, ApplyLock;
    forall th | th in s.threads ensures !s.threads[th].Signalling? {
      assert ThreadOk(s, th) && PlainThread(fails, th, s.threads[th]);
    }
    match step
    case OfRun(th, r) => RunStepPlain(c, fails, s, th, r);
    case OfLock(th, act) => LockStepPlain(c, fails, s, th, act);
    case Signal(th) => assert false;
    case MainReturn => PlainMove(c, fails, s, Apply(c, s, step), Main);
    case _ =>
  }

  lemma {:induction false} RunPlain(c: Config, fails: set<Task>, s: State, steps: seq<Step>)
    requires NoneRestarts(c) && WakeInv(c, s) && PlainInv(c, fails, s) && IsPlainRun(c, fails, s, steps)
    ensures WakeInv(c, PlainEnd(c, fails, s, steps)) && PlainInv(c, fails, PlainEnd(c, fails, s, steps))
    decreases |steps|
  {
    hide WellFormed, ChainsOk, CancelledOk, LockOk, TasksOk, PassInv, PlanInv, PlainInv, Apply, Enabled;
    if steps != [] {
      StepPlain(c, fails, s, steps[0]);
      StepWake(c, s, steps[0]);
      RunPlain(c, fails, Apply(c, s, steps[0]), steps[1..]);
    }
  }

  lemma InitPlain(c: Config, fails: set<Task>)
    ensures WakeInv(c, Init(c)) && PlainInv(c, fails, Init(c))
  {
    hide WellFormed, Inv;
    InitInv(c);
    assert Inv(c, Init(c));
    assert OwesPass(Main, Init(c).threads[Main]);
    forall t | t in c.tasks ensures PlainTask(c, fails, Init(c), t) {}
  }

  ghost predicate PlainReachable(c: Config, fails: set<Task>, s: State)
    ensures PlainReachable(c, fails, s) ==> s.exec.Keys == c.tasks
  {
    exists steps :: IsPlainRun(c, fails, Init(c), steps) && s == PlainEnd(c, fails, Init(c), steps)
  }

  lemma PlainReachableInv(c: Config, fails: set<Task>, s: State)
    requires NoneRestarts(c) && PlainReachable(c, fails, s)
    ensures WakeInv(c, s) && PlainInv(c, fails, s)
  {
    hide WellFormed, WakeInv, PlainInv, IsPlainRun, PlainEnd;
    var steps :| IsPlainRun(c, fails, Init(c), steps) && s == PlainEnd(c, fails, Init(c), steps);
    InitPlain(c, fails);
    RunPlain(c, fails, Init(c), steps);
  }

  // ---------------------------------------------------------------------------------------------
  // The final states

  /** With no run left and nothing executable, every task is in its expected state. */
  lemma {:induction false} NothingLeft(c: Config, fails: set<Task>, s: State, t: Task)
    requires Inv(c, s) && PlainInv(c, fails, s) && t in c.tasks
    requires RunIds(s.threads) == {} && forall u :: u in c.tasks ==> !Executable(c, s, u)
    ensures s.exec[t].state == Expected(c, fails, t)
    decreases |c.below[t]|
  {
    BelowIsInside(c, t);
    assert Good(c, s, t) && PlainTask(c, fails, s, t);
    assert s.exec[t].state != Running by {
      if s.exec[t].starts > 0 { assert RunOf(t, s.exec[t].starts - 1) !in RunIds(s.threads); }
    }
    if c.below[t] !! fails {
      forall d | d in c.below[t] ensures s.exec[d].state == Done {
        BelowShrinks(c, t, d);
        NothingLeft(c, fails, s, d);
      }
      assert !Executable(c, s, t);
    } else {
      var d :| d in c.below[t] && d in fails;
      assert PlainTask(c, fails, s, d);
    }
  }

  lemma NoneExecutable(c: Config, fails: set<Task>, s: State)
    requires WakeInv(c, s) && PlainInv(c, fails, s) && RunIds(s.threads) == {}
    requires s.threads[Main] == Waiting || s.threads[Main] == Returned
    ensures forall t :: t in c.tasks ==> !Executable(c, s, t)
  {
    hide WellFormed, ChainsOk, CancelledOk, TasksOk, PlanInv;
    forall th | th in s.threads ensures !OwesPass(th, s.threads[th]) && s.threads[th] != Passing {
      assert PlainThread(fails, th, s.threads[th]);
      assert th.RunOf? ==> th in RunIds(s.threads);
    }
    if s.lock != Free { assert HoldsRightly(s, s.lock.holder); }
  }

  /** When the main goroutine returns from its wait, no task can still run and each has its final state. */
  lemma WaitEndsAtTheEnd(c: Config, fails: set<Task>, s: State, t: Task)
    requires NoneRestarts(c) && PlainReachable(c, fails, s) && Enabled(c, s, MainReturn) && t in c.tasks
    ensures s.exec[t].state == Expected(c, fails, t)
  {
    hide WellFormed, PlainReachable;
    PlainReachableInv(c, fails, s);
    NoneExecutable(c, fails, s);
    NothingLeft(c, fails, s, t);
  }

  ghost predicate NoStepLeft(c: Config, fails: set<Task>, s: State)
    requires s.exec.Keys == c.tasks
  {
    forall step :: Plain(fails, step) ==> !Enabled(c, s, step)
  }

  lemma NoStepLeftIsRest(c: Config, fails: set<Task>, s: State)
    requires WakeInv(c, s) && PlainInv(c, fails, s) && NoStepLeft(c, fails, s)
    ensures RunIds(s.threads) == {} && s.threads[Main] == Returned
  {
    hide WellFormed, TasksOk, ChainsOk, CancelledOk, LockOk, PassInv, PlanInv, Enabled, Plain;
    forall th | th in s.threads ensures AtRest(s, th) {
      if !AtRest(s, th) { PlainMoves(c, fails, s, th); }
    }
    AllAtRest(c, s);
  }

  /** Confluence: whatever the interleaving, a run in which no step is left has ended with the main
      goroutine returned and every task in the state that the failing tasks alone determine. */
  lemma Confluence(c: Config, fails: set<Task>, s: State, t: Task)
    requires NoneRestarts(c) && PlainReachable(c, fails, s) && t in c.tasks && NoStepLeft(c, fails, s)
    ensures At(s, Main, Returned) && s.running == 0 && s.exec[t].state == Expected(c, fails, t)
  {
    hide WellFormed, PlainReachable, NoStepLeft, TasksOk, ChainsOk, CancelledOk, LockOk, PassInv, PlanInv, PlainInv;
    PlainReachableInv(c, fails, s);
    NoStepLeftIsRest(c, fails, s);
    NoneExecutable(c, fails, s);
    NothingLeft(c, fails, s, t);
  }

  lemma AllAtRest(c: Config, s: State)
    requires Inv(c, s) && forall th :: th in s.threads ==> AtRest(s, th)
    ensures RunIds(s.threads) == {} && s.threads[Main] == Returned
  {
    hide WellFormed, TasksOk, ChainsOk, CancelledOk, LockOk;
    forall th | th in s.threads ensures !th.RunOf? {
      assert ThreadOk(s, th) && AtRest(s, th);
    }
    assert RunIds(s.threads) == {};
    assert ThreadOk(s, Main) && AtRest(s, Main);
  }

  lemma PlainMoves(c: Config, fails: set<Task>, s: State, th: ThreadId)
    requires WakeInv(c, s) && PlainInv(c, fails, s) && th in s.threads && !AtRest(s, th)
    ensures exists step :: Plain(fails, step) && Enabled(c, s, step)
  {
    assert Root !in s.cancelled;
    hide WellFormed, TasksOk, ChainsOk, CancelledOk, LockOk, ThreadsOk, PassInv, PlanInv, PlainInv;
    var step := ThreadMoves(c, s, th);
    if step.OfRun? && step.run.Decide? && step.thread.RunOf? {
      var other := OfRun(step.thread, Decide(step.thread.task in fails));
      assert Plain(fails, other) && Enabled(c, s, other);
    } else {
      assert Plain(fails, step);
    }
  }

  // ---------------------------------------------------------------------------------------------
  // Termination

  /** The phases up to a pass, counted backwards. */
  function Ahead(ph: Phase): nat {
    match ph
    case Spawned => 10
    case Body(_) => 9
    case Decided(_, _) => 8
    case Flushing(_) => 7
    case KeepingAlive(_) => 6
    case AwaitPlan => 5
    case Planning => 4
    case CheckPass => 3
    case AwaitPass => 2
    case _ => 0
  }

  /** An upper bound on the steps that a thread still makes on its own account: its phases, and in a pass
      the tasks it has not visited. */
  function StepsLeft(s: State, n: nat, ph: Phase): nat {
    if ph == Passing then 1 + if s.lock.Passer? then |s.lock.unvisited| else n
    else if Ahead(ph) > 0 then n + Ahead(ph)
    else 0
  }

  /** The steps left for `t`: those of its run, or, before it, of the run it may get. */
  function TaskSteps(s: State, n: nat, t: Task): nat
    requires t in s.exec
  {
    if s.exec[t].starts == 0 then n + 11
    else if RunOf(t, 0) in s.threads then StepsLeft(s, n, s.threads[RunOf(t, 0)]) else 0
  }

  function MainSteps(s: State, n: nat): nat {
    if Main !in s.threads || s.threads[Main] == Returned then 0
    else 1 + StepsLeft(s, n, s.threads[Main])
  }

  function TaskWeights(s: State, n: nat): map<Task, nat> {
    map t | t in s.exec :: TaskSteps(s, n, t)
  }

  ghost function Potential(s: State, n: nat): nat {
    MainSteps(s, n) + Total(TaskWeights(s, n))
  }

  /** No share grows and one shrinks, so the whole shrinks. */
  lemma PotentialDrops(s: State, s': State, n: nat, th: ThreadId)
    requires s'.exec.Keys == s.exec.Keys && (th == Main || (th.RunOf? && th.task in s.exec))
    requires forall t :: t in s.exec ==> TaskSteps(s', n, t) <= TaskSteps(s, n, t)
    requires MainSteps(s', n) <= MainSteps(s, n)
    requires th == Main ==> MainSteps(s', n) < MainSteps(s, n)
    requires th.RunOf? ==> TaskSteps(s', n, th.task) < TaskSteps(s, n, th.task)
    ensures Potential(s', n) < Potential(s, n)
  {
    hide TaskSteps, MainSteps;
    var w, w' := TaskWeights(s, n), TaskWeights(s', n);
    if th.RunOf? {
      TotalRemove(w, th.task);
      TotalRemove(w', th.task);
      TotalMonotone(w' - {th.task}, w - {th.task});
    } else {
      TotalMonotone(w', w);
    }
  }

  /** A step of `th` that starts no task leaves the shares of all other threads alone. */
  lemma OtherShares(s: State, s': State, n: nat, th: ThreadId)
    requires OthersStay(s, s', th) && s'.exec.Keys == s.exec.Keys
    requires forall t :: t in s.exec ==> s'.exec[t].starts == s.exec[t].starts
    requires s'.lock == s.lock || forall u :: u in s.threads && u != th ==> s.threads[u] != Passing
    ensures th != Main ==> MainSteps(s', n) == MainSteps(s, n)
    ensures forall t :: t in s.exec && th != RunOf(t, 0) ==> TaskSteps(s', n, t) == TaskSteps(s, n, t)
  {
    hide StepsLeft, OthersStay;
    if th != Main { SameShare(s, s', n, th, Main); }
    forall t | t in s.exec && th != RunOf(t, 0) ensures TaskSteps(s', n, t) == TaskSteps(s, n, t) {
      SameShare(s, s', n, th, RunOf(t, 0));
    }
  }

  lemma SameShare(s: State, s': State, n: nat, th: ThreadId, u: ThreadId)
    requires OthersStay(s, s', th) && u != th
    requires s'.lock == s.lock || (u in s.threads ==> s.threads[u] != Passing)
    ensures u in s.threads <==> u in s'.threads
    ensures u in s.threads ==> s'.threads[u] == s.threads[u]
    ensures u in s.threads ==> StepsLeft(s', n, s'.threads[u]) == StepsLeft(s, n, s.threads[u])
  {}

  /** What a step of a run does to its thread. */
  lemma RunStepShape(c: Config, fails: set<Task>, s: State, th: ThreadId, r: RunStep)
    requires NoneRestarts(c) && Inv(c, s) && PlainInv(c, fails, s) && RunEnabled(c, s, th, r)
    ensures th in s.threads && th.RunOf? && th.nth == 0 && th.task in s.exec && s.exec[th.task].starts > 0
    ensures var s' := ApplyRun(c, s, th, r);
      && OthersStay(s, s', th) && s'.lock == s.lock && th in s'.threads
      && (forall t :: t in s.exec ==> s'.exec[t].starts == s.exec[t].starts)
      && StepsLeft(s', |c.tasks|, s'.threads[th]) < StepsLeft(s, |c.tasks|, s.threads[th])
  {
    hide WellFormed, TasksOk, ChainsOk, CancelledOk, LockOk, ThreadsOk, PlainInv, ApplyRun;
    ThreadAt(c, s, th);
    PlainAt(c, fails, s, th);
    RunShareDrops(c, s, th, r);
    RunLeavesOthers(c, s, th, r);
    RunStartsNothing(c, s, th, r);
  }

  lemma RunShareDrops(c: Config, s: State, th: ThreadId, r: RunStep)
    requires NoneRestarts(c) && s.exec.Keys == c.tasks && RunEnabled(c, s, th, r)
    ensures th in ApplyRun(c, s, th, r).threads
    ensures 0 < Ahead(ApplyRun(c, s, th, r).threads[th]) < Ahead(s.threads[th])
  {
    hide WellFormed, ApplyRun;
    RunAdvances(c, s, th, r);
    NeverSends(c, s, th);
  }

  lemma RunStartsNothing(c: Config, s: State, th: ThreadId, r: RunStep)
    requires NoneRestarts(c) && s.exec.Keys == c.tasks && RunEnabled(c, s, th, r)
    ensures forall t :: t in s.exec ==> ApplyRun(c, s, th, r).exec[t].starts == s.exec[t].starts
  {
    hide WellFormed, Marks, AddMarks, Cancelled;
    NeverSends(c, s, th);
  }

  lemma RunStepDrops(c: Config, fails: set<Task>, s: State, th: ThreadId, r: RunStep)
    requires NoneRestarts(c) && Inv(c, s) && PlainInv(c, fails, s) && RunEnabled(c, s, th, r)
    ensures Potential(ApplyRun(c, s, th, r), |c.tasks|) < Potential(s, |c.tasks|)
  {
    hide WellFormed, TasksOk, ChainsOk, CancelledOk, LockOk, ThreadsOk, PlainInv, ApplyRun, RunEnabled, StepsLeft;
    RunStepShape(c, fails, s, th, r);
    var s', n := ApplyRun(c, s, th, r), |c.tasks|;
    assert th == RunOf(th.task, 0);
    OtherShares(s, s', n, th);
    PotentialDrops(s, s', n, th);
  }

  /** A pass that goes on to its next task has one step less to make. */
  lemma VisitShares(c: Config, fails: set<Task>, s: State, mid: State, th: ThreadId, t: Task)
    requires Inv(c, s) && PlainInv(c, fails, s) && LockEnabled(c, s, th, Visit(t))
    requires mid == s.(lock := Passer(th, s.lock.unvisited - {t}))
    ensures s.lock.Passer? && th in s.threads
    ensures th == Main || (th.RunOf? && th.nth == 0 && th.task in s.exec && s.exec[th.task].starts > 0)
    ensures OwnShareDrops(s, mid, |c.tasks|, th) && s.threads[th] == Passing
    ensures forall u :: u in s.threads && u != th ==> s.threads[u] != Passing
  {
    hide WellFormed, ChainsOk, CancelledOk, ThreadsOk, TasksOk, LockOk, PlainInv, Executable;
    ThreadAt(c, s, th);
    PassersHold(c, s);
    PlainAt(c, fails, s, th);
  }

  lemma VisitDrops(c: Config, fails: set<Task>, s: State, th: ThreadId, t: Task)
    requires s.exec.Keys == c.tasks && Inv(c, s) && PlainInv(c, fails, s) && LockEnabled(c, s, th, Visit(t))
    ensures Potential(Visited(c, s, th, t), |c.tasks|) < Potential(s, |c.tasks|)
  {
    hide WellFormed, Inv, PlainInv, Potential, StepsLeft, Executable;
    var n := |c.tasks|;
    var mid := s.(lock := Passer(th, s.lock.unvisited - {t}));
    VisitShares(c, fails, s, mid, th, t);
    QuietDrops(s, mid, n, th);
    if Executable(c, s, t) {
      StartKeepsPotential(c, fails, s, mid, t);
    }
  }

  /** The start of a task takes none of the steps that its share already has. */
  lemma StartKeepsPotential(c: Config, fails: set<Task>, s: State, mid: State, t: Task)
    requires Inv(c, s) && PlainInv(c, fails, s) && t in c.tasks && Executable(c, s, t) && mid.exec == s.exec
    ensures Potential(Start(mid, t), |c.tasks|) <= Potential(mid, |c.tasks|)
  {
    hide WellFormed, ChainsOk, CancelledOk, ThreadsOk, TasksOk, LockOk, PlainInv, TraceOk, CtxOk, TaskSteps, MainSteps;
    TaskAt(c, s, t);
    PlainTaskAt(c, fails, s, t);
    StartShares(mid, Start(mid, t), |c.tasks|, t);
    TotalMonotone(TaskWeights(Start(mid, t), |c.tasks|), TaskWeights(mid, |c.tasks|));
  }

  lemma StartShares(s: State, s': State, n: nat, t: Task)
    requires t in s.exec && s.exec[t].starts == 0 && s' == Start(s, t)
    ensures MainSteps(s', n) == MainSteps(s, n)
    ensures forall u :: u in s.exec ==> TaskSteps(s', n, u) <= TaskSteps(s, n, u)
    ensures forall u :: u in s.exec && u != t ==> TaskSteps(s', n, u) == TaskSteps(s, n, u)
  {}

  lemma PlainAt(c: Config, fails: set<Task>, s: State, th: ThreadId)
    requires s.exec.Keys == c.tasks && PlainInv(c, fails, s) && th in s.threads
    ensures PlainThread(fails, th, s.threads[th])
  {
    hide WellFormed;
  }

  lemma PlainTaskAt(c: Config, fails: set<Task>, s: State, t: Task)
    requires s.exec.Keys == c.tasks && PlainInv(c, fails, s) && t in c.tasks
    ensures PlainTask(c, fails, s, t)
  {
    hide WellFormed;
  }

  lemma CollectsNothing(c: Config, fails: set<Task>, s: State)
    requires s.exec.Keys == c.tasks && PlainInv(c, fails, s)
    ensures Collect(c, s) == {}
  {
    hide WellFormed;
    forall t | t in c.tasks ensures s.exec[t].pending == {} { assert PlainTask(c, fails, s, t); }
  }

  /** What a step under the lock, other than a visit, does to its thread. */
  lemma LockStepShape(c: Config, fails: set<Task>, s: State, th: ThreadId, act: LockStep)
    requires Inv(c, s) && PlainInv(c, fails, s) && LockEnabled(c, s, th, act) && !act.Visit?
    ensures var s' := ApplyLock(c, s, th, act);
      && s'.exec == s.exec && OthersStay(s, s', th) && (th == Main || th.RunOf?)
      && OwnShareDrops(s, s', |c.tasks|, th) && s.threads[th] != Returned
      && (s'.lock == s.lock || forall u :: u in s.threads && u != th ==> s.threads[u] != Passing)
  {
    hide WellFormed, Inv, PlainInv, OthersStay, OwnShareDrops, ApplyLock, LockEnabled, HoldsRightly, PhaseOk;
    InvKeys(c, s);
    PassersHold(c, s);
    HeldByRunOrMain(c, fails, s, th, act);
    ThreadAt(c, s, th);
    PlainAt(c, fails, s, th);
    NeverDown(c, fails, s);
    if act.CheckLive? || act.AcquirePass? || act.ReleasePass? {
      PassOwnShare(c, s, th, act);
    } else {
      PlanOwnShare(c, fails, s, th, act);
    }
  }

  lemma PlanOwnShare(c: Config, fails: set<Task>, s: State, th: ThreadId, act: LockStep)
    requires Inv(c, s) && PlainInv(c, fails, s) && LockEnabled(c, s, th, act)
    requires act.AcquirePlan? || act.BeginReset? || act.EndReset? || act.ReleasePlan?
    ensures var s' := ApplyLock(c, s, th, act);
      && s'.exec == s.exec && OthersStay(s, s', th) && (th == Main || th.RunOf?)
      && OwnShareDrops(s, s', |c.tasks|, th) && s.threads[th] != Returned && !s.lock.Passer?
  {
    hide WellFormed, TasksOk, ChainsOk, CancelledOk, ThreadsOk, LockOk, PlainInv, Collect;
    ThreadAt(c, s, th);
    PlainAt(c, fails, s, th);
    NoPlans(c, fails, s);
  }

  lemma PassOwnShare(c: Config, s: State, th: ThreadId, act: LockStep)
    requires s.exec.Keys == c.tasks && LockEnabled(c, s, th, act) && Root !in s.cancelled
    requires act.CheckLive? || act.AcquirePass? || act.ReleasePass?
    requires PhaseOk(th, s.threads[th]) && HoldsRightly(s, th) && (th == Main || th.RunOf?)
    ensures s.threads[th] != Returned && (ApplyLock(c, s, th, act).lock == s.lock || s.lock == Free || s.lock.holder == th)
    ensures ApplyLock(c, s, th, act).exec == s.exec && OthersStay(s, ApplyLock(c, s, th, act), th)
    ensures OwnShareDrops(s, ApplyLock(c, s, th, act), |c.tasks|, th)
  {
    hide WellFormed, OwnShareDrops, OthersStay;
    var s' := ApplyLock(c, s, th, act);
    match act
    case CheckLive => MovesOn(s, s', |c.tasks|, th, AwaitPass);
    case AcquirePass => MovesOn(s, s', |c.tasks|, th, Passing);
    case ReleasePass => LeavesPass(s, |c.tasks|, th);
  }

  lemma MovesOn(s: State, s': State, n: nat, th: ThreadId, ph: Phase)
    requires th in s.threads && s'.threads == s.threads[th := ph] && StepsLeft(s', n, ph) < StepsLeft(s, n, s.threads[th])
    ensures OthersStay(s, s', th) && OwnShareDrops(s, s', n, th)
  {
    hide StepsLeft;
  }

  lemma LeavesPass(s: State, n: nat, th: ThreadId)
    requires th in s.threads && s.threads[th] == Passing && (th == Main || th.RunOf?)
    ensures OthersStay(s, AfterPass(s.(lock := Free), th), th) && OwnShareDrops(s, AfterPass(s.(lock := Free), th), n, th)
  {}

  lemma HeldByRunOrMain(c: Config, fails: set<Task>, s: State, th: ThreadId, act: LockStep)
    requires Inv(c, s) && PlainInv(c, fails, s) && LockEnabled(c, s, th, act)
    ensures th in s.threads && (th == Main || th.RunOf?)
  {
    hide WellFormed, TasksOk, ChainsOk, CancelledOk, ThreadsOk, LockOk, PlainInv, Executable;
    ThreadAt(c, s, th);
    PlainAt(c, fails, s, th);
  }

  lemma NoPlans(c: Config, fails: set<Task>, s: State)
    requires s.exec.Keys == c.tasks && PlainInv(c, fails, s)
    ensures !s.lock.Resetter? && (s.lock.Planner? ==> s.lock.todo == {}) && Collect(c, s) == {}
  {
    hide WellFormed;
    CollectsNothing(c, fails, s);
  }

  predicate OwnShareDrops(s: State, s': State, n: nat, th: ThreadId)
    requires th in s.threads
  {
    if th in s'.threads then StepsLeft(s', n, s'.threads[th]) < StepsLeft(s, n, s.threads[th])
    else 0 < StepsLeft(s, n, s.threads[th]) && th != Main
  }

  lemma QuietDrops(s: State, s': State, n: nat, th: ThreadId)
    requires th in s.threads && OthersStay(s, s', th) && s'.exec == s.exec && OwnShareDrops(s, s', n, th)
    requires th == Main ==> s.threads[Main] != Returned
    requires th == Main || (th.RunOf? && th.nth == 0 && th.task in s.exec && s.exec[th.task].starts > 0)
    requires s'.lock == s.lock || forall u :: u in s.threads && u != th ==> s.threads[u] != Passing
    ensures Potential(s', n) < Potential(s, n)
  {
    hide StepsLeft;
    OtherShares(s, s', n, th);
    PotentialDrops(s, s', n, th);
  }

  lemma LockStepDrops(c: Config, fails: set<Task>, s: State, th: ThreadId, act: LockStep)
    requires NoneRestarts(c) && Inv(c, s) && PlainInv(c, fails, s) && LockEnabled(c, s, th, act)
    ensures Potential(ApplyLock(c, s, th, act), |c.tasks|) < Potential(s, |c.tasks|)
  {
    hide WellFormed, TasksOk, ChainsOk, CancelledOk, LockOk, Potential, StepsLeft;
    if act.Visit? {
      VisitDrops(c, fails, s, th, act.task);
    } else {
      assert ThreadOk(s, th) && PlainThread(fails, th, s.threads[th]);
      hide ThreadsOk;
      LockStepShape(c, fails, s, th, act);
      hide ApplyLock, LockEnabled, PlainInv;
      QuietDrops(s, ApplyLock(c, s, th, act), |c.tasks|, th);
    }
  }

  lemma StepDrops(c: Config, fails: set<Task>, s: State, step: Step)
    requires NoneRestarts(c) && Inv(c, s) && PlainInv(c, fails, s) && Enabled(c, s, step) && Plain(fails, step)
    ensures Potential(Apply(c, s, step), |c.tasks|) < Potential(s, |c.tasks|)
  {
    hide WellFormed, TasksOk, ChainsOk, CancelledOk, LockOk, ThreadsOk, PlainInv, ApplyRun, ApplyLock;
    StepPlain(c, fails, s, step);
    match step
    case OfRun(th, r) => RunStepDrops(c, fails, s, th, r);
    case OfLock(th, act) => LockStepDrops(c, fails, s, th, act);
    case MainReturn =>
      OtherShares(s, Apply(c, s, step), |c.tasks|, Main);
      PotentialDrops(s, Apply(c, s, step), |c.tasks|, Main);
    case _ => assert false;
  }

  lemma {:induction false} RunLength(c: Config, fails: set<Task>, s: State, steps: seq<Step>)
    requires NoneRestarts(c) && WakeInv(c, s) && PlainInv(c, fails, s) && IsPlainRun(c, fails, s, steps)
    ensures |steps| <= Potential(s, |c.tasks|)
    decreases |steps|
  {
    hide WellFormed, TasksOk, ChainsOk, CancelledOk, LockOk, ThreadsOk, PassInv, PlanInv, PlainInv, Apply, Enabled, Potential;
    if steps != [] {
      StepPlain(c, fails, s, steps[0]);
      StepWake(c, s, steps[0]);
      StepDrops(c, fails, s, steps[0]);
      RunLength(c, fails, Apply(c, s, steps[0]), steps[1..]);
    }
  }

  /** Termination: no interleaving takes more than (n + 1) * (n + 11) steps for n tasks. */
  lemma UninvalidatedRunsEnd(c: Config, fails: set<Task>, steps: seq<Step>)
    requires NoneRestarts(c) && IsPlainRun(c, fails, Init(c), steps)
    ensures |steps| <= (|c.tasks| + 1) * (|c.tasks| + 11)
  {
    hide WellFormed, WakeInv, PlainInv, IsPlainRun;
    var n := |c.tasks|;
    InitPlain(c, fails);
    RunLength(c, fails, Init(c), steps);
    TotalBound(TaskWeights(Init(c), n), n + 11);
    assert TaskWeights(Init(c), n).Keys == c.tasks;
    OneMore(n, n + 11);
  }
}
