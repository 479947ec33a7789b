/** What the invariant says about every state that a run of the executor can reach. */
module Safety {
  import opened Tasks
  import opened Machine
  import opened Invariant
  import opened Preservation

  ghost predicate Reachable(c: Config, s: State)
    ensures Reachable(c, s) ==> s.exec.Keys == c.tasks
  {
    exists steps :: IsRunFrom(c, Init(c), steps) && s == After(c, Init(c), steps)
  }

  lemma ReachableInv(c: Config, s: State)
    requires Reachable(c, s)
    ensures Inv(c, s)
  {
    var steps :| IsRunFrom(c, Init(c), steps) && s == After(c, Init(c), steps);
    InitInv(c);
    RunInv(c, Init(c), steps);
  }

  lemma InitReachable(c: Config)
    ensures Reachable(c, Init(c))
  {
    hide WellFormed;
    assert IsRunFrom(c, Init(c), []) && After(c, Init(c), []) == Init(c);
  }

  lemma {:induction false} RunExtends(c: Config, s: State, steps: seq<Step>, step: Step)
    requires s.exec.Keys == c.tasks && IsRunFrom(c, s, steps)
    requires Enabled(c, After(c, s, steps), step) && Atomic(After(c, s, steps), step)
    ensures IsRunFrom(c, s, steps + [step])
    ensures After(c, s, steps + [step]) == Apply(c, After(c, s, steps), step)
    decreases |steps|
  {
    hide WellFormed, Enabled, Apply, Atomic;
    if steps == [] {
      assert (steps + [step])[1..] == [];
    } else {
      assert (steps + [step])[1..] == steps[1..] + [step];
      RunExtends(c, Apply(c, s, steps[0]), steps[1..], step);
    }
  }

  lemma ReachableStep(c: Config, s: State, step: Step)
    requires Reachable(c, s) && Enabled(c, s, step) && Atomic(s, step)
    ensures Reachable(c, Apply(c, s, step))
  {
    hide WellFormed, Enabled, Apply, Atomic, IsRunFrom, After;
    var steps :| IsRunFrom(c, Init(c), steps) && s == After(c, Init(c), steps);
    RunExtends(c, Init(c), steps, step);
  }

  /** The runs of `t` between the pass that started them and their send on the terminal channel. */
  function LiveRuns(s: State, t: Task): set<ThreadId> {
    set th | th in s.threads && th.RunOf? && th.task == t && Live(s.threads[th])
  }

  lemma LiveRunsAre(c: Config, s: State, t: Task)
    requires Inv(c, s) && t in c.tasks
    ensures LiveRuns(s, t) == if Current(s, t).Some? then {RunOf(t, s.exec[t].starts - 1)} else {}
  {
    hide WellFormed, Good;
    forall th | th in LiveRuns(s, t) ensures s.exec[t].starts > 0 && th == RunOf(t, s.exec[t].starts - 1) {
      assert ThreadOk(s, th);
    }
  }

  /** Terminal tokens: those in the channel and those owed by live runs add up to the starts that no
      invalidation has undone yet, plus the one an invalidation is waiting for. */
  lemma TokenConservation(c: Config, s: State, t: Task)
    requires Reachable(c, s) && t in c.tasks
    ensures s.exec[t].terminal + |LiveRuns(s, t)|
            == s.exec[t].starts - s.exec[t].resets + if InReset(s, t) then 1 else 0
    ensures s.exec[t].state == Invalid ==> s.exec[t].starts == s.exec[t].resets
    ensures s.exec[t].state in {Running, Error, Done} ==>
      s.exec[t].starts == s.exec[t].resets + 1 && !InReset(s, t)
    ensures s.exec[t].resets <= s.exec[t].starts <= s.exec[t].resets + 1
    ensures s.exec[t].terminal <= 1
  {
    hide WellFormed;
    ReachableInv(c, s);
    LiveRunsAre(c, s, t);
    assert Good(c, s, t);
  }

  /** No two runs of one task are live at once. */
  lemma MutualExclusion(c: Config, s: State, r1: ThreadId, r2: ThreadId)
    requires Reachable(c, s) && IsRun(c, s, r1) && IsRun(c, s, r2) && r1.task == r2.task
    requires Live(s.threads[r1]) && Live(s.threads[r2])
    ensures r1 == r2
  {
    ReachableInv(c, s);
    assert ThreadOk(s, r1) && ThreadOk(s, r2);
  }

  /** A pass starts a task only when no earlier run of it is live and the token of the last was consumed. */
  lemma StartsAlone(c: Config, s: State, th: ThreadId, t: Task)
    requires Reachable(c, s) && LockEnabled(c, s, th, Visit(t)) && Executable(c, s, t)
    ensures LiveRuns(s, t) == {} && s.exec[t].terminal == 0 && s.exec[t].pending == {}
    ensures LiveRuns(Visited(c, s, th, t), t) == {RunOf(t, s.exec[t].starts)}
  {
    hide WellFormed, Reachable, TasksOk, ChainsOk, CancelledOk, ThreadsOk, LockOk, TraceOk, CtxOk;
    ReachableInv(c, s);
    LiveRunsAre(c, s, t);
    TaskAt(c, s, t);
    VisitInv(c, s, th, t);
    LiveRunsAre(c, Visited(c, s, th, t), t);
  }

  /** The send on the terminal channel finds the slot empty. */
  lemma SendNeverBlocks(c: Config, s: State, th: ThreadId)
    requires Reachable(c, s) && IsRun(c, s, th) && s.threads[th].Flushing?
    ensures RunEnabled(c, s, th, Flush)
  {
    hide WellFormed;
    ReachableInv(c, s);
    assert ThreadOk(s, th) && Good(c, s, th.task);
  }

  /** What a live run still has to do up to its send, none of which needs the lock. */
  function ToSend(ph: Phase): seq<RunStep> {
    match ph
    case Body(_) => [Decide(false), Write, Flush]
    case Decided(_, _) => [Write, Flush]
    case Flushing(_) => [Flush]
    case _ => []
  }

  function AsSteps(th: ThreadId, rs: seq<RunStep>): seq<Step> {
    seq(|rs|, i requires 0 <= i < |rs| => OfRun(th, rs[i]))
  }

  /** While an invalidation waits for the token with the channel empty, the task's one live run can
      deliver it by steps of its own; afterwards the invalidation can go on. */
  lemma ReceiveHasProducer(c: Config, s: State, holder: ThreadId, t: Task) returns (th: ThreadId)
    requires Reachable(c, s) && t in c.tasks && InReset(s, t) && s.lock.holder == holder && s.exec[t].terminal == 0
    ensures LiveRuns(s, t) == {th} && th in s.threads
    ensures IsRunFrom(c, s, AsSteps(th, ToSend(s.threads[th])))
    ensures LockEnabled(c, After(c, s, AsSteps(th, ToSend(s.threads[th]))), holder, EndReset)
  {
    hide WellFormed;
    ReachableInv(c, s);
    LiveRunsAre(c, s, t);
    th := RunOf(t, if s.exec[t].starts > 0 then s.exec[t].starts - 1 else 0);
    assert Good(c, s, t) && th in LiveRuns(s, t);
    hide Good, After, IsRunFrom;
    Delivers(c, s, th);
  }

  lemma {:induction false} Delivers(c: Config, s: State, th: ThreadId)
    requires Inv(c, s) && IsRun(c, s, th) && Live(s.threads[th]) && InReset(s, th.task)
    ensures IsRunFrom(c, s, AsSteps(th, ToSend(s.threads[th])))
    ensures LockEnabled(c, After(c, s, AsSteps(th, ToSend(s.threads[th]))), s.lock.holder, EndReset)
    decreases |ToSend(s.threads[th])|
  {
    hide WellFormed, Inv, ApplyRun, RunEnabled, LockEnabled, Atomic;
    InvKeys(c, s);
    var rs := ToSend(s.threads[th]);
    var steps := AsSteps(th, rs);
    NextDelivers(c, s, th);
    var s1 := ApplyRun(c, s, th, rs[0]);
    assert steps[0] == OfRun(th, rs[0]) && Atomic(s, steps[0]) by { RunsAreAtomic(s, steps[0]); }
    if |rs| == 1 {
      assert steps[1..] == [];
    } else {
      assert steps[1..] == AsSteps(th, rs[1..]);
      Delivers(c, s1, th);
    }
  }

  lemma RunsAreAtomic(s: State, step: Step)
    requires step.OfRun?
    ensures Atomic(s, step)
  {}

  /** One step of the run on the way to its send. */
  lemma NextDelivers(c: Config, s: State, th: ThreadId)
    requires Inv(c, s) && IsRun(c, s, th) && Live(s.threads[th]) && InReset(s, th.task) && s.exec.Keys == c.tasks
    ensures ToSend(s.threads[th]) != [] && RunEnabled(c, s, th, ToSend(s.threads[th])[0])
    ensures var rs, s1 := ToSend(s.threads[th]), ApplyRun(c, s, th, ToSend(s.threads[th])[0]);
      && Inv(c, s1) && s1.lock == s.lock && IsRun(c, s1, th)
      && (|rs| > 1 ==> Live(s1.threads[th]) && ToSend(s1.threads[th]) == rs[1..])
      && (|rs| == 1 ==> LockEnabled(c, s1, s.lock.holder, EndReset))
  {
    hide WellFormed, TasksOk, ChainsOk, CancelledOk, ThreadsOk, LockOk, TraceOk, CtxOk;
    ThreadAt(c, s, th);
    TaskAt(c, s, th.task);
    HolderIsThread(c, s);
    RunStepInv(c, s, th, ToSend(s.threads[th])[0]);
  }

  lemma HolderIsThread(c: Config, s: State)
    requires Inv(c, s) && s.lock != Free
    ensures s.lock.holder in s.threads
    ensures s.lock.Resetter? ==> s.lock.task in c.tasks && (s.threads[s.lock.holder].Planning?)
  {
    hide WellFormed, TasksOk, ChainsOk, CancelledOk, ThreadsOk;
    assert HoldsRightly(s, s.lock.holder);
  }

  /** A run sees its context cancelled exactly if its own task was invalidated since it started, or the
      executor was shut down, although contexts are children of a dependent's context. */
  lemma ContextTreeSafety(c: Config, s: State, th: ThreadId)
    requires Reachable(c, s) && IsRun(c, s, th) && s.threads[th].Body?
    ensures Cancelled(s.threads[th].ctx, s.cancelled) <==>
            Root in s.cancelled || s.threads[th].ctx != s.exec[th.task].ctx
    ensures s.threads[th].ctx != s.exec[th.task].ctx <==> InReset(s, th.task)
  {
    hide WellFormed, Reachable, TasksOk, ChainsOk, ThreadsOk, LockOk, TraceOk, Cancelled;
    ReachableInv(c, s);
    var t := th.task;
    ThreadAt(c, s, th);
    TaskAt(c, s, t);
    if s.exec[t].state == Running {
      if Root in s.cancelled {
        RootCancelsAll(s.threads[th].ctx, s.cancelled);
      } else {
        OwnContextAlive(c, s, t);
      }
    } else {
      CtxIsOwn(c, s, t);
      assert s.exec[t].ctx !in s.cancelled;
      CancelledDirectly(s.threads[th].ctx, s.cancelled);
    }
  }

  lemma CancelledDirectly(ctx: Ctx, cancelled: set<Ctx>)
    requires ctx in cancelled
    ensures Cancelled(ctx, cancelled)
  {}

  lemma {:induction false} RootCancelsAll(ctx: Ctx, cancelled: set<Ctx>)
    requires Root in cancelled
    ensures Cancelled(ctx, cancelled)
  {
    if ctx.Child? { RootCancelsAll(ctx.parent, cancelled); }
  }

  /** A task is in state running exactly as long as some run of it has yet to write its outcome and no
      invalidation has begun; so no task stays behind in running after its run. */
  lemma NoneStranded(c: Config, s: State, t: Task)
    requires Reachable(c, s) && t in c.tasks
    ensures s.exec[t].state == Running <==>
            !InReset(s, t) && exists th :: th in LiveRuns(s, t) && Busy(s.threads[th])
  {
    hide WellFormed;
    ReachableInv(c, s);
    LiveRunsAre(c, s, t);
    assert Good(c, s, t);
    if s.exec[t].state == Running {
      assert RunOf(t, s.exec[t].starts - 1) in LiveRuns(s, t);
    }
  }

  /** Run events come in pairs, each start followed by one end, and only a live run can be missing some. */
  lemma EventsPairUp(c: Config, s: State, t: Task)
    requires Reachable(c, s) && t in c.tasks
    ensures forall i :: 0 <= i < |s.exec[t].trace| ==> (s.exec[t].trace[i] == Started <==> i % 2 == 0)
    ensures 2 * s.exec[t].starts - 2 <= |s.exec[t].trace| <= 2 * s.exec[t].starts
    ensures (forall th :: th in LiveRuns(s, t) ==> !Busy(s.threads[th])) ==> |s.exec[t].trace| == 2 * s.exec[t].starts
  {
    hide WellFormed;
    ReachableInv(c, s);
    LiveRunsAre(c, s, t);
    assert Good(c, s, t);
    if Current(s, t).Some? && Busy(Current(s, t).value) {
      assert RunOf(t, s.exec[t].starts - 1) in LiveRuns(s, t);
    }
  }

  lemma {:induction false} CanceledForever(c: Config, s: State, steps: seq<Step>, t: Task)
    requires Inv(c, s) && IsRunFrom(c, s, steps) && t in c.tasks && s.exec[t].state == Canceled
    ensures After(c, s, steps).exec[t].state == Canceled
    decreases |steps|
  {
    if steps != [] {
      CanceledStays(c, s, steps[0], t);
      StepInv(c, s, steps[0]);
      CanceledForever(c, Apply(c, s, steps[0]), steps[1..], t);
    }
  }

  /** A run's own steps count no start and no reset, and leave a canceled task of another run alone. */
  lemma RunStepEffect(c: Config, s: State, th: ThreadId, r: RunStep, t: Task)
    requires s.exec.Keys == c.tasks && RunEnabled(c, s, th, r) && t in c.tasks
    ensures var s' := ApplyRun(c, s, th, r);
      && s'.exec[t].starts == s.exec[t].starts && s'.exec[t].resets == s.exec[t].resets && s'.lock == s.lock
      && (s'.exec[t].state == s.exec[t].state || (t == th.task && r == Write))
  {
    hide WellFormed, Marks, AddMarks;
    if r == KeepAlive {
      MarkedExecution(s.exec, Marks(c, InvalidIn(s.exec), th.task, KeepAliveStopped), t);
    }
  }

  lemma MarkEffect(c: Config, s: State, step: Step, t: Task)
    requires s.exec.Keys == c.tasks && Enabled(c, s, step) && t in c.tasks && !step.OfLock? && !step.OfRun?
    ensures var s' := Apply(c, s, step);
      s'.exec[t] == s.exec[t].(pending := s'.exec[t].pending) && s'.lock == s.lock
  {
    hide WellFormed, Marks, AddMarks;
    match step
    case Invalidate(u, e) => MarkedExecution(s.exec, Marks(c, InvalidIn(s.exec), u, e), t);
    case HandlerInvalidate(u, e) => MarkedExecution(s.exec, Marks(c, InvalidIn(s.exec), u, e), t);
    case _ =>
  }

  /** What TaskHandler.Invalidate does: the walk's marks are pending, and nothing else changes; no plan is
      announced. */
  lemma HandlerMarks(c: Config, s: State, t: Task, e: Event)
    requires s.exec.Keys == c.tasks && Enabled(c, s, HandlerInvalidate(t, e))
    ensures var s' := Apply(c, s, HandlerInvalidate(t, e)); s' == s.(exec := s'.exec) && s'.exec.Keys == s.exec.Keys
    ensures forall u :: u in s.exec ==>
      Apply(c, s, HandlerInvalidate(t, e)).exec[u] == s.exec[u].(pending := Apply(c, s, HandlerInvalidate(t, e)).exec[u].pending)
    ensures forall u, e' :: u in s.exec ==> (e' in Apply(c, s, HandlerInvalidate(t, e)).exec[u].pending
      <==> e' in s.exec[u].pending || (u, e') in Marks(c, InvalidIn(s.exec), t, e))
  {
    hide WellFormed, Marks, InvalidIn;
  }

  /** A call of Executor.Invalidate does the same, and if the task accepts, a caller goes on to send to the loop. */
  lemma CallMarks(c: Config, s: State, t: Task, e: Event)
    requires s.exec.Keys == c.tasks && Enabled(c, s, Invalidate(t, e))
    ensures forall u, e' :: u in s.exec ==> (e' in Apply(c, s, Invalidate(t, e)).exec[u].pending
      <==> e' in s.exec[u].pending || (u, e') in Marks(c, InvalidIn(s.exec), t, e))
    ensures Apply(c, s, Invalidate(t, e)).threads
         == if s.exec[t].state != Invalid && c.accepts(t, e) then s.threads[Sender(s.nextId) := Signalling(false)] else s.threads
    ensures Apply(c, s, Invalidate(t, e)).accepted == s.accepted + set p | p in Marks(c, InvalidIn(s.exec), t, e) :: p.0
  {
    hide WellFormed;
    if !Accepts(c, s, t, e) { assert Marks(c, InvalidIn(s.exec), t, e) == {}; }
  }

  lemma CanceledLockStays(c: Config, s: State, th: ThreadId, act: LockStep, t: Task)
    requires s.exec.Keys == c.tasks && LockEnabled(c, s, th, act) && t in c.tasks && s.exec[t].state == Canceled
    ensures ApplyLock(c, s, th, act).exec[t].state == Canceled
  {
    hide WellFormed, Collect;
  }

  lemma CanceledRunStays(c: Config, s: State, th: ThreadId, r: RunStep, t: Task)
    requires Inv(c, s) && s.exec.Keys == c.tasks && RunEnabled(c, s, th, r) && t in c.tasks && s.exec[t].state == Canceled
    ensures ApplyRun(c, s, th, r).exec[t].state == Canceled
  {
    hide WellFormed, Inv, Marks, AddMarks, ApplyRun, TraceOk, CtxOk;
    RunStepEffect(c, s, th, r, t);
    TaskAt(c, s, t);
    ThreadAt(c, s, th);
  }

  lemma CanceledStays(c: Config, s: State, step: Step, t: Task)
    requires Inv(c, s) && Enabled(c, s, step) && t in c.tasks && s.exec[t].state == Canceled
    ensures Apply(c, s, step).exec[t].state == Canceled
  {
    hide WellFormed, Inv, Marks, AddMarks, ApplyLock, LockEnabled, ApplyRun, RunEnabled;
    InvKeys(c, s);
    match step
    case OfRun(th, r) => CanceledRunStays(c, s, th, r, t);
    case OfLock(th, act) => CanceledLockStays(c, s, th, act, t);
    case _ => MarkEffect(c, s, step, t);
  }

  // ---------------------------------------------------------------------------------------------
  // Coalescing

  /** How often the steps take the lock for a plan. */
  function Plans(steps: seq<Step>): nat {
    if steps == [] then 0
    else (if steps[0].OfLock? && steps[0].act == AcquirePlan then 1 else 0) + Plans(steps[1..])
  }

  predicate Collected(s: State, t: Task) {
    (s.lock.Planner? || s.lock.Resetter?) && t in s.lock.todo
  }

  /** The resets `t` had, counting one that the present plan still owes it. */
  function ResetsDue(s: State, t: Task): nat
    requires t in s.exec
  {
    s.exec[t].resets + if Collected(s, t) then 1 else 0
  }

  lemma LockResetsDue(c: Config, s: State, th: ThreadId, act: LockStep, t: Task)
    requires s.exec.Keys == c.tasks && LockEnabled(c, s, th, act) && t in c.tasks
    ensures ResetsDue(ApplyLock(c, s, th, act), t) <= ResetsDue(s, t) + if act == AcquirePlan then 1 else 0
  {
    hide WellFormed, Collect, AfterPass, Visited, ResetBegun, ResetEnded, PlanReleased;
    match act
    case AcquirePlan =>
    case BeginReset(u) => BeginResetDue(s, th, u, t);
    case EndReset => EndResetDue(s, th, t);
    case ReleasePlan => ReleaseStays(s, th);
    case CheckLive => LeaverStays(s, th);
    case AcquirePass =>
    case Visit(u) => VisitDue(c, s, th, u, t);
    case ReleasePass => LeaverStays(s.(lock := Free), th);
  }

  lemma BeginResetDue(s: State, th: ThreadId, u: Task, t: Task)
    requires s.lock.Planner? && u in s.lock.todo && u in s.exec && t in s.exec
    ensures ResetsDue(ResetBegun(s, th, u), t) <= ResetsDue(s, t)
  {}

  lemma EndResetDue(s: State, th: ThreadId, t: Task)
    requires s.lock.Resetter? && s.lock.task in s.exec && t in s.exec
    ensures ResetsDue(ResetEnded(s, th), t) <= ResetsDue(s, t)
  {}

  lemma ReleaseStays(s: State, th: ThreadId)
    ensures PlanReleased(s, th).lock == Free && PlanReleased(s, th).exec == s.exec
  {}

  lemma VisitDue(c: Config, s: State, th: ThreadId, u: Task, t: Task)
    requires s.exec.Keys == c.tasks && u in c.tasks && s.lock.Passer? && t in c.tasks
    ensures ResetsDue(Visited(c, s, th, u), t) <= ResetsDue(s, t)
  {
    hide WellFormed, Executable;
  }

  lemma ResetsDueStep(c: Config, s: State, step: Step, t: Task)
    requires s.exec.Keys == c.tasks && Enabled(c, s, step) && t in c.tasks
    ensures ResetsDue(Apply(c, s, step), t)
            <= ResetsDue(s, t) + if step.OfLock? && step.act == AcquirePlan then 1 else 0
  {
    hide WellFormed, Marks, AddMarks, ApplyLock, LockEnabled, ApplyRun, RunEnabled;
    match step
    case OfRun(th, r) => RunStepEffect(c, s, th, r, t);
    case OfLock(th, act) => LockResetsDue(c, s, th, act, t);
    case _ => MarkEffect(c, s, step, t);
  }

  lemma {:induction false} ResetsDueRun(c: Config, s: State, steps: seq<Step>, t: Task)
    requires s.exec.Keys == c.tasks && IsRunFrom(c, s, steps) && t in c.tasks
    ensures ResetsDue(After(c, s, steps), t) <= ResetsDue(s, t) + Plans(steps)
    decreases |steps|
  {
    if steps != [] {
      ResetsDueStep(c, s, steps[0], t);
      ResetsDueRun(c, Apply(c, s, steps[0]), steps[1..], t);
    }
  }

  /** Between plans invalidations coalesce: over any stretch of a run, a task that has run is started again at
      most once per plan made in the stretch, plus one if a plan has collected it already; one that is
      invalid can be started once more. With no plan in the stretch, that is no start and one. */
  lemma InvalidationsCoalesce(c: Config, s: State, steps: seq<Step>, t: Task)
    requires Reachable(c, s) && IsRunFrom(c, s, steps) && t in c.tasks
    ensures s.exec[t].state.Running? || s.exec[t].state.Error? || s.exec[t].state.Done? ==>
      After(c, s, steps).exec[t].starts <= s.exec[t].starts + Plans(steps) + if Collected(s, t) then 1 else 0
    ensures s.exec[t].state.Invalid? ==>
      After(c, s, steps).exec[t].starts <= s.exec[t].starts + Plans(steps) + 1 + if Collected(s, t) then 1 else 0
  {
    hide WellFormed, IsRunFrom, After, Inv, TraceOk, CtxOk;
    ReachableInv(c, s);
    ResetsDueRun(c, s, steps, t);
    RunInv(c, s, steps);
    StartsAndResets(c, s, t);
    StartsAndResets(c, After(c, s, steps), t);
  }

  lemma StartsAndResets(c: Config, s: State, t: Task)
    requires Inv(c, s) && s.exec.Keys == c.tasks && t in c.tasks
    ensures s.exec[t].resets <= s.exec[t].starts <= s.exec[t].resets + 1
    ensures s.exec[t].state.Invalid? ==> s.exec[t].starts == s.exec[t].resets
    ensures s.exec[t].state.Running? || s.exec[t].state.Error? || s.exec[t].state.Done? ==>
      s.exec[t].starts == s.exec[t].resets + 1
  {
    hide WellFormed, TasksOk, ChainsOk, CancelledOk, ThreadsOk, LockOk, TraceOk, CtxOk;
    TaskAt(c, s, t);
  }

  /** So over a whole run a task is started at most once more than plans were made. */
  lemma StartsInARun(c: Config, steps: seq<Step>, t: Task)
    requires IsRunFrom(c, Init(c), steps) && t in c.tasks
    ensures After(c, Init(c), steps).exec[t].starts <= 1 + Plans(steps)
  {
    hide WellFormed, IsRunFrom, After, Reachable;
    InitReachable(c);
    InvalidationsCoalesce(c, Init(c), steps, t);
  }

}
