/** What a shutdown leads to: the executor comes to an end after a bounded number of its own steps, and Run
    returns from it iff no task of the graph restarts itself. */
module Shutdown {
  import opened Tasks
  import opened Machine
  import opened Invariant
  import opened Preservation
  import opened Safety
  import opened Wakeup
  import opened Progress
  import opened Totals

  // ---------------------------------------------------------------------------------------------
  // Without a task that restarts itself, no run is ever at its send to the loop

  predicate NoRunSends(s: State) {
    forall th :: th in s.threads && th.RunOf? ==> !s.threads[th].Signalling?
  }

  lemma StepSends(c: Config, s: State, step: Step)
    requires s.exec.Keys == c.tasks && Enabled(c, s, step) && NoRunSends(s) && NoneRestarts(c)
    ensures NoRunSends(Apply(c, s, step))
  {
    hide WellFormed, ApplyLock, ApplyRun, RunEnabled, LockEnabled, Marks, AddMarks, Accepts;
    match step
    case OfLock(th, act) => LockAdvances(c, s, th, act);
    case OfRun(th, r) => RunStepSends(c, s, th, r);
    case _ =>
  }

  lemma RunStepSends(c: Config, s: State, th: ThreadId, r: RunStep)
    requires s.exec.Keys == c.tasks && RunEnabled(c, s, th, r) && NoRunSends(s) && NoneRestarts(c)
    ensures NoRunSends(ApplyRun(c, s, th, r))
  {
    hide WellFormed, ApplyRun;
    RunLeavesOthers(c, s, th, r);
    RunAdvances(c, s, th, r);
    assert !RestartsItself(c, th.task);
  }

  lemma {:induction false} RunSends(c: Config, s: State, steps: seq<Step>)
    requires s.exec.Keys == c.tasks && IsRunFrom(c, s, steps) && NoRunSends(s) && NoneRestarts(c)
    ensures NoRunSends(After(c, s, steps))
    decreases |steps|
  {
    hide WellFormed, Enabled, Apply, NoRunSends, RestartsItself;
    if steps != [] {
      StepSends(c, s, steps[0]);
      RunSends(c, Apply(c, s, steps[0]), steps[1..]);
    }
  }

  lemma NoneHangs(c: Config, s: State, th: ThreadId)
    requires Reachable(c, s) && th.RunOf? && NoneRestarts(c)
    ensures !Hung(s, th)
  {
    hide WellFormed, IsRunFrom, After, RestartsItself;
    var steps :| IsRunFrom(c, Init(c), steps) && s == After(c, Init(c), steps);
    RunSends(c, Init(c), steps);
  }

  // ---------------------------------------------------------------------------------------------
  // With one, some run gets there: the first pass completes every task, dependencies first; then the
  // channel is filled, the loop exits, and the task restarts itself

  /** The first pass has visited `done`, and the runs it started have succeeded and sent their tokens. */
  ghost predicate Passed(c: Config, s: State, done: set<Task>) {
    && Reachable(c, s) && done <= c.tasks && s.lock == Passer(Main, c.tasks - done) && At(s, Main, Passing)
    && At(s, Loop, Selecting) && s.cancelled == {} && !s.signal
    && (forall t {:trigger PassedTask(s, done, t)} :: t in c.tasks ==> PassedTask(s, done, t))
  }

  predicate PassedTask(s: State, done: set<Task>, t: Task)
    requires t in s.exec
  {
    if t in done then s.exec[t].state == Done && At(s, RunOf(t, 0), KeepingAlive(false))
    else s.exec[t].state == Invalid && s.exec[t].starts == 0 && s.exec[t].terminal == 0
  }

  lemma Next(c: Config, s: State, step: Step) returns (s': State)
    requires Reachable(c, s) && Enabled(c, s, step) && !(step.OfLock? && step.act.BeginReset?)
    ensures s' == Apply(c, s, step) && Reachable(c, s') && s'.exec.Keys == c.tasks
  {
    hide WellFormed, Reachable, Enabled, Apply;
    s' := Apply(c, s, step);
    ReachableStep(c, s, step);
  }

  lemma PassBegins(c: Config) returns (s: State)
    ensures Passed(c, s, {})
  {
    hide WellFormed, Reachable, Passed;
    InitReachable(c);
    var s1 := FindsLive(c, Init(c));
    s := TakesLock(c, s1);
    NonePassed(c, s);
  }

  lemma FindsLive(c: Config, s: State) returns (s': State)
    requires Reachable(c, s) && At(s, Main, CheckPass) && Root !in s.cancelled
    ensures Reachable(c, s') && s' == s.(threads := s.threads[Main := AwaitPass])
  {
    hide WellFormed, Reachable;
    s' := Next(c, s, OfLock(Main, CheckLive));
  }

  lemma TakesLock(c: Config, s: State) returns (s': State)
    requires Reachable(c, s) && At(s, Main, AwaitPass) && s.lock == Free
    ensures Reachable(c, s') && s' == s.(lock := Passer(Main, c.tasks), threads := s.threads[Main := Passing])
  {
    hide WellFormed, Reachable;
    s' := Next(c, s, OfLock(Main, AcquirePass));
  }

  lemma NonePassed(c: Config, s: State)
    requires Reachable(c, s) && s.exec == Init(c).exec && s.lock == Passer(Main, c.tasks) && s.cancelled == {} && !s.signal
    requires At(s, Main, Passing) && At(s, Loop, Selecting)
    ensures Passed(c, s, {})
  {
    hide WellFormed, Reachable;
    assert c.tasks - {} == c.tasks;
  }

  /** A run that starts in a live executor and succeeds, up to its keep-alive check. */
  /** A run that starts in a live executor, up to the decision that it succeeded. */
  lemma RunDecides(c: Config, s: State, th: ThreadId) returns (s': State)
    requires Reachable(c, s) && IsRun(c, s, th) && s.threads[th] == Spawned && s.cancelled == {}
    requires s.exec[th.task].terminal == 0
    ensures Reachable(c, s') && s'.exec.Keys == c.tasks && s'.exec[th.task].terminal == 0
    ensures s' == s.(threads := s.threads[th := Decided(Success, false)], exec := s.exec[th.task := s'.exec[th.task]])
  {
    hide WellFormed, Reachable, Cancelled;
    NothingCancelled(s.exec[th.task].ctx);
    var s1 := Next(c, s, OfRun(th, Capture));
    s' := Next(c, s1, OfRun(th, Decide(false)));
    assert s'.threads == s.threads[th := Decided(Success, false)];
  }

  /** It goes on to its keep-alive check. */
  lemma RunSucceeds(c: Config, s: State, th: ThreadId) returns (s': State)
    requires Reachable(c, s) && IsRun(c, s, th) && s.threads[th] == Spawned && s.cancelled == {}
    requires s.exec[th.task].terminal == 0
    ensures Reachable(c, s') && s'.exec.Keys == c.tasks && s'.exec[th.task].state == Done
    ensures s' == s.(threads := s.threads[th := KeepingAlive(false)], exec := s.exec[th.task := s'.exec[th.task]])
  {
    hide WellFormed, Reachable;
    var s1 := RunDecides(c, s, th);
    var s2 := Next(c, s1, OfRun(th, Write));
    s' := Next(c, s2, OfRun(th, Flush));
    assert s'.threads == s.threads[th := KeepingAlive(false)];
  }

  lemma VisitSucceeds(c: Config, s: State, done: set<Task>, t: Task) returns (s': State)
    requires Passed(c, s, done) && t in c.tasks && t !in done && t in c.below && c.below[t] <= done
    ensures Reachable(c, s') && s'.exec.Keys == c.tasks && s'.exec == s.exec[t := s'.exec[t]] && s'.exec[t].state == Done
    ensures s' == s.(lock := Passer(Main, c.tasks - done - {t}), threads := s.threads[RunOf(t, 0) := KeepingAlive(false)],
                     exec := s'.exec, running := s'.running)
  {
    hide WellFormed, Reachable, PassedTask, Executable, Visited;
    ReadyToVisit(c, s, done, t);
    var s1 := Next(c, s, OfLock(Main, Visit(t)));
    s' := RunSucceeds(c, s1, RunOf(t, 0));
    assert s'.threads == s.threads[RunOf(t, 0) := KeepingAlive(false)];
  }

  lemma PassGoesOn(c: Config, s: State, done: set<Task>, t: Task) returns (s': State)
    requires Passed(c, s, done) && t in c.tasks && t !in done && t in c.below && c.below[t] <= done
    ensures Passed(c, s', done + {t})
  {
    hide WellFormed, Reachable, PassedTask;
    s' := VisitSucceeds(c, s, done, t);
    assert c.tasks - done - {t} == c.tasks - (done + {t});
    forall u | u in c.tasks ensures PassedTask(s', done + {t}, u) {
      StaysPassed(s, s', done, t, u);
    }
  }

  lemma ReadyToVisit(c: Config, s: State, done: set<Task>, t: Task)
    requires Passed(c, s, done) && t in c.tasks && t !in done && t in c.below && c.below[t] <= done
    ensures Visited(c, s, Main, t) == Start(s.(lock := Passer(Main, c.tasks - done - {t})), t)
    ensures s.exec[t].starts == 0 && s.exec[t].terminal == 0
  {
    hide WellFormed, Reachable, Start;
    assert PassedTask(s, done, t);
    BelowIsInside(c, t);
    forall d | d in c.below[t] ensures s.exec[d].state == Done { assert PassedTask(s, done, d); }
  }

  lemma StaysPassed(s: State, s': State, done: set<Task>, t: Task, u: Task)
    requires t in s.exec && u in s.exec && u in s'.exec && PassedTask(s, done, u)
    requires u != t ==> s'.exec[u] == s.exec[u]
    requires forall th :: th in s.threads && th != RunOf(t, 0) && th != Main ==>
      th in s'.threads && s'.threads[th] == s.threads[th]
    requires t in s'.exec && s'.exec[t].state == Done && At(s', RunOf(t, 0), KeepingAlive(false))
    ensures PassedTask(s', done + {t}, u)
  {}

  /** A task that is not done has, among itself and its dependencies, one whose dependencies are done. */
  lemma {:induction false} NextToVisit(c: Config, done: set<Task>, t: Task) returns (u: Task)
    requires t in c.tasks && t !in done
    ensures u in c.tasks && u !in done && u in c.below && c.below[u] <= done
    decreases if t in c.below then |c.below[t]| else 0
  {
    hide WellFormed;
    BelowIsInside(c, t);
    if d :| d in c.below[t] && d !in done {
      BelowShrinks(c, t, d);
      BelowIsInside(c, d);
      u := NextToVisit(c, done, d);
    } else {
      u := t;
    }
  }

  lemma {:induction false} PassCompletes(c: Config, s: State, done: set<Task>) returns (s': State)
    requires Passed(c, s, done)
    ensures Passed(c, s', c.tasks)
    decreases |c.tasks - done|
  {
    hide WellFormed, Passed;
    PassedInside(c, s, done);
    if t :| t in c.tasks && t !in done {
      var u := NextToVisit(c, done, t);
      var s1 := PassGoesOn(c, s, done, u);
      SmallerSubset(c.tasks - (done + {u}), c.tasks - done, u);
      s' := PassCompletes(c, s1, done + {u});
    } else {
      assert done == c.tasks;
      s' := s;
    }
  }

  lemma PassedInside(c: Config, s: State, done: set<Task>)
    requires Passed(c, s, done)
    ensures done <= c.tasks
  {}

  /** The task's own event fills the channel. */
  lemma ChannelFills(c: Config, s: State, t: Task) returns (s': State)
    requires Passed(c, s, c.tasks) && RestartsItself(c, t)
    ensures Reachable(c, s') && s'.exec.Keys == c.tasks && s'.exec[t].state == Done
    ensures At(s', RunOf(t, 0), KeepingAlive(false)) && At(s', Loop, Selecting) && s'.signal && At(s', Main, Passing)
  {
    hide WellFormed, Reachable, Marks, AddMarks, InvalidIn, MarkedTasks;
    assert PassedTask(s, c.tasks, t);
    MarkedExecution(s.exec, Marks(c, InvalidIn(s.exec), t, KeepAliveStopped), t);
    var s1 := Next(c, s, Invalidate(t, KeepAliveStopped));
    s' := Next(c, s1, Signal(Sender(s.nextId)));
  }

  lemma LoopGone(c: Config, s: State, t: Task) returns (s': State)
    requires Reachable(c, s) && t in s.exec && s.exec[t].state == Done
    requires At(s, RunOf(t, 0), KeepingAlive(false)) && At(s, Loop, Selecting) && s.signal && At(s, Main, Passing)
    ensures Reachable(c, s') && t in s'.exec && s'.exec[t].state == Done && Root in s'.cancelled
    ensures At(s', RunOf(t, 0), KeepingAlive(false)) && At(s', Loop, LoopExited) && s'.signal && At(s', Main, Passing)
  {
    hide WellFormed, Reachable;
    var s1 := Next(c, s, Shutdown);
    s' := Next(c, s1, OfLoop(Exit));
  }

  /** For every task that restarts itself there is a run after which it hangs, with the shutdown begun and
      the main goroutine not returned. */
  lemma CanHang(c: Config, t: Task) returns (s: State)
    requires RestartsItself(c, t)
    ensures Reachable(c, s) && Hung(s, RunOf(t, 0)) && Root in s.cancelled && !At(s, Main, Returned)
  {
    hide WellFormed, Reachable, Passed, Marks, AddMarks;
    var s0 := PassBegins(c);
    var s1 := PassCompletes(c, s0, {});
    var s2 := ChannelFills(c, s1, t);
    var s3 := LoopGone(c, s2, t);
    s := Next(c, s3, OfRun(RunOf(t, 0), KeepAlive));
  }

  /** Some run of a task can hang iff some task of the graph restarts itself. */
  lemma HangsIff(c: Config)
    ensures (exists s, th: ThreadId :: Reachable(c, s) && th.RunOf? && Hung(s, th)) <==> exists t :: RestartsItself(c, t)
  {
    hide WellFormed, Reachable, RestartsItself, Hung;
    if t :| RestartsItself(c, t) {
      var s := CanHang(c, t);
    } else if s, th: ThreadId :| Reachable(c, s) && th.RunOf? && Hung(s, th) {
      NoneHangs(c, s, th);
    }
  }

  // ---------------------------------------------------------------------------------------------
  // After a shutdown every run ends

  /** What a thread in this phase can still set off after a shutdown, in steps, with `n` tasks. */
  function PhaseWork(n: nat, ph: Phase): nat {
    match ph
    case Spawned => 4 * n + 17
    case Body(_) => 4 * n + 16
    case Decided(_, _) => 4 * n + 15
    case Flushing(_) => 4 * n + 14
    case KeepingAlive(_) => 4 * n + 13
    case Signalling(_) => 4 * n + 12
    case AwaitPlan => 2 * n + 5
    case Planning => 4
    case CheckPass => 2
    case AwaitPass => VisitsWork(n, n) + 3
    case Passing => 2
    case Waiting => 1
    case Returned => 0
    case Selecting => 1
    case LoopExited => 0
  }

  /** A visit may start a task. */
  function VisitsWork(n: nat, visits: nat): nat {
    visits * (4 * n + 18)
  }

  function LockWork(n: nat, lock: Lock): nat {
    match lock
    case Free => 0
    case Planner(_, todo) => 2 * |todo|
    case Resetter(_, _, todo) => 2 * |todo| + 1
    case Passer(_, unvisited) => VisitsWork(n, |unvisited|)
  }

  function Works(n: nat, threads: map<ThreadId, Phase>): map<ThreadId, nat> {
    map th | th in threads :: PhaseWork(n, threads[th])
  }

  ghost function ThreadsWork(n: nat, threads: map<ThreadId, Phase>): nat {
    Total(Works(n, threads))
  }

  /** A signal leads to a timer, and that to a plan. */
  function LoopWork(n: nat, signal: bool, timer: bool): nat {
    (if signal then 2 * n + 6 else 0) + if timer then 2 * n + 5 else 0
  }

  ghost function Work(n: nat, s: State): nat {
    ThreadsWork(n, s.threads) + LockWork(n, s.lock) + LoopWork(n, s.signal, s.timer)
  }

  lemma WorkPut(n: nat, threads: map<ThreadId, Phase>, th: ThreadId, ph: Phase)
    ensures ThreadsWork(n, threads[th := ph]) + (if th in threads then PhaseWork(n, threads[th]) else 0)
         == ThreadsWork(n, threads) + PhaseWork(n, ph)
  {
    hide PhaseWork;
    assert Works(n, threads[th := ph]) == Works(n, threads)[th := PhaseWork(n, ph)];
    TotalPut(Works(n, threads), th, PhaseWork(n, ph));
  }

  lemma WorkRemoved(n: nat, threads: map<ThreadId, Phase>, th: ThreadId)
    requires th in threads
    ensures ThreadsWork(n, threads - {th}) + PhaseWork(n, threads[th]) == ThreadsWork(n, threads)
  {
    hide PhaseWork;
    assert Works(n, threads - {th}) == Works(n, threads) - {th};
    TotalRemove(Works(n, threads), th);
  }

  lemma OneVisitLess(n: nat, unvisited: set<Task>, t: Task)
    requires t in unvisited
    ensures VisitsWork(n, |unvisited|) == VisitsWork(n, |unvisited - {t}|) + 4 * n + 18
  {
    OneMore(|unvisited - {t}|, 4 * n + 18);
  }

  lemma WorkLeaves(n: nat, s: State, th: ThreadId)
    requires th in s.threads && PhaseWork(n, s.threads[th]) == 2
    ensures Work(n, AfterPass(s, th)) < Work(n, s)
  {
    WorkPut(n, s.threads, th, Waiting);
    WorkRemoved(n, s.threads, th);
    hide ThreadsWork, LockWork, LoopWork;
  }

  lemma RunStepWork(c: Config, s: State, th: ThreadId, r: RunStep)
    requires s.exec.Keys == c.tasks && RunEnabled(c, s, th, r)
    ensures Work(|c.tasks|, ApplyRun(c, s, th, r)) < Work(|c.tasks|, s)
  {
    hide WellFormed, ApplyRun, ThreadsWork, LockWork, LoopWork, KeptAliveSends;
    var s' := ApplyRun(c, s, th, r);
    RunLeavesOthers(c, s, th, r);
    RunAdvances(c, s, th, r);
    WorkPut(|c.tasks|, s.threads, th, s'.threads[th]);
    assert s'.threads == s.threads[th := s'.threads[th]];
  }

  lemma CardinalityBound(a: set<Task>, b: set<Task>)
    requires a <= b
    ensures |a| <= |b|
  {
    assert b == a + (b - a);
  }

  lemma PlanStepWork(c: Config, s: State, th: ThreadId, act: LockStep)
    requires s.exec.Keys == c.tasks && LockEnabled(c, s, th, act) && HoldsRightly(s, th)
    requires act.AcquirePlan? || act.BeginReset? || act.EndReset? || act.ReleasePlan?
    ensures Work(|c.tasks|, ApplyLock(c, s, th, act)) < Work(|c.tasks|, s)
  {
    hide WellFormed, ThreadsWork, LoopWork, Reset, Settle, PlanReleased;
    match act
    case AcquirePlan =>
      WorkPut(|c.tasks|, s.threads, th, Planning);
      CardinalityBound(Collect(c, s), c.tasks);
    case BeginReset(t) => SmallerSubset(s.lock.todo - {t}, s.lock.todo, t);
    case EndReset =>
    case ReleasePlan => ReleaseWork(|c.tasks|, s, th);
  }

  lemma ReleaseWork(n: nat, s: State, th: ThreadId)
    requires s.lock == Planner(th, {}) && th in s.threads && s.threads[th] == Planning
    ensures Work(n, PlanReleased(s, th)) < Work(n, s)
  {
    hide ThreadsWork, LoopWork;
    if th.Loop? {
      WorkPut(n, s.threads, Loop, Selecting);
      WorkPut(n, s.threads[Loop := Selecting], Worker(s.nextId), CheckPass);
    } else {
      WorkPut(n, s.threads, th, CheckPass);
    }
  }

  lemma VisitWork(c: Config, s: State, th: ThreadId, t: Task)
    requires s.exec.Keys == c.tasks && LockEnabled(c, s, th, Visit(t))
    ensures Work(|c.tasks|, Visited(c, s, th, t)) < Work(|c.tasks|, s)
  {
    hide WellFormed, ThreadsWork, LoopWork, Executable, VisitsWork, Begun;
    OneVisitLess(|c.tasks|, s.lock.unvisited, t);
    WorkPut(|c.tasks|, s.threads, RunOf(t, s.exec[t].starts), Spawned);
  }

  lemma PassStepWork(c: Config, s: State, th: ThreadId, act: LockStep)
    requires s.exec.Keys == c.tasks && LockEnabled(c, s, th, act) && HoldsRightly(s, th) && Root in s.cancelled
    requires act.CheckLive? || act.AcquirePass? || act.Visit? || act.ReleasePass?
    ensures Work(|c.tasks|, ApplyLock(c, s, th, act)) < Work(|c.tasks|, s)
  {
    hide WellFormed, ThreadsWork, LoopWork, Visited, AfterPass;
    match act
    case CheckLive => WorkLeaves(|c.tasks|, s, th);
    case AcquirePass => WorkPut(|c.tasks|, s.threads, th, Passing);
    case Visit(t) => VisitWork(c, s, th, t);
    case ReleasePass => WorkLeaves(|c.tasks|, s.(lock := Free), th);
  }

  lemma LoopStepWork(n: nat, s: State, l: LoopStep)
    requires LoopEnabled(s, l)
    ensures Work(n, ApplyLoop(s, l)) < Work(n, s)
  {
    hide ThreadsWork, LockWork;
    WorkPut(n, s.threads, Loop, AwaitPlan);
    WorkPut(n, s.threads, Loop, LoopExited);
  }

  lemma SignalWork(n: nat, s: State, th: ThreadId)
    requires th in s.threads && s.threads[th].Signalling? && !s.signal
    ensures Work(n, SignalSent(s, th)) < Work(n, s)
  {
    hide ThreadsWork, LockWork;
    WorkRemoved(n, s.threads, th);
    WorkPut(n, s.threads, th, AfterKeepAlive(s.threads[th].failed));
  }

  /** A call of Executor.Invalidate may bring one thread more to its send. */
  lemma CallWork(c: Config, s: State, t: Task, e: Event)
    requires s.exec.Keys == c.tasks && t in c.tasks
    ensures Work(|c.tasks|, Invalidated(c, s, t, e)) <= Work(|c.tasks|, s) + 4 * |c.tasks| + 12
  {
    hide WellFormed, ThreadsWork, LockWork, LoopWork, Marks, AddMarks, Accepts;
    WorkPut(|c.tasks|, s.threads, Sender(s.nextId), Signalling(false));
  }

  lemma OtherStepWork(c: Config, s: State, step: Step)
    requires s.exec.Keys == c.tasks && Enabled(c, s, step) && !step.OfLock? && !step.OfRun?
    ensures Work(|c.tasks|, Apply(c, s, step)) + (if Internal(step) then 1 else 0)
         <= Work(|c.tasks|, s) + if step.Invalidate? then 4 * |c.tasks| + 12 else 0
  {
    hide WellFormed, ThreadsWork, LockWork, LoopWork, Marks, AddMarks, Invalidated, SignalSent, ApplyLoop, LoopEnabled;
    match step
    case Invalidate(t, e) => CallWork(c, s, t, e);
    case Signal(th) => SignalWork(|c.tasks|, s, th);
    case OfLoop(l) => LoopStepWork(|c.tasks|, s, l);
    case MainReturn => WorkPut(|c.tasks|, s.threads, Main, Returned);
    case _ =>
  }

  /** Once the executor is shut down, each step of its own takes from the work that is left, and only a call
      of Executor.Invalidate adds to it. */
  lemma StepWork(c: Config, s: State, step: Step)
    requires Inv(c, s) && s.exec.Keys == c.tasks && Enabled(c, s, step) && Root in s.cancelled
    ensures Work(|c.tasks|, Apply(c, s, step)) + (if Internal(step) then 1 else 0)
         <= Work(|c.tasks|, s) + if step.Invalidate? then 4 * |c.tasks| + 12 else 0
    ensures Root in Apply(c, s, step).cancelled
  {
    hide WellFormed, Inv, Work, ApplyLock, ApplyRun, RunEnabled;
    StaysDown(c, s, step);
    match step
    case OfLock(th, act) =>
      ThreadAt(c, s, th);
      if act.CheckLive? || act.AcquirePass? || act.Visit? || act.ReleasePass? {
        PassStepWork(c, s, th, act);
      } else {
        PlanStepWork(c, s, th, act);
      }
    case OfRun(th, r) => RunStepWork(c, s, th, r);
    case _ => OtherStepWork(c, s, step);
  }

  lemma StaysDown(c: Config, s: State, step: Step)
    requires s.exec.Keys == c.tasks && Enabled(c, s, step)
    ensures s.cancelled <= Apply(c, s, step).cancelled
  {
    hide WellFormed, ApplyLock, ApplyRun, RunEnabled, LockEnabled, Marks, AddMarks, Accepts;
    match step
    case OfLock(th, act) => LockStepShrinks(c, s, th, act);
    case OfRun(th, r) => RunLeavesOthers(c, s, th, r);
    case _ =>
  }

  /** How many of the steps are the executor's own, and how many are calls of Executor.Invalidate. */
  function OwnSteps(steps: seq<Step>): nat {
    if steps == [] then 0 else (if Internal(steps[0]) then 1 else 0) + OwnSteps(steps[1..])
  }

  function Calls(steps: seq<Step>): nat {
    if steps == [] then 0 else (if steps[0].Invalidate? then 1 else 0) + Calls(steps[1..])
  }

  /** After a shutdown the executor takes a bounded number of steps of its own, whatever the interleaving: a
      bound fixed by the state and, at most, by how often Executor.Invalidate is called from then on. */
  lemma {:induction false} ShutdownEnds(c: Config, s: State, steps: seq<Step>)
    requires Inv(c, s) && Root in s.cancelled && IsRunFrom(c, s, steps)
    ensures OwnSteps(steps) <= Work(|c.tasks|, s) + Calls(steps) * (4 * |c.tasks| + 12)
    ensures Inv(c, After(c, s, steps)) && Root in After(c, s, steps).cancelled
    decreases |steps|
  {
    hide WellFormed, Inv, Work, Enabled, Apply, Atomic;
    InvKeys(c, s);
    if steps != [] {
      StepInv(c, s, steps[0]);
      StepWork(c, s, steps[0]);
      ShutdownEnds(c, Apply(c, s, steps[0]), steps[1..]);
      OneMore(Calls(steps[1..]), 4 * |c.tasks| + 12);
    }
  }

  // ---------------------------------------------------------------------------------------------
  // Nothing is started any more

  /** No thread has got past the check of its pass for a shutdown. */
  predicate NonePasses(s: State) {
    forall th :: th in s.threads ==> s.threads[th] != AwaitPass && s.threads[th] != Passing
  }

  lemma NoVisits(s: State, th: ThreadId)
    requires th in s.threads && HoldsRightly(s, th) && NonePasses(s)
    ensures !(s.lock.Passer? && s.lock.holder == th)
  {}

  lemma PlanKeepsOut(c: Config, s: State, th: ThreadId, act: LockStep)
    requires s.exec.Keys == c.tasks && LockEnabled(c, s, th, act) && NonePasses(s)
    requires act.AcquirePlan? || act.BeginReset? || act.EndReset? || act.ReleasePlan?
    ensures NonePasses(ApplyLock(c, s, th, act))
  {
    hide WellFormed, Collect, PlanReleased, Reset, Settle;
    if act.ReleasePlan? { ReleaseKeepsOut(s, th); }
  }

  lemma LockKeepsOut(c: Config, s: State, th: ThreadId, act: LockStep)
    requires s.exec.Keys == c.tasks && LockEnabled(c, s, th, act) && Root in s.cancelled && NonePasses(s) && !act.Visit?
    ensures NonePasses(ApplyLock(c, s, th, act))
  {
    hide WellFormed, Collect, AfterPass, PlanReleased, ResetBegun, ResetEnded;
    match act
    case CheckLive => LeaverStays(s, th);
    case AcquirePass =>
    case ReleasePass => LeaverStays(s.(lock := Free), th);
    case _ => PlanKeepsOut(c, s, th, act);
  }

  lemma ReleaseKeepsOut(s: State, th: ThreadId)
    requires NonePasses(s)
    ensures NonePasses(PlanReleased(s, th))
  {}

  lemma OnlyVisitsStart(c: Config, s: State, th: ThreadId, act: LockStep, t: Task)
    requires s.exec.Keys == c.tasks && LockEnabled(c, s, th, act) && !act.Visit? && t in c.tasks
    ensures ApplyLock(c, s, th, act).exec[t].starts == s.exec[t].starts
  {
    hide WellFormed, Collect, Executable;
  }

  lemma StepKeepsOut(c: Config, s: State, step: Step, t: Task)
    requires Inv(c, s) && s.exec.Keys == c.tasks && Enabled(c, s, step) && Root in s.cancelled && NonePasses(s)
    requires t in c.tasks
    ensures NonePasses(Apply(c, s, step)) && Apply(c, s, step).exec[t].starts == s.exec[t].starts
  {
    hide WellFormed, Inv, Apply, Enabled, ApplyLock, ApplyRun, LockEnabled, NonePasses;
    match step
    case OfLock(th, act) => LockStepKeepsOut(c, s, th, act, t);
    case OfRun(th, r) => RunStepKeepsOut(c, s, th, r, t);
    case _ =>
      MarkEffect(c, s, step, t);
      OtherStepKeepsOut(c, s, step);
  }

  lemma LockStepKeepsOut(c: Config, s: State, th: ThreadId, act: LockStep, t: Task)
    requires Inv(c, s) && s.exec.Keys == c.tasks && Enabled(c, s, OfLock(th, act)) && Root in s.cancelled && NonePasses(s)
    requires t in c.tasks
    ensures NonePasses(Apply(c, s, OfLock(th, act))) && Apply(c, s, OfLock(th, act)).exec[t].starts == s.exec[t].starts
  {
    hide WellFormed, Inv, ApplyLock, NonePasses;
    ThreadAt(c, s, th);
    NoVisits(s, th);
    LockKeepsOut(c, s, th, act);
    OnlyVisitsStart(c, s, th, act, t);
  }

  lemma RunStepKeepsOut(c: Config, s: State, th: ThreadId, r: RunStep, t: Task)
    requires s.exec.Keys == c.tasks && Enabled(c, s, OfRun(th, r)) && NonePasses(s) && t in c.tasks
    ensures NonePasses(Apply(c, s, OfRun(th, r))) && Apply(c, s, OfRun(th, r)).exec[t].starts == s.exec[t].starts
  {
    hide WellFormed, ApplyRun;
    RunStepEffect(c, s, th, r, t);
    RunLeavesOthers(c, s, th, r);
    RunAdvances(c, s, th, r);
  }

  lemma OtherStepKeepsOut(c: Config, s: State, step: Step)
    requires s.exec.Keys == c.tasks && Enabled(c, s, step) && NonePasses(s) && !step.OfLock? && !step.OfRun?
    ensures NonePasses(Apply(c, s, step))
  {
    hide WellFormed, Marks, AddMarks, MarkedTasks, InvalidIn, Accepts;
  }

  /** Every pass looks for a shutdown before it takes the lock: once the passes under way are over, no task is
      ever started again. */
  lemma {:induction false} NoStartsAfterShutdown(c: Config, s: State, steps: seq<Step>, t: Task)
    requires Inv(c, s) && s.exec.Keys == c.tasks && Root in s.cancelled && NonePasses(s)
    requires IsRunFrom(c, s, steps) && t in c.tasks
    ensures After(c, s, steps).exec[t].starts == s.exec[t].starts
    decreases |steps|
  {
    hide WellFormed, Inv, NonePasses, Enabled, Apply, Atomic;
    if steps != [] {
      StepKeepsOut(c, s, steps[0], t);
      StaysDown(c, s, steps[0]);
      StepInv(c, s, steps[0]);
      NoStartsAfterShutdown(c, Apply(c, s, steps[0]), steps[1..], t);
    }
  }

  /** So nothing is ever started if the shutdown comes first. */
  lemma NothingStartsAfterEarlyShutdown(c: Config, steps: seq<Step>, t: Task)
    requires IsRunFrom(c, Init(c), steps) && steps != [] && steps[0] == Shutdown && t in c.tasks
    ensures After(c, Init(c), steps).exec[t].starts == 0
  {
    hide WellFormed, Inv, Atomic;
    InitInv(c);
    StepInv(c, Init(c), steps[0]);
    NoStartsAfterShutdown(c, Apply(c, Init(c), steps[0]), steps[1..], t);
  }

  // ---------------------------------------------------------------------------------------------
  // Where it ends

  /** A run of the executor's own steps after which none is left. */
  ghost predicate Ends(c: Config, s: State, steps: seq<Step>)
    requires s.exec.Keys == c.tasks
  {
    && IsRunFrom(c, s, steps) && (forall i :: 0 <= i < |steps| ==> Internal(steps[i]))
    && forall step :: !CanMove(c, After(c, s, steps), step)
  }

  lemma {:induction false} CanEnd(c: Config, s: State) returns (steps: seq<Step>)
    requires Inv(c, s) && s.exec.Keys == c.tasks && Root in s.cancelled
    ensures Ends(c, s, steps)
    decreases Work(|c.tasks|, s)
  {
    hide WellFormed, Inv, Work, Enabled, Apply, Atomic, Ends;
    if step :| CanMove(c, s, step) {
      StepInv(c, s, step);
      StepWork(c, s, step);
      var more := CanEnd(c, Apply(c, s, step));
      steps := [step] + more;
      EndsLater(c, s, step, more);
    } else {
      steps := [];
      EndsHere(c, s);
    }
  }

  lemma EndsHere(c: Config, s: State)
    requires s.exec.Keys == c.tasks && forall step :: !CanMove(c, s, step)
    ensures Ends(c, s, [])
  {
    hide WellFormed, CanMove;
  }

  lemma EndsLater(c: Config, s: State, step: Step, more: seq<Step>)
    requires s.exec.Keys == c.tasks && CanMove(c, s, step) && Ends(c, Apply(c, s, step), more)
    ensures Ends(c, s, [step] + more)
  {
    hide WellFormed, Enabled, Apply, Atomic, Internal;
    var steps := [step] + more;
    assert steps[0] == step && steps[1..] == more;
    assert After(c, s, steps) == After(c, Apply(c, s, step), more);
  }

  lemma {:induction false} ReachableAfter(c: Config, s: State, steps: seq<Step>)
    requires Reachable(c, s) && IsRunFrom(c, s, steps)
    ensures Reachable(c, After(c, s, steps))
    decreases |steps|
  {
    hide WellFormed, Reachable, Enabled, Apply, Atomic;
    if steps != [] {
      ReachableStep(c, s, steps[0]);
      ReachableAfter(c, Apply(c, s, steps[0]), steps[1..]);
    }
  }

  /** When no step is left, Run has returned or the run of some task hangs. */
  lemma EndIsReturn(c: Config, s: State)
    requires Reachable(c, s) && forall step :: !CanMove(c, s, step)
    ensures At(s, Main, Returned) || exists th: ThreadId :: th.RunOf? && Hung(s, th)
  {
    hide WellFormed, Reachable, CanMove, TasksOk, ChainsOk, CancelledOk, LockOk, Hung;
    StuckIff(c, s);
    ReachableInv(c, s);
    ThreadAt(c, s, Main);
    if th :| th in s.threads && th.RunOf? {
      ThreadAt(c, s, th);
      assert !AtRest(s, th);
    } else {
      assert RunIds(s.threads) == {};
      assert !Hung(s, Main) by { MainNeverHangs(s); }
    }
  }

  lemma MainNeverHangs(s: State)
    requires Main in s.threads && ThreadOk(s, Main)
    ensures !Hung(s, Main)
  {}

  /** While a run hangs, the main goroutine does not return. */
  lemma {:induction false} NeverReturns(c: Config, s: State, steps: seq<Step>, th: ThreadId)
    requires Inv(c, s) && s.exec.Keys == c.tasks && IsRunFrom(c, s, steps)
    requires th.RunOf? && Hung(s, th) && !At(s, Main, Returned)
    ensures !At(After(c, s, steps), Main, Returned)
    decreases |steps|
  {
    hide WellFormed, Inv, Enabled, Apply, Atomic, Hung, At;
    if steps != [] {
      HungIsWaitedFor(c, s, th);
      OnlyMainReturns(c, s, steps[0]);
      HungStays(c, s, steps[0], th);
      StepInv(c, s, steps[0]);
      NeverReturns(c, Apply(c, s, steps[0]), steps[1..], th);
    }
  }

  lemma OnlyMainReturns(c: Config, s: State, step: Step)
    requires s.exec.Keys == c.tasks && Enabled(c, s, step) && !At(s, Main, Returned) && step != MainReturn
    ensures !At(Apply(c, s, step), Main, Returned)
  {
    hide WellFormed, ApplyLock, ApplyRun, LockEnabled, Marks, AddMarks, Accepts;
    match step
    case OfLock(th, act) => LockAdvances(c, s, th, act);
    case OfRun(th, r) => RunLeavesOthers(c, s, th, r);
    case _ =>
  }

  /** Whatever the interleaving, Run has returned when the executor has come to an end. */
  ghost predicate RunReturns(c: Config, s: State)
    requires s.exec.Keys == c.tasks
  {
    forall steps :: Ends(c, s, steps) ==> At(After(c, s, steps), Main, Returned)
  }

  /** Run returns after every shutdown iff no task of the graph is kept alive and accepts the end of its own
      run as a reason to be invalidated. */
  lemma ReturnsIff(c: Config)
    ensures (forall s :: Reachable(c, s) && Root in s.cancelled ==> RunReturns(c, s)) <==> NoneRestarts(c)
  {
    hide WellFormed, Reachable, RestartsItself, RunReturns, Hung, At;
    if t :| RestartsItself(c, t) {
      var s := CanHang(c, t);
      assert !RunReturns(c, s) by { HungRunDoesNotReturn(c, s, RunOf(t, 0)); }
    } else {
      forall s | Reachable(c, s) && Root in s.cancelled ensures RunReturns(c, s) {
        ReturnsWithoutRestarts(c, s);
      }
    }
  }

  lemma HungRunDoesNotReturn(c: Config, s: State, th: ThreadId)
    requires Reachable(c, s) && Root in s.cancelled && th.RunOf? && Hung(s, th) && !At(s, Main, Returned)
    ensures !RunReturns(c, s)
  {
    hide WellFormed, Reachable, Inv, Hung, At;
    ReachableInv(c, s);
    var steps := CanEnd(c, s);
    NeverReturns(c, s, steps, th);
  }

  lemma ReturnsWithoutRestarts(c: Config, s: State)
    requires Reachable(c, s) && NoneRestarts(c)
    ensures RunReturns(c, s)
  {
    hide WellFormed, Reachable, RestartsItself, Hung, At, CanMove;
    forall steps | Ends(c, s, steps) ensures At(After(c, s, steps), Main, Returned) {
      ReachableAfter(c, s, steps);
      EndIsReturn(c, After(c, s, steps));
      if th: ThreadId :| th.RunOf? && Hung(After(c, s, steps), th) {
        NoneHangs(c, After(c, s, steps), th);
      }
    }
  }
}
