/** The executor as a step machine: every goroutine that can touch the executions is a thread, and one
    step is one action of one thread. Any interleaving of steps is a run. */
module Machine {
  import opened Tasks

  datatype TaskState = Invalid | Running | Error | Done | Canceled

  datatype RunEvent = Started | Completed | Failed | Stopped

  /** One node of the executor's graph. `terminal` is the number of tokens in the terminal channel.
      `starts`, `resets` and `trace` are history: the passes that started the task, the invalidations
      that took effect, and the run events published so far. */
  datatype Execution = Execution(
    state: TaskState,
    ctx: Ctx,
    terminal: nat,
    pending: set<Event>,
    starts: nat,
    resets: nat,
    trace: seq<RunEvent>)

  /** `RunOf(t, n)` is the goroutine of the n-th run of `t`, `Sender` a caller of Executor.Invalidate,
      `Worker` a pass spawned by the invalidation loop. */
  datatype ThreadId =
    | Main
    | Loop
    | Sender(id: nat)
    | Worker(id: nat)
    | RunOf(task: Task, nth: nat)

  datatype Outcome = Success | Failure | Stop

  /** Where a thread stands. `failed` records whether the task body returned an error. */
  datatype Phase =
    // a run, up to and including the send on the terminal channel
    | Spawned
    | Body(ctx: Ctx)
    | Decided(outcome: Outcome, failed: bool)
    | Flushing(failed: bool)
    // a run after that send
    | KeepingAlive(failed: bool)
    | Signalling(failed: bool)
    // planning and passing
    | AwaitPlan
    | Planning
    | CheckPass
    | AwaitPass
    | Passing
    // main goroutine and invalidation loop
    | Waiting
    | Returned
    | Selecting
    | LoopExited

  /** The holder of Executor.mu and how far it has come. */
  datatype Lock =
    | Free
    | Planner(holder: ThreadId, todo: set<Task>)
    | Resetter(holder: ThreadId, task: Task, todo: set<Task>)
    | Passer(holder: ThreadId, unvisited: set<Task>)

  /** `accepted` is history: the tasks that a call of Executor.Invalidate marked and that were not
      reset since. `signal` and `timer` are the invalidation channel's slot and the armed timer. */
  datatype State = State(
    exec: map<Task, Execution>,
    threads: map<ThreadId, Phase>,
    lock: Lock,
    cancelled: set<Ctx>,
    signal: bool,
    timer: bool,
    running: nat,
    nextId: nat,
    accepted: set<Task>)

  /** What a built task set fixes: `below` has the direct and indirect dependencies, `dependents` the
      direct dependents, `origin` the first context of every task. `height` certifies acyclicity. */
  datatype Setup = Setup(
    tasks: set<Task>,
    below: map<Task, set<Task>>,
    dependents: map<Task, seq<Task>>,
    origin: map<Task, Ctx>,
    height: map<Task, nat>,
    keepAlive: set<Task>,
    accepts: (Task, Event) -> bool)

  ghost predicate WellFormed(c: Setup) {
    && c.below.Keys == c.tasks && c.dependents.Keys == c.tasks
    && c.origin.Keys == c.tasks && c.height.Keys == c.tasks
    && (forall t, d {:trigger DepOk(c, t, d)} :: t in c.tasks && d in c.below[t] ==> DepOk(c, t, d))
    && (forall t, u {:trigger DependentOk(c, t, u)} :: t in c.tasks && u in c.dependents[t] ==> DependentOk(c, t, u))
    && (forall t {:trigger OriginOk(c, t)} :: t in c.tasks ==> OriginOk(c, t))
  }

  ghost predicate DepOk(c: Setup, t: Task, d: Task)
    requires t in c.tasks && c.height.Keys == c.tasks && c.below.Keys == c.tasks
  {
    d in c.tasks && c.height[t] < c.height[d] && c.below[d] <= c.below[t]
  }

  ghost predicate DependentOk(c: Setup, t: Task, u: Task)
    requires t in c.tasks && c.below.Keys == c.tasks
  {
    u in c.tasks && t in c.below[u]
  }

  /** Every indirect dependency is reached over some direct dependent of it. */
  ghost predicate Linked(c: Setup)
    requires WellFormed(c)
  {
    forall t, u {:trigger LinkedOver(c, t, u)} :: t in c.tasks && u in c.tasks && t in c.below[u] ==> LinkedOver(c, t, u)
  }

  ghost predicate LinkedOver(c: Setup, t: Task, u: Task)
    requires t in c.tasks && u in c.tasks && c.below.Keys == c.dependents.Keys == c.tasks
  {
    u in c.dependents[t] || exists y :: y in c.tasks && y in c.below[u] && t in c.below[y] && u in c.dependents[y]
  }

  ghost predicate OriginOk(c: Setup, t: Task)
    requires t in c.tasks && c.origin.Keys == c.tasks && c.below.Keys == c.tasks
  {
    && c.origin[t].Child? && c.origin[t].owner == t && Original(c.origin[t])
    && forall a :: a in Owners(c.origin[t].parent) ==> a in c.tasks && t in c.below[a]
  }

  type Config = c: Setup | WellFormed(c)
    witness Setup({}, map[], map[], map[], map[], {}, (t, e) => true)

  /** The (task, event) pairs that one call of taskExecution.Invalidate adds: the walk stops at invalid
      tasks and at tasks whose filter rejects the event, and has no visited set. */
  function Marks(c: Config, invalid: set<Task>, t: Task, e: Event): (m: set<(Task, Event)>)
    requires t in c.tasks
    ensures forall p :: p in m ==> p.0 in c.tasks && p.0 !in invalid
    decreases c.height[t]
  {
    Domains(c);
    if t in invalid || !c.accepts(t, e) then {}
    else {(t, e)} + set u, p | u in c.dependents[t] && p in Marks(c, invalid, u, DependencyChange(t)) :: p
  }

  function InvalidIn(exec: map<Task, Execution>): set<Task> {
    set t | t in exec && exec[t].state == Invalid
  }

  function AddMarks(exec: map<Task, Execution>, marks: set<(Task, Event)>): (r: map<Task, Execution>)
    ensures r.Keys == exec.Keys
  {
    map t | t in exec ::
      exec[t].(pending := exec[t].pending + set p | p in marks && p.0 == t :: p.1)
  }

  function MarkedTasks(marks: set<(Task, Event)>): set<Task> {
    set p | p in marks :: p.0
  }

  /** The task is invalid and everything below it is done. */
  predicate Ready(c: Config, exec: map<Task, Execution>, t: Task)
    requires t in exec && t in c.below && c.below[t] <= exec.Keys
  {
    exec[t].state == Invalid && forall d :: d in c.below[t] ==> exec[d].state == Done
  }

  /** What ShouldExecute finds out. */
  predicate Executable(c: Config, s: State, t: Task)
    requires s.exec.Keys == c.tasks && t in c.tasks
  {
    BelowIsInside(c, t);
    Ready(c, s.exec, t)
  }

  /** The tasks a plan collects when it starts. */
  function Collect(c: Config, s: State): set<Task>
    requires s.exec.Keys == c.tasks
  {
    set t | t in c.tasks && s.exec[t].pending != {} && s.exec[t].state != Invalid
  }

  lemma Domains(c: Config)
    ensures c.below.Keys == c.dependents.Keys == c.origin.Keys == c.height.Keys == c.tasks
    ensures forall t, u :: t in c.tasks && u in c.dependents[t] ==> u in c.tasks && c.height[u] < c.height[t]
  {
    forall t, u | t in c.tasks && u in c.dependents[t] ensures u in c.tasks && c.height[u] < c.height[t] {
      assert DependentOk(c, t, u) && DepOk(c, u, t);
    }
  }

  lemma BelowIsInside(c: Config, t: Task)
    requires t in c.tasks
    ensures t in c.below && c.below[t] <= c.tasks && t !in c.below[t]
  {
    forall d | d in c.below[t] ensures d in c.tasks && d != t { assert DepOk(c, t, d); }
  }

  datatype LoopStep = Receive | Fire | Exit

  datatype LockStep =
    | AcquirePlan
    | BeginReset(task: Task)
    | EndReset
    | ReleasePlan
    | CheckLive
    | AcquirePass
    | Visit(task: Task)
    | ReleasePass

  datatype RunStep = Capture | Decide(failed: bool) | Write | Flush | KeepAlive

  datatype Step =
    | Shutdown
    | Invalidate(task: Task, event: Event)
    | HandlerInvalidate(task: Task, event: Event)
    | Signal(thread: ThreadId)
    | MainReturn
    | OfLoop(loop: LoopStep)
    | OfLock(thread: ThreadId, act: LockStep)
    | OfRun(thread: ThreadId, run: RunStep)

  predicate At(s: State, th: ThreadId, ph: Phase) {
    th in s.threads && s.threads[th] == ph
  }

  /** Lookups that need no precondition; the values outside the domain never matter. */
  predicate IsRun(c: Config, s: State, th: ThreadId) {
    th in s.threads && th.RunOf? && th.task in c.tasks
  }

  predicate LoopEnabled(s: State, l: LoopStep) {
    && At(s, Loop, Selecting)
    && match l
       case Receive => s.signal
       case Fire => s.timer
       case Exit => Root in s.cancelled
  }

  predicate LockEnabled(c: Config, s: State, th: ThreadId, act: LockStep)
    requires s.exec.Keys == c.tasks
  {
    && th in s.threads
    && match act
       case AcquirePlan => s.threads[th] == AwaitPlan && s.lock == Free
       case BeginReset(t) => s.lock.Planner? && s.lock.holder == th && t in s.lock.todo && t in c.tasks
       case EndReset =>
         s.lock.Resetter? && s.lock.holder == th && s.lock.task in c.tasks && s.exec[s.lock.task].terminal > 0
       case ReleasePlan => s.lock == Planner(th, {}) && (th.RunOf? || th.Loop?)
       case CheckLive => s.threads[th] == CheckPass
       case AcquirePass => s.threads[th] == AwaitPass && s.lock == Free
       case Visit(t) => s.lock.Passer? && s.lock.holder == th && t in s.lock.unvisited && t in c.tasks
       case ReleasePass => s.lock == Passer(th, {})
  }

  predicate RunEnabled(c: Config, s: State, th: ThreadId, r: RunStep)
    requires s.exec.Keys == c.tasks
  {
    && IsRun(c, s, th)
    && match r
       case Capture => s.threads[th] == Spawned
       case Decide(_) => s.threads[th].Body?
       case Write => s.threads[th].Decided?
       case Flush => s.threads[th].Flushing? && s.exec[th.task].terminal == 0
       case KeepAlive => s.threads[th].KeepingAlive?
  }

  predicate Enabled(c: Config, s: State, step: Step)
    requires s.exec.Keys == c.tasks
  {
    match step
    case Shutdown => true
    case Invalidate(t, _) => t in c.tasks
    case HandlerInvalidate(t, _) => t in c.tasks
    case Signal(th) => th in s.threads && s.threads[th].Signalling? && !s.signal
    case MainReturn => At(s, Main, Waiting) && s.running == 0
    case OfLoop(l) => LoopEnabled(s, l)
    case OfLock(th, act) => LockEnabled(c, s, th, act)
    case OfRun(th, r) => RunEnabled(c, s, th, r)
  }

  /** A thread that leaves runPass: a run returns to its wait group, a worker ends. */
  function AfterPass(s: State, th: ThreadId): (s': State)
    ensures s'.exec == s.exec
  {
    match th
    case RunOf(_, _) => s.(threads := s.threads - {th}, running := if s.running > 0 then s.running - 1 else 0)
    case Main => s.(threads := s.threads[Main := Waiting])
    case _ => s.(threads := s.threads - {th})
  }

  /** A run past its keep-alive check plans only if its body returned no error. */
  function AfterKeepAlive(failed: bool): Phase {
    if failed then CheckPass else AwaitPlan
  }

  function Mark(c: Config, s: State, t: Task, e: Event): (s': State)
    requires s.exec.Keys == c.tasks && t in c.tasks
    ensures s'.exec.Keys == c.tasks
  {
    s.(exec := AddMarks(s.exec, Marks(c, InvalidIn(s.exec), t, e)))
  }

  /** A call of Executor.Invalidate by `th`, which goes on to send if the walk accepted the event. */
  function MarkAndSignal(c: Config, s: State, t: Task, e: Event, th: ThreadId, sending: Phase): (s': State)
    requires s.exec.Keys == c.tasks && t in c.tasks
    ensures s'.exec.Keys == c.tasks
  {
    var marks := Marks(c, InvalidIn(s.exec), t, e);
    s.(exec := AddMarks(s.exec, marks),
       accepted := s.accepted + MarkedTasks(marks),
       threads := s.threads[th := sending])
  }

  /** The task is kept alive, and the end of a run of it is a reason to invalidate it. */
  predicate RestartsItself(c: Config, t: Task) {
    t in c.tasks && t in c.keepAlive && c.accepts(t, KeepAliveStopped)
  }

  /** The keep-alive tasks, if any, do not accept the end of their own run as a reason. */
  ghost predicate NoneRestarts(c: Config) {
    forall t :: !RestartsItself(c, t)
  }

  predicate Accepts(c: Config, s: State, t: Task, e: Event)
    requires s.exec.Keys == c.tasks && t in c.tasks
  {
    s.exec[t].state != Invalid && c.accepts(t, e)
  }

  function Begun(x: Execution): Execution {
    x.(state := Running, starts := x.starts + 1)
  }

  function Start(s: State, t: Task): (s': State)
    requires t in s.exec
    ensures s'.exec.Keys == s.exec.Keys
  {
    var x := s.exec[t];
    s.(exec := s.exec[t := Begun(x)],
       threads := s.threads[RunOf(t, x.starts) := Spawned],
       running := s.running + 1)
  }

  /** The first half of taskExecution.invalidate, up to the receive. */
  function Reset(x: Execution, t: Task): Execution {
    x.(state := Invalid, ctx := Child(Root, t, x.resets + 1), resets := x.resets + 1)
  }

  /** The second half: the receive, a fresh channel and no pending invalidations. */
  function Settle(x: Execution): Execution {
    x.(terminal := 0, pending := {})
  }

  function Written(x: Execution, outcome: Outcome, down: bool): Execution {
    match outcome
    case Stop => x.(state := if down then Canceled else x.state, trace := x.trace + [Stopped])
    case Failure => x.(state := Error, trace := x.trace + [Failed])
    case Success => x.(state := Done, trace := x.trace + [Completed])
  }

  function Verdict(s: State, ctx: Ctx, failed: bool): Outcome {
    if Cancelled(ctx, s.cancelled) then Stop else if failed then Failure else Success
  }

  function SignalSent(s: State, th: ThreadId): State
    requires th in s.threads && s.threads[th].Signalling?
  {
    s.(signal := true,
       threads := if th.Sender? then s.threads - {th}
                  else s.threads[th := AfterKeepAlive(s.threads[th].failed)])
  }

  function ResetBegun(s: State, th: ThreadId, t: Task): (s': State)
    requires s.lock.Planner? && t in s.exec
    ensures s'.exec.Keys == s.exec.Keys
  {
    var x := s.exec[t];
    if x.state == Invalid || x.state == Canceled
    then s.(lock := Planner(th, s.lock.todo - {t}))
    else s.(lock := Resetter(th, t, s.lock.todo - {t}),
            cancelled := s.cancelled + {x.ctx},
            exec := s.exec[t := Reset(x, t)])
  }

  function ResetEnded(s: State, th: ThreadId): (s': State)
    requires s.lock.Resetter? && s.lock.task in s.exec
    ensures s'.exec.Keys == s.exec.Keys
  {
    var t := s.lock.task;
    s.(lock := Planner(th, s.lock.todo),
       exec := s.exec[t := Settle(s.exec[t])],
       accepted := s.accepted - {t})
  }

  /** The loop spawns a pass after its plan; a run goes on to make one itself. */
  function PlanReleased(s: State, th: ThreadId): (s': State)
    ensures s'.exec.Keys == s.exec.Keys
  {
    if th.Loop?
    then s.(lock := Free, nextId := s.nextId + 1,
            threads := s.threads[Loop := Selecting][Worker(s.nextId) := CheckPass])
    else s.(lock := Free, threads := s.threads[th := CheckPass])
  }

  function Visited(c: Config, s: State, th: ThreadId, t: Task): (s': State)
    requires s.exec.Keys == c.tasks && t in c.tasks && s.lock.Passer?
    ensures s'.exec.Keys == s.exec.Keys
  {
    var s1 := s.(lock := Passer(th, s.lock.unvisited - {t}));
    if Executable(c, s, t) then Start(s1, t) else s1
  }

  function Captured(s: State, th: ThreadId): (s': State)
    requires th.RunOf? && th.task in s.exec
    ensures s'.exec.Keys == s.exec.Keys
  {
    var x := s.exec[th.task];
    s.(threads := s.threads[th := Body(x.ctx)],
       exec := s.exec[th.task := x.(trace := x.trace + [Started])])
  }

  function OutcomeWritten(s: State, th: ThreadId): (s': State)
    requires th in s.threads && th.RunOf? && th.task in s.exec && s.threads[th].Decided?
    ensures s'.exec.Keys == s.exec.Keys
  {
    var ph := s.threads[th];
    s.(threads := s.threads[th := Flushing(ph.failed)],
       exec := s.exec[th.task := Written(s.exec[th.task], ph.outcome, Root in s.cancelled)])
  }

  function Flushed(s: State, th: ThreadId): (s': State)
    requires th in s.threads && th.RunOf? && th.task in s.exec && s.threads[th].Flushing?
    ensures s'.exec.Keys == s.exec.Keys
  {
    s.(threads := s.threads[th := KeepingAlive(s.threads[th].failed)],
       exec := s.exec[th.task := s.exec[th.task].(terminal := 1)])
  }

  /** A run that has ended invalidates its own task, and the task takes it. */
  predicate KeptAliveSends(c: Config, s: State, th: ThreadId)
    requires s.exec.Keys == c.tasks && IsRun(c, s, th)
  {
    th.task in c.keepAlive && s.exec[th.task].state != Canceled && Accepts(c, s, th.task, KeepAliveStopped)
  }

  function KeptAlive(c: Config, s: State, th: ThreadId): (s': State)
    requires s.exec.Keys == c.tasks && IsRun(c, s, th) && s.threads[th].KeepingAlive?
    ensures s'.exec.Keys == s.exec.Keys
  {
    var t, failed := th.task, s.threads[th].failed;
    if KeptAliveSends(c, s, th)
    then MarkAndSignal(c, s, t, KeepAliveStopped, th, Signalling(failed))
    else s.(threads := s.threads[th := AfterKeepAlive(failed)])
  }

  function Invalidated(c: Config, s: State, t: Task, e: Event): (s': State)
    requires s.exec.Keys == c.tasks && t in c.tasks
    ensures s'.exec.Keys == s.exec.Keys
  {
    if Accepts(c, s, t, e)
    then MarkAndSignal(c, s, t, e, Sender(s.nextId), Signalling(false)).(nextId := s.nextId + 1)
    else s
  }

  function ApplyLoop(s: State, l: LoopStep): State {
    match l
    case Receive => s.(signal := false, timer := true)
    case Fire => s.(timer := false, threads := s.threads[Loop := AwaitPlan])
    case Exit => s.(threads := s.threads[Loop := LoopExited])
  }

  function ApplyLock(c: Config, s: State, th: ThreadId, act: LockStep): (s': State)
    requires s.exec.Keys == c.tasks && LockEnabled(c, s, th, act)
    ensures s'.exec.Keys == c.tasks
  {
    match act
    case AcquirePlan => s.(lock := Planner(th, Collect(c, s)), threads := s.threads[th := Planning])
    case BeginReset(t) => ResetBegun(s, th, t)
    case EndReset => ResetEnded(s, th)
    case ReleasePlan => PlanReleased(s, th)
    case CheckLive =>
      if Root in s.cancelled then AfterPass(s, th) else s.(threads := s.threads[th := AwaitPass])
    case AcquirePass => s.(lock := Passer(th, c.tasks), threads := s.threads[th := Passing])
    case Visit(t) => Visited(c, s, th, t)
    case ReleasePass => AfterPass(s.(lock := Free), th)
  }

  function ApplyRun(c: Config, s: State, th: ThreadId, r: RunStep): (s': State)
    requires s.exec.Keys == c.tasks && RunEnabled(c, s, th, r)
    ensures s'.exec.Keys == c.tasks
  {
    match r
    case Capture => Captured(s, th)
    case Decide(failed) =>
      s.(threads := s.threads[th := Decided(Verdict(s, s.threads[th].ctx, failed), failed)])
    case Write => OutcomeWritten(s, th)
    case Flush => Flushed(s, th)
    case KeepAlive => KeptAlive(c, s, th)
  }

  function Apply(c: Config, s: State, step: Step): (s': State)
    requires s.exec.Keys == c.tasks && Enabled(c, s, step)
    ensures s'.exec.Keys == c.tasks
  {
    match step
    case Shutdown => s.(cancelled := s.cancelled + {Root})
    case Invalidate(t, e) => Invalidated(c, s, t, e)
    case HandlerInvalidate(t, e) => Mark(c, s, t, e)
    case Signal(th) => SignalSent(s, th)
    case MainReturn => s.(threads := s.threads[Main := Returned])
    case OfLoop(l) => ApplyLoop(s, l)
    case OfLock(th, act) => ApplyLock(c, s, th, act)
    case OfRun(th, r) => ApplyRun(c, s, th, r)
  }

  function Init(c: Config): State {
    State(map t | t in c.tasks :: Execution(Invalid, c.origin[t], 0, {}, 0, 0, []),
          map[Main := CheckPass, Loop := Selecting], Free, {}, false, false, 0, 0, {})
  }

  /** Assumptions (a) and (b): no reset begins between the pass that started a run and the run's capture
      of its context, nor between the run's cancellation check and its state write. */
  ghost predicate Atomic(s: State, step: Step) {
    step.OfLock? && step.act.BeginReset? ==>
      forall n :: RunOf(step.act.task, n) in s.threads ==>
        !s.threads[RunOf(step.act.task, n)].Spawned? && !s.threads[RunOf(step.act.task, n)].Decided?
  }

  /** `steps` is a run from `s` in which every step is enabled and keeps to (a) and (b). */
  ghost predicate IsRunFrom(c: Config, s: State, steps: seq<Step>)
    requires s.exec.Keys == c.tasks
    decreases |steps|
  {
    steps != [] ==>
    && Enabled(c, s, steps[0]) && Atomic(s, steps[0])
    && IsRunFrom(c, Apply(c, s, steps[0]), steps[1..])
  }

  ghost function After(c: Config, s: State, steps: seq<Step>): (s': State)
    requires s.exec.Keys == c.tasks && IsRunFrom(c, s, steps)
    ensures s'.exec.Keys == c.tasks
    decreases |steps|
  {
    if steps == [] then s else After(c, Apply(c, s, steps[0]), steps[1..])
  }
}
