/** Short traces: the two atomicity assumptions and the guard on passes are needed, and after a shutdown a
    keep-alive task can hang. */
module Witness {
  import opened Tasks
  import opened Machine
  import opened Invariant
  import opened Safety
  import opened Dependency
  import opened Progress
  import opened Shutdown

  /** What a trace leaves out: assumption (a), assumption (b), or nothing but the guard on passes. */
  datatype Dropped = CaptureAtStart | WriteAtCheck | CleanStarts

  ghost predicate Keeps(d: Dropped, s: State, step: Step) {
    step.OfLock? && step.act.BeginReset? ==>
      forall n :: RunOf(step.act.task, n) in s.threads ==>
        && (s.threads[RunOf(step.act.task, n)].Spawned? ==> d.CaptureAtStart?)
        && (s.threads[RunOf(step.act.task, n)].Decided? ==> d.WriteAtCheck?)
  }

  lemma KeepsIsAtomic(s: State, step: Step)
    ensures Keeps(CleanStarts, s, step) <==> Atomic(s, step)
  {}

  /** The `i`-th step of a trace is enabled, keeps to what is kept, and leads to the next state. */
  ghost predicate StepOk(d: Dropped, c: Config, states: seq<State>, steps: seq<Step>, i: nat)
    requires i < |steps| && |states| == |steps| + 1 && states[i].exec.Keys == c.tasks
  {
    Enabled(c, states[i], steps[i]) && Keeps(d, states[i], steps[i]) && states[i + 1] == Apply(c, states[i], steps[i])
  }

  ghost predicate IsTrace(d: Dropped, c: Config, states: seq<State>, steps: seq<Step>) {
    && |states| == |steps| + 1 && states[0] == Init(c)
    && (forall i :: 0 <= i < |states| ==> states[i].exec.Keys == c.tasks)
    && forall i: nat {:trigger StepOk(d, c, states, steps, i)} :: i < |steps| ==> StepOk(d, c, states, steps, i)
  }

  ghost predicate CanReach(d: Dropped, c: Config, s: State) {
    exists states, steps :: IsTrace(d, c, states, steps) && states[|steps|] == s
  }

  lemma Extend(d: Dropped, c: Config, states: seq<State>, steps: seq<Step>, step: Step, s: State)
    requires IsTrace(d, c, states, steps)
    requires Enabled(c, states[|steps|], step) && Keeps(d, states[|steps|], step)
    requires s == Apply(c, states[|steps|], step)
    ensures IsTrace(d, c, states + [s], steps + [step])
  {
    hide WellFormed, Enabled, Apply, Keeps, Init;
    var states', steps' := states + [s], steps + [step];
    forall i: nat | i < |steps'| ensures StepOk(d, c, states', steps', i) {
      if i < |steps| {
        assert StepOk(d, c, states, steps, i);
      }
    }
  }

  lemma Then(d: Dropped, c: Config, s: State, step: Step) returns (s': State)
    requires s.exec.Keys == c.tasks && CanReach(d, c, s) && Enabled(c, s, step) && Keeps(d, s, step)
    ensures s' == Apply(c, s, step) && s'.exec.Keys == c.tasks && CanReach(d, c, s')
  {
    hide WellFormed, Enabled, Apply, Keeps, IsTrace;
    s' := Apply(c, s, step);
    var states, steps := TraceTo(d, c, s);
    Extend(d, c, states, steps, step, s');
    Reaches(d, c, states + [s'], steps + [step], s');
  }

  lemma TraceTo(d: Dropped, c: Config, s: State) returns (states: seq<State>, steps: seq<Step>)
    requires CanReach(d, c, s)
    ensures IsTrace(d, c, states, steps) && |states| == |steps| + 1 && states[|steps|] == s
  {
    hide WellFormed, StepOk, Init;
    states, steps :| IsTrace(d, c, states, steps) && states[|steps|] == s;
  }

  lemma Reaches(d: Dropped, c: Config, states: seq<State>, steps: seq<Step>, s: State)
    requires IsTrace(d, c, states, steps) && |states| == |steps| + 1 && states[|steps|] == s
    ensures CanReach(d, c, s)
  {
    hide WellFormed, StepOk, Init;
  }

  lemma {:induction false} TraceIsReachable(c: Config, states: seq<State>, steps: seq<Step>, i: nat)
    requires IsTrace(CleanStarts, c, states, steps) && i < |states|
    ensures Reachable(c, states[i])
  {
    hide WellFormed, Reachable, Enabled, Apply, Keeps, Atomic, Init;
    if i == 0 {
      InitReachable(c);
    } else {
      TraceIsReachable(c, states, steps, i - 1);
      assert StepOk(CleanStarts, c, states, steps, i - 1);
      KeepsIsAtomic(states[i - 1], steps[i - 1]);
      ReachableStep(c, states[i - 1], steps[i - 1]);
    }
  }

  /** A trace that keeps to (a) and (b) is a run in the sense of the other modules. */
  lemma CanReachIsReachable(c: Config, s: State)
    requires CanReach(CleanStarts, c, s)
    ensures Reachable(c, s)
  {
    hide WellFormed, Reachable, IsTrace;
    var states, steps := TraceTo(CleanStarts, c, s);
    TraceIsReachable(c, states, steps, |steps|);
  }

  // ---------------------------------------------------------------------------------------------
  // The steps that the traces take, each with the state it leads to

  lemma TakePass(d: Dropped, c: Config, s: State, th: ThreadId) returns (s': State)
    requires s.exec.Keys == c.tasks && CanReach(d, c, s) && At(s, th, CheckPass) && Root !in s.cancelled && s.lock == Free
    ensures s'.exec.Keys == c.tasks && CanReach(d, c, s')
    ensures s' == s.(threads := s.threads[th := Passing], lock := Passer(th, c.tasks))
  {
    hide WellFormed, CanReach;
    var s1 := Then(d, c, s, OfLock(th, CheckLive));
    s' := Then(d, c, s1, OfLock(th, AcquirePass));
  }

  lemma VisitOne(d: Dropped, c: Config, s: State, th: ThreadId, t: Task) returns (s': State)
    requires s.exec.Keys == c.tasks && CanReach(d, c, s) && th in s.threads
    requires s.lock.Passer? && s.lock.holder == th && t in s.lock.unvisited && t in c.tasks
    ensures s'.exec.Keys == c.tasks && CanReach(d, c, s') && s' == Visited(c, s, th, t)
  {
    hide WellFormed, CanReach;
    s' := Then(d, c, s, OfLock(th, Visit(t)));
  }

  lemma LeavePass(d: Dropped, c: Config, s: State, th: ThreadId) returns (s': State)
    requires s.exec.Keys == c.tasks && CanReach(d, c, s) && th in s.threads && s.lock == Passer(th, {})
    ensures s'.exec.Keys == c.tasks && CanReach(d, c, s') && s' == AfterPass(s.(lock := Free), th)
  {
    hide WellFormed, CanReach;
    s' := Then(d, c, s, OfLock(th, ReleasePass));
  }

  lemma RunThrough(d: Dropped, c: Config, s: State, th: ThreadId, r: RunStep) returns (s': State)
    requires s.exec.Keys == c.tasks && CanReach(d, c, s) && RunEnabled(c, s, th, r)
    ensures s'.exec.Keys == c.tasks && CanReach(d, c, s') && s' == ApplyRun(c, s, th, r)
  {
    hide WellFormed, CanReach;
    s' := Then(d, c, s, OfRun(th, r));
  }

  lemma MarksOfOne(c: Config, invalid: set<Task>, t: Task, e: Event)
    requires t in c.tasks && t in c.dependents && t !in invalid && c.accepts(t, e)
    requires forall u :: u in c.dependents[t] ==> u in c.tasks && u in invalid
    ensures Marks(c, invalid, t, e) == {(t, e)}
  {
    hide WellFormed;
  }

  /** A user event for `t` that reaches the loop, which starts the plan for it. */
  lemma Interrupt(d: Dropped, c: Config, s: State, t: Task, e: Event) returns (s': State)
    requires s.exec.Keys == c.tasks && CanReach(d, c, s) && t in c.tasks && Accepts(c, s, t, e)
    ensures s'.exec.Keys == c.tasks && CanReach(d, c, s')
    ensures s' == Invalidated(c, s, t, e)
  {
    hide WellFormed, CanReach, Marks;
    s' := Then(d, c, s, Invalidate(t, e));
  }

  lemma Hear(d: Dropped, c: Config, s: State, n: nat) returns (s': State)
    requires s.exec.Keys == c.tasks && CanReach(d, c, s)
    requires At(s, Sender(n), Signalling(false)) && !s.signal && At(s, Loop, Selecting)
    ensures s'.exec.Keys == c.tasks && CanReach(d, c, s')
    ensures s' == s.(threads := s.threads - {Sender(n)}, timer := true)
  {
    hide WellFormed, CanReach;
    var s1 := Then(d, c, s, Signal(Sender(n)));
    s' := Then(d, c, s1, OfLoop(Receive));
  }

  lemma Notify(d: Dropped, c: Config, s: State, n: nat) returns (s': State)
    requires s.exec.Keys == c.tasks && CanReach(d, c, s)
    requires At(s, Sender(n), Signalling(false)) && !s.signal && At(s, Loop, Selecting) && s.lock == Free
    ensures s'.exec.Keys == c.tasks && CanReach(d, c, s')
    ensures s' == s.(threads := (s.threads - {Sender(n)})[Loop := Planning], timer := false,
                     lock := Planner(Loop, Collect(c, s)))
  {
    hide WellFormed, CanReach, Collect;
    var s1 := Hear(d, c, s, n);
    var s2 := Then(d, c, s1, OfLoop(Fire));
    s' := Then(d, c, s2, OfLock(Loop, AcquirePlan));
    assert (s.threads - {Sender(n)})[Loop := AwaitPlan][Loop := Planning] == (s.threads - {Sender(n)})[Loop := Planning];
    SameCollect(c, s, s2);
  }

  lemma SameCollect(c: Config, s: State, s': State)
    requires s.exec.Keys == c.tasks && s'.exec == s.exec
    ensures Collect(c, s') == Collect(c, s)
  {
    hide WellFormed;
  }

  ghost predicate OnlyRun(s: State, run: ThreadId) {
    forall th :: th in s.threads && th.RunOf? ==> th == run
  }

  // ---------------------------------------------------------------------------------------------
  // One task with no dependencies, restarted by a user during its first run

  // `k` is whether it is a keep-alive task.
  function Solo(k: bool): Config {
    Setup({0}, map[0 := {}], map[0 := []], map[0 := Child(Root, 0, 0)], map[0 := 0], if k then {0} else {}, (t, e) => true)
  }

  /** The first run of the task is in phase `ph`, main and loop are idle. */
  ghost predicate SoloRuns(d: Dropped, s: State, ph: Phase) {
    && s.exec.Keys == {0} && CanReach(d, Solo(false), s) && s.exec[0].state == Running && s.exec[0].terminal == 0
    && s.exec[0].ctx == Child(Root, 0, 0) && s.exec[0].resets == 0
    && OnlyRun(s, RunOf(0, 0)) && At(s, Loop, Selecting) && At(s, RunOf(0, 0), ph)
    && s.lock == Free && s.cancelled == {} && !s.signal
  }

  lemma StartsSomewhere(d: Dropped, c: Config)
    ensures CanReach(d, c, Init(c))
  {
    Reaches(d, c, [Init(c)], [], Init(c));
  }

  lemma SoloFacts()
    ensures Solo(false).tasks == {0} && Solo(false).below == map[0 := {}]
    ensures Solo(false).origin == map[0 := Child(Root, 0, 0)]
    ensures Solo(false).accepts(0, UserRestart) && Solo(false).dependents == map[0 := []]
  {}

  lemma SoloVisits(s: State)
    requires s.exec.Keys == {0} && s.exec[0].state == Invalid && s.lock == Passer(Main, {0})
    ensures Visited(Solo(false), s, Main, 0) == Start(s.(lock := Passer(Main, {})), 0)
  {
    assert {0} - {0} == {};
  }

  lemma SoloStarts(d: Dropped) returns (s: State)
    ensures SoloRuns(d, s, Spawned)
  {
    hide WellFormed, CanReach, Solo, Marks, Keeps, IsTrace, Executable, Visited, SoloRuns;
    var c := Solo(false);
    SoloFacts();
    StartsSomewhere(d, c);
    var s1 := TakePass(d, c, Init(c), Main);
    SoloVisits(s1);
    var s2 := VisitOne(d, c, s1, Main, 0);
    s := LeavePass(d, c, s2, Main);
    SoloHasStarted(d, s);
  }

  lemma SoloHasStarted(d: Dropped, s: State)
    requires s.exec.Keys == {0} && s.exec[0] == Begun(Execution(Invalid, Child(Root, 0, 0), 0, {}, 0, 0, []))
    requires s.threads == map[Main := CheckPass, Loop := Selecting][Main := Passing][RunOf(0, 0) := Spawned][Main := Waiting]
    requires s.lock == Free && s.cancelled == {} && !s.signal && CanReach(d, Solo(false), s)
    ensures SoloRuns(d, s, Spawned)
  {
    hide CanReach, Solo;
  }

  /** The plan is waiting for the token of the run, which is in phase `ph`. */
  ghost predicate SoloWaits(d: Dropped, s: State, ph: Phase) {
    && s.exec.Keys == {0} && CanReach(d, Solo(false), s) && s.exec[0].state == Invalid && s.exec[0].terminal == 0
    && s.exec[0].ctx == Child(Root, 0, 1)
    && OnlyRun(s, RunOf(0, 0)) && Loop in s.threads && At(s, RunOf(0, 0), ph)
    && s.lock == Resetter(Loop, 0, {}) && s.cancelled == {Child(Root, 0, 0)}
  }

  /** The channel is empty although the task is done, and no run is going to send. */
  predicate Starved(s: State, t: Task)
    requires t in s.exec
  {
    s.exec[t].state == Done && s.exec[t].terminal == 0 && LiveRuns(s, t) == {} && !InReset(s, t)
  }

  lemma SoloMarked(d: Dropped, s: State, ph: Phase) returns (s': State)
    requires SoloRuns(d, s, ph)
    ensures s'.exec.Keys == {0} && CanReach(d, Solo(false), s') && s'.exec[0] == s.exec[0].(pending := s'.exec[0].pending)
    ensures Collect(Solo(false), s') == {0}
    ensures s' == s.(exec := s'.exec, accepted := s'.accepted, nextId := s.nextId + 1,
                     threads := s.threads[Sender(s.nextId) := Signalling(false)])
  {
    hide WellFormed, CanReach, Solo, Marks, IsTrace, Collect, OnlyRun;
    var c := Solo(false);
    SoloFacts();
    MarksOfOne(c, InvalidIn(s.exec), 0, UserRestart);
    s' := Interrupt(d, c, s, 0, UserRestart);
    SoloCollects(s, s');
  }

  lemma SoloInterrupted(d: Dropped, s: State, ph: Phase) returns (s': State)
    requires SoloRuns(d, s, ph)
    requires ph.Spawned? ==> d.CaptureAtStart?
    requires ph.Decided? ==> d.WriteAtCheck?
    ensures SoloWaits(d, s', ph)
  {
    hide WellFormed, CanReach, Solo, Marks, IsTrace, Collect;
    SoloFacts();
    var s1 := SoloMarked(d, s, ph);
    var s2 := Notify(d, Solo(false), s1, s.nextId);
    s' := SoloResets(d, s2, ph);
  }

  lemma SoloResets(d: Dropped, s: State, ph: Phase) returns (s': State)
    requires s.exec.Keys == {0} && CanReach(d, Solo(false), s) && s.exec[0].state == Running && s.exec[0].terminal == 0
    requires s.exec[0].ctx == Child(Root, 0, 0) && s.exec[0].resets == 0 && s.cancelled == {}
    requires OnlyRun(s, RunOf(0, 0)) && Loop in s.threads && At(s, RunOf(0, 0), ph) && s.lock == Planner(Loop, {0})
    requires (ph.Spawned? ==> d.CaptureAtStart?) && (ph.Decided? ==> d.WriteAtCheck?)
    ensures SoloWaits(d, s', ph)
  {
    hide WellFormed, CanReach, Solo, IsTrace;
    SoloFacts();
    s' := BeginOne(d, Solo(false), s, 0);
  }

  lemma SoloCollects(s: State, s1: State)
    requires s.exec.Keys == {0} && s.exec[0].state == Running && s1.exec.Keys == {0}
    requires s1.exec == AddMarks(s.exec, {(0, UserRestart)})
    ensures Collect(Solo(false), s1) == {0}
  {
    assert UserRestart in s1.exec[0].pending;
  }

  lemma BeginOne(d: Dropped, c: Config, s: State, t: Task) returns (s': State)
    requires s.exec.Keys == c.tasks && CanReach(d, c, s) && t in c.tasks && Loop in s.threads
    requires s.lock.Planner? && s.lock.holder == Loop && t in s.lock.todo && Keeps(d, s, OfLock(Loop, BeginReset(t)))
    ensures s'.exec.Keys == c.tasks && CanReach(d, c, s') && s' == ResetBegun(s, Loop, t)
  {
    hide WellFormed, CanReach;
    s' := Then(d, c, s, OfLock(Loop, BeginReset(t)));
  }

  lemma EndOne(d: Dropped, c: Config, s: State) returns (s': State)
    requires s.exec.Keys == c.tasks && CanReach(d, c, s) && Loop in s.threads
    requires s.lock.Resetter? && s.lock.holder == Loop && s.lock.task in c.tasks && s.exec[s.lock.task].terminal > 0
    ensures s'.exec.Keys == c.tasks && CanReach(d, c, s') && s' == ResetEnded(s, Loop)
  {
    hide WellFormed, CanReach;
    s' := Then(d, c, s, OfLock(Loop, EndReset));
  }

  /** The run writes its success, sends its token, and the plan takes it. */
  lemma SoloFinishes(d: Dropped, s: State) returns (s': State)
    requires SoloWaits(d, s, Decided(Success, false))
    ensures s'.exec.Keys == {0} && CanReach(d, Solo(false), s') && Starved(s', 0)
  {
    hide WellFormed, CanReach, Solo, Keeps, IsTrace;
    var c := Solo(false);
    SoloFacts();
    var s1 := RunThrough(d, c, s, RunOf(0, 0), Write);
    var s2 := RunThrough(d, c, s1, RunOf(0, 0), Flush);
    s' := EndOne(d, c, s2);
    assert LiveRuns(s', 0) == {};
  }

  /** The run that takes the context of the next one does not notice that it was cancelled. */
  lemma SoloCapturesLate(d: Dropped, s: State) returns (s': State)
    requires SoloWaits(d, s, Spawned)
    ensures SoloWaits(d, s', Decided(Success, false))
  {
    hide WellFormed, CanReach, Solo, Keeps, IsTrace;
    SoloFacts();
    var s1 := RunThrough(d, Solo(false), s, RunOf(0, 0), Capture);
    assert !Cancelled(Child(Root, 0, 1), s.cancelled);
    s' := RunThrough(d, Solo(false), s1, RunOf(0, 0), Decide(false));
  }

  lemma SoloDecides(d: Dropped, s: State) returns (s': State)
    requires SoloRuns(d, s, Spawned)
    ensures SoloRuns(d, s', Decided(Success, false))
  {
    hide WellFormed, CanReach, Solo, Keeps, IsTrace;
    SoloFacts();
    var s1 := RunThrough(d, Solo(false), s, RunOf(0, 0), Capture);
    assert !Cancelled(Child(Root, 0, 0), s.cancelled);
    s' := RunThrough(d, Solo(false), s1, RunOf(0, 0), Decide(false));
  }

  /** Without (a), a restart between the start and the capture of the context leaves the task done with an
      empty channel. */
  lemma CaptureMustBeAtomic() returns (s: State)
    ensures s.exec.Keys == {0} && CanReach(CaptureAtStart, Solo(false), s) && Starved(s, 0)
  {
    hide *;
    s := SoloStarts(CaptureAtStart);
    s := SoloInterrupted(CaptureAtStart, s, Spawned);
    s := SoloCapturesLate(CaptureAtStart, s);
    s := SoloFinishes(CaptureAtStart, s);
  }

  /** Without (b), so does a restart between the check for cancellation and the state write. */
  lemma WriteMustBeAtomic() returns (s: State)
    ensures s.exec.Keys == {0} && CanReach(WriteAtCheck, Solo(false), s) && Starved(s, 0)
  {
    hide *;
    s := SoloStarts(WriteAtCheck);
    s := SoloDecides(WriteAtCheck, s);
    s := SoloInterrupted(WriteAtCheck, s, Decided(Success, false));
    s := SoloFinishes(WriteAtCheck, s);
  }

  // ---------------------------------------------------------------------------------------------
  // The same task, kept alive

  /** A run exists after which a keep-alive task hangs at its send, so that Run never returns. */
  lemma KeepAliveCanHang() returns (s: State)
    ensures Reachable(Solo(true), s) && Hung(s, RunOf(0, 0))
    ensures forall steps :: IsRunFrom(Solo(true), s, steps) ==> !Enabled(Solo(true), After(Solo(true), s, steps), MainReturn)
  {
    hide *;
    SoloRestarts();
    s := CanHang(Solo(true), 0);
    ReachableInv(Solo(true), s);
    forall steps | IsRunFrom(Solo(true), s, steps) ensures !Enabled(Solo(true), After(Solo(true), s, steps), MainReturn) {
      HungForever(Solo(true), s, steps, RunOf(0, 0));
    }
  }

  lemma SoloRestarts()
    ensures RestartsItself(Solo(true), 0)
  {}

  // ---------------------------------------------------------------------------------------------
  // Task 1 depends on task 0, which a user restarts just before task 1 is started

  function Pair(): Config {
    Setup({0, 1}, map[0 := {}, 1 := {0}], map[0 := [1], 1 := []],
          map[0 := Child(Child(Root, 1, 0), 0, 0), 1 := Child(Root, 1, 0)], map[0 := 1, 1 := 0], {}, (t, e) => true)
  }

  lemma PairFacts()
    ensures Pair().tasks == {0, 1} && Pair().below == map[0 := {}, 1 := {0}] && Pair().keepAlive == {}
    ensures Pair().origin == map[0 := Child(Child(Root, 1, 0), 0, 0), 1 := Child(Root, 1, 0)]
    ensures Pair().accepts(0, UserRestart)
  {}

  lemma PairTakesChanges()
    ensures AllTakeDependencyChange(Pair()) && IsBelow(Pair(), 0, 1)
  {}

  ghost predicate PairReached(s: State, run: ThreadId, ph: Phase) {
    && s.exec.Keys == {0, 1} && CanReach(CleanStarts, Pair(), s) && OnlyRun(s, run) && At(s, run, ph)
    && s.lock == Free && s.cancelled == {} && !s.signal && At(s, Loop, Selecting)
  }

  lemma PairBeginsPass() returns (s: State)
    ensures s.exec.Keys == {0, 1} && CanReach(CleanStarts, Pair(), s)
    ensures s == Init(Pair()).(threads := map[Main := Passing, Loop := Selecting], lock := Passer(Main, {0}))
  {
    hide WellFormed, CanReach, Pair, Marks, Keeps, IsTrace;
    var c := Pair();
    PairFacts();
    StartsSomewhere(CleanStarts, c);
    var s1 := TakePass(CleanStarts, c, Init(c), Main);
    assert !Executable(c, s1, 1) by { assert 0 in c.below[1]; }
    s := VisitOne(CleanStarts, c, s1, Main, 1);
    assert s.lock.unvisited == {0};
    assert s.threads == map[Main := Passing, Loop := Selecting];
  }

  lemma PairStarts() returns (s: State)
    ensures PairReached(s, RunOf(0, 0), Spawned)
    ensures s.exec[0] == Execution(Running, Child(Child(Root, 1, 0), 0, 0), 0, {}, 1, 0, [])
    ensures s.exec[1] == Execution(Invalid, Child(Root, 1, 0), 0, {}, 0, 0, [])
  {
    hide WellFormed, CanReach, Pair, Marks, Keeps, IsTrace;
    PairFacts();
    var s1 := PairBeginsPass();
    assert Executable(Pair(), s1, 0);
    var s2 := VisitOne(CleanStarts, Pair(), s1, Main, 0);
    assert s2.lock.unvisited == {};
    s := LeavePass(CleanStarts, Pair(), s2, Main);
  }

  lemma PairDecides(s: State) returns (s': State)
    requires PairReached(s, RunOf(0, 0), Spawned)
    requires s.exec[0].state == Running && s.exec[0].ctx == Child(Child(Root, 1, 0), 0, 0)
    ensures PairReached(s', RunOf(0, 0), Decided(Success, false)) && s'.exec[1] == s.exec[1]
    ensures s'.exec[0].terminal == s.exec[0].terminal && s'.exec[0].pending == s.exec[0].pending
  {
    hide WellFormed, CanReach, Pair, Marks, Keeps, IsTrace;
    PairFacts();
    s' := RunThrough(CleanStarts, Pair(), s, RunOf(0, 0), Capture);
    assert !Cancelled(Child(Root, 1, 0), s.cancelled) && !Cancelled(s.exec[0].ctx, s.cancelled);
    s' := RunThrough(CleanStarts, Pair(), s', RunOf(0, 0), Decide(false));
  }

  /** Task 0 succeeds, and its run is about to plan. */
  lemma PairCompletes(s: State) returns (s': State)
    requires PairReached(s, RunOf(0, 0), Decided(Success, false)) && s.exec[0].terminal == 0 && s.exec[0].pending == {}
    ensures PairReached(s', RunOf(0, 0), AwaitPlan) && s'.exec[1] == s.exec[1]
    ensures s'.exec[0].state == Done && s'.exec[0].terminal == 1 && s'.exec[0].pending == {}
  {
    hide WellFormed, CanReach, Pair, Marks, Keeps, IsTrace;
    PairFacts();
    var s1 := RunThrough(CleanStarts, Pair(), s, RunOf(0, 0), Write);
    var s2 := RunThrough(CleanStarts, Pair(), s1, RunOf(0, 0), Flush);
    s' := RunThrough(CleanStarts, Pair(), s2, RunOf(0, 0), KeepAlive);
  }

  lemma PairCollects(s: State)
    requires s.exec.Keys == {0, 1} && s.exec[1].pending == {} && (s.exec[0].pending == {} || s.exec[0].state == Done)
    ensures Pair().tasks == {0, 1} && Collect(Pair(), s) == if s.exec[0].pending == {} then {} else {0}
  {}

  /** The plan finds nothing to do. */
  lemma PairPlans(s: State) returns (s': State)
    requires PairReached(s, RunOf(0, 0), AwaitPlan) && s.exec[0].pending == {} && s.exec[1].pending == {}
    ensures PairReached(s', RunOf(0, 0), CheckPass) && s'.exec == s.exec
  {
    hide WellFormed, CanReach, Pair, IsTrace, Collect, Marks;
    var d, c, th := CleanStarts, Pair(), RunOf(0, 0);
    PairCollects(s);
    var s1 := Then(d, c, s, OfLock(th, AcquirePlan));
    s' := Then(d, c, s1, OfLock(th, ReleasePlan));
  }

  lemma PairMarks(s: State)
    requires s.exec.Keys == {0, 1} && s.exec[0].state == Done && s.exec[1].state == Invalid
    ensures Pair().tasks == {0, 1} && Marks(Pair(), InvalidIn(s.exec), 0, UserRestart) == {(0, UserRestart)}
  {
    hide WellFormed, Marks;
    MarksOfOne(Pair(), InvalidIn(s.exec), 0, UserRestart);
  }

  lemma MarkedDependency(exec: map<Task, Execution>, exec': map<Task, Execution>)
    requires exec.Keys == {0, 1} && exec' == AddMarks(exec, {(0, UserRestart)})
    ensures exec'.Keys == {0, 1} && exec'[1] == exec[1]
    ensures exec'[0] == exec[0].(pending := exec'[0].pending) && exec'[0].pending != {}
  {
    assert UserRestart in exec'[0].pending && exec'[1].pending == exec[1].pending;
  }

  /** A user's event for task 0 arrives. */
  lemma PairInterrupted(s: State) returns (s': State)
    requires PairReached(s, RunOf(0, 0), CheckPass) && s.exec[0].state == Done && s.exec[1].state == Invalid
    ensures PairReached(s', RunOf(0, 0), CheckPass) && At(s', Sender(s.nextId), Signalling(false))
    ensures s'.exec[0] == s.exec[0].(pending := s'.exec[0].pending) && s'.exec[0].pending != {} && s'.exec[1] == s.exec[1]
  {
    hide WellFormed, CanReach, Pair, Marks, Keeps, IsTrace, AddMarks;
    PairFacts();
    PairMarks(s);
    s' := Interrupt(CleanStarts, Pair(), s, 0, UserRestart);
    MarkedDependency(s.exec, s'.exec);
  }

  /** The pass of the run skips task 0. */
  lemma PairSkips(s: State) returns (s': State)
    requires PairReached(s, RunOf(0, 0), CheckPass) && s.exec[0].state == Done
    ensures s'.exec == s.exec && CanReach(CleanStarts, Pair(), s')
    ensures s' == s.(threads := s.threads[RunOf(0, 0) := Passing], lock := Passer(RunOf(0, 0), {1}))
  {
    hide WellFormed, CanReach, Pair, IsTrace, OnlyRun;
    var d, c, th := CleanStarts, Pair(), RunOf(0, 0);
    PairFacts();
    var s1 := TakePass(d, c, s, th);
    s' := VisitOne(d, c, s1, th, 0);
    assert s'.lock.unvisited == {1};
  }

  /** It starts task 1 all the same. */
  lemma PairPasses(s: State) returns (s': State)
    requires PairReached(s, RunOf(0, 0), CheckPass)
    requires s.exec[0].state == Done && s.exec[1].state == Invalid && s.exec[1].starts == 0
    ensures s'.exec.Keys == {0, 1} && CanReach(CleanStarts, Pair(), s') && s'.exec[0] == s.exec[0]
    ensures s'.exec[1].state == Running && s'.exec[1].pending == s.exec[1].pending
    ensures s' == s.(exec := s'.exec, running := s'.running,
                     threads := s.threads[RunOf(0, 0) := Passing][RunOf(1, 0) := Spawned] - {RunOf(0, 0)})
  {
    hide WellFormed, CanReach, Pair, IsTrace, OnlyRun;
    var d, c, th := CleanStarts, Pair(), RunOf(0, 0);
    PairFacts();
    var s1 := PairSkips(s);
    assert Executable(c, s1, 1);
    var s2 := VisitOne(d, c, s1, th, 1);
    assert s2.lock.unvisited == {};
    s' := LeavePass(d, c, s2, th);
  }

  lemma PairPassed(s: State, n: nat) returns (s': State)
    requires PairReached(s, RunOf(0, 0), CheckPass) && At(s, Sender(n), Signalling(false))
    requires s.exec[0].state == Done && s.exec[1].state == Invalid && s.exec[1].starts == 0
    ensures PairReached(s', RunOf(1, 0), Spawned) && At(s', Sender(n), Signalling(false)) && s'.exec[0] == s.exec[0]
    ensures s'.exec[1].state == Running && s'.exec[1].pending == s.exec[1].pending
  {
    hide CanReach, WellFormed, Pair;
    s' := PairPasses(s);
  }

  lemma PairBegins(s: State, n: nat) returns (s': State)
    requires PairReached(s, RunOf(1, 0), Spawned) && At(s, Sender(n), Signalling(false))
    requires s.exec[0].state == Done && s.exec[0].pending != {} && s.exec[1].pending == {}
    ensures s'.exec.Keys == {0, 1} && CanReach(CleanStarts, Pair(), s') && At(s', Loop, Planning)
    ensures s'.lock == Resetter(Loop, 0, {}) && s'.exec[0].state == Invalid && s'.exec[0].terminal == s.exec[0].terminal
    ensures s'.exec[1] == s.exec[1]
  {
    hide WellFormed, CanReach, Pair, IsTrace, Collect, Marks;
    PairFacts();
    PairCollects(s);
    var s1 := Notify(CleanStarts, Pair(), s, n);
    s' := BeginOne(CleanStarts, Pair(), s1, 0);
  }

  lemma PairEnds(s: State) returns (s': State)
    requires s.exec.Keys == {0, 1} && CanReach(CleanStarts, Pair(), s) && At(s, Loop, Planning)
    requires s.lock == Resetter(Loop, 0, {}) && s.exec[0].state == Invalid && s.exec[0].terminal == 1
    ensures s'.exec.Keys == {0, 1} && CanReach(CleanStarts, Pair(), s')
    ensures s'.lock == Free && s'.exec[0].state == Invalid && s'.exec[1] == s.exec[1]
  {
    hide WellFormed, CanReach, Pair, IsTrace, Collect, Marks;
    PairFacts();
    var s1 := EndOne(CleanStarts, Pair(), s);
    s' := Then(CleanStarts, Pair(), s1, OfLock(Loop, ReleasePlan));
  }

  /** Without the guard on passes, a plan ends with task 1 running although the dependency was reset. */
  lemma StartsMustBeClean() returns (s: State)
    ensures Reachable(Pair(), s) && AllTakeDependencyChange(Pair()) && IsBelow(Pair(), 0, 1)
    ensures s.exec.Keys == Pair().tasks == {0, 1} && BetweenPlans(s) && !Consistent(Pair(), s)
    ensures s.lock == Free && s.exec[1].state == Running && s.exec[0].state == Invalid
  {
    hide *;
    PairTakesChanges();
    s := PairStarts();
    s := PairDecides(s);
    s := PairCompletes(s);
    s := PairPlans(s);
    var n := s.nextId;
    s := PairInterrupted(s);
    s := PairPassed(s, n);
    s := PairBegins(s, n);
    s := PairEnds(s);
    CanReachIsReachable(Pair(), s);
    PairFacts();
    PairBroken(s);
  }

  lemma PairBroken(s: State)
    requires s.exec.Keys == {0, 1} && s.lock == Free && s.exec[1].state == Running && s.exec[0].state == Invalid
    ensures Pair().tasks == {0, 1} && BetweenPlans(s) && !Consistent(Pair(), s)
  {
    PairTakesChanges();
    assert !ConsistentPair(s, 0, 1);
  }
}
