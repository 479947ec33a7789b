/** The steps that a run makes between the end of its task's body and its own end, in whatever interleaving:
    their order, which of them a failed body leaves out, and the event the run publishes. */
module RunLife {
  import opened Tasks
  import opened Machine
  import opened Invariant
  import opened Preservation
  import opened Safety
  import opened Wakeup
  import opened Progress
  import opened Invalidation
  import opened Restarts

  predicate IsBy(step: Step, th: ThreadId) {
    match step
    case Signal(u) => u == th
    case OfLock(u, _) => u == th
    case OfRun(u, _) => u == th
    case _ => false
  }

  /** The thread's own steps, in order. */
  function Own(steps: seq<Step>, th: ThreadId): (own: seq<Step>)
    ensures |own| <= |steps|
  {
    if steps == [] then []
    else (if IsBy(steps[0], th) then [steps[0]] else []) + Own(steps[1..], th)
  }

  /** From the phase `ph` on, `own` are the steps up to the end of the run. */
  predicate Rest(th: ThreadId, ph: Phase, own: seq<Step>)
    decreases |own|, 0
  {
    own != [] && match ph
    case Decided(_, failed) => own[0] == OfRun(th, Write) && Rest(th, Flushing(failed), own[1..])
    case Flushing(failed) => own[0] == OfRun(th, Flush) && Rest(th, KeepingAlive(failed), own[1..])
    case KeepingAlive(failed) =>
      own[0] == OfRun(th, KeepAlive) && (Rest(th, Signalling(failed), own[1..]) || RestAfterCheck(th, failed, own[1..]))
    case Signalling(failed) => own[0] == Signal(th) && RestAfterCheck(th, failed, own[1..])
    case AwaitPlan => own[0] == OfLock(th, AcquirePlan) && Rest(th, Planning, own[1..])
    case Planning =>
      if IsReset(own[0], th) then Rest(th, Planning, own[1..])
      else own[0] == OfLock(th, ReleasePlan) && Rest(th, CheckPass, own[1..])
    case CheckPass => own[0] == OfLock(th, CheckLive) && (own[1..] == [] || Rest(th, AwaitPass, own[1..]))
    case AwaitPass => own[0] == OfLock(th, AcquirePass) && Rest(th, Passing, own[1..])
    case Passing =>
      if IsVisit(own[0], th) then Rest(th, Passing, own[1..]) else own == [OfLock(th, ReleasePass)]
    case _ => false
  }

  /** A run whose body failed goes to its pass without a plan. */
  predicate RestAfterCheck(th: ThreadId, failed: bool, own: seq<Step>)
    decreases |own|, 1
  {
    if failed then Rest(th, CheckPass, own) else Rest(th, AwaitPlan, own)
  }

  predicate IsReset(step: Step, th: ThreadId) {
    step.OfLock? && step.thread == th && (step.act.BeginReset? || step.act.EndReset?)
  }

  predicate IsVisit(step: Step, th: ThreadId) {
    step.OfLock? && step.thread == th && step.act.Visit?
  }

  // ---------------------------------------------------------------------------------------------
  // One step

  predicate PastBody(ph: Phase) {
    !ph.Spawned? && !ph.Body?
  }

  lemma RunStepRest(c: Config, s: State, th: ThreadId, r: RunStep, own: seq<Step>)
    requires s.exec.Keys == c.tasks && RunEnabled(c, s, th, r) && PastBody(s.threads[th])
    requires th in ApplyRun(c, s, th, r).threads && Rest(th, ApplyRun(c, s, th, r).threads[th], own)
    ensures Rest(th, s.threads[th], [OfRun(th, r)] + own)
  {
    hide WellFormed, ApplyRun;
    RunAdvances(c, s, th, r);
    assert ([OfRun(th, r)] + own)[1..] == own;
  }

  lemma SignalRest(s: State, th: ThreadId, own: seq<Step>)
    requires th in s.threads && s.threads[th].Signalling? && th.RunOf?
    requires Rest(th, SignalSent(s, th).threads[th], own)
    ensures Rest(th, s.threads[th], [Signal(th)] + own)
  {
    assert ([Signal(th)] + own)[1..] == own;
  }

  /** Where a step under the lock leaves the run that makes it. */
  lemma LockStepRest(c: Config, s: State, th: ThreadId, act: LockStep, own: seq<Step>)
    requires Inv(c, s) && s.exec.Keys == c.tasks && LockEnabled(c, s, th, act) && th.RunOf?
    requires th in ApplyLock(c, s, th, act).threads ==> Rest(th, ApplyLock(c, s, th, act).threads[th], own)
    requires th !in ApplyLock(c, s, th, act).threads ==> own == []
    ensures Rest(th, s.threads[th], [OfLock(th, act)] + own)
  {
    hide WellFormed, TasksOk, ChainsOk, CancelledOk, LockOk, ThreadsOk, ApplyLock, LockEnabled;
    LockStepTo(c, s, th, act);
    assert ([OfLock(th, act)] + own)[1..] == own;
  }

  lemma LockStepTo(c: Config, s: State, th: ThreadId, act: LockStep)
    requires Inv(c, s) && s.exec.Keys == c.tasks && LockEnabled(c, s, th, act) && th.RunOf?
    ensures var s', ph := ApplyLock(c, s, th, act), s.threads[th]; match act
      case AcquirePlan => ph == AwaitPlan && At(s', th, Planning)
      case BeginReset(_) => ph == Planning && At(s', th, Planning)
      case EndReset => ph == Planning && At(s', th, Planning)
      case ReleasePlan => ph == Planning && At(s', th, CheckPass)
      case CheckLive => ph == CheckPass && (th !in s'.threads || s'.threads[th] == AwaitPass)
      case AcquirePass => ph == AwaitPass && At(s', th, Passing)
      case Visit(_) => ph == Passing && At(s', th, Passing)
      case ReleasePass => ph == Passing && th !in s'.threads
  {
    hide WellFormed, TasksOk, ChainsOk, CancelledOk, LockOk, ThreadsOk, Executable, Collect;
    ThreadAt(c, s, th);
    if act.Visit? { RunIsFresh(s, act.task); }
  }

  /** A step that is not its own leaves a run where it is. */
  lemma OtherLeaves(c: Config, s: State, step: Step, th: ThreadId)
    requires Inv(c, s) && s.exec.Keys == c.tasks && Enabled(c, s, step) && !IsBy(step, th) && th.RunOf? && th in s.threads
    ensures th in Apply(c, s, step).threads && Apply(c, s, step).threads[th] == s.threads[th]
  {
    hide WellFormed, TasksOk, ChainsOk, CancelledOk, LockOk, ThreadsOk, ApplyLock, ApplyRun, RunEnabled;
    hide Marks, AddMarks, MarkedTasks, Accepts, InvalidIn;
    match step
    case OfRun(u, r) => RunLeavesOthers(c, s, u, r);
    case OfLock(u, act) =>
      if act.Visit? { RunIsFresh(s, act.task); }
      LockKeepsThread(c, s, u, act, th);
    case _ =>
  }

  /** A run of a task that was started before: it is not started again under the same number. */
  predicate WasStarted(s: State, th: ThreadId) {
    th.RunOf? && th.task in s.exec && th.nth < s.exec[th.task].starts
  }

  lemma StaysStarted(c: Config, s: State, step: Step, th: ThreadId)
    requires s.exec.Keys == c.tasks && Enabled(c, s, step) && WasStarted(s, th)
    ensures WasStarted(Apply(c, s, step), th)
  {
    hide WellFormed, ApplyLock, ApplyRun, LockEnabled, RunEnabled;
    match step
    case OfRun(u, r) => RunStepEffect(c, s, u, r, th.task);
    case OfLock(u, act) => LockStarts(c, s, u, act, th.task);
    case _ => MarkEffect(c, s, step, th.task);
  }

  lemma LockStarts(c: Config, s: State, th: ThreadId, act: LockStep, t: Task)
    requires s.exec.Keys == c.tasks && LockEnabled(c, s, th, act) && t in c.tasks
    ensures ApplyLock(c, s, th, act).exec[t].starts >= s.exec[t].starts
  {
    hide WellFormed, Executable, Collect, AfterPass;
    if act.CheckLive? { LeaverStays(s, th); }
    if act.ReleasePass? { LeaverStays(s.(lock := Free), th); }
  }

  lemma StaysAway(c: Config, s: State, step: Step, th: ThreadId)
    requires s.exec.Keys == c.tasks && Enabled(c, s, step) && WasStarted(s, th) && th !in s.threads
    ensures th !in Apply(c, s, step).threads && !IsBy(step, th)
  {
    hide WellFormed, ApplyLock, ApplyRun, Marks, AddMarks, MarkedTasks, Accepts, InvalidIn;
    match step
    case OfRun(u, r) => RunLeavesOthers(c, s, u, r);
    case OfLock(u, act) => LockAdds(c, s, u, act);
    case _ =>
  }

  lemma LockAdds(c: Config, s: State, th: ThreadId, act: LockStep)
    requires s.exec.Keys == c.tasks && LockEnabled(c, s, th, act)
    ensures forall u :: u in ApplyLock(c, s, th, act).threads && u.RunOf? ==>
      u in s.threads || (u.task in s.exec && u.nth == s.exec[u.task].starts)
  {
    hide WellFormed, Executable, Collect, AfterPass;
    if act.CheckLive? { LeaverStays(s, th); }
    if act.ReleasePass? { LeaverStays(s.(lock := Free), th); }
  }

  // ---------------------------------------------------------------------------------------------
  // Whole runs

  lemma {:induction false} NothingAfter(c: Config, s: State, steps: seq<Step>, th: ThreadId)
    requires Inv(c, s) && s.exec.Keys == c.tasks && IsRunFrom(c, s, steps) && WasStarted(s, th) && th !in s.threads
    ensures Own(steps, th) == [] && th !in After(c, s, steps).threads
    decreases |steps|
  {
    hide WellFormed, Inv, Enabled, Apply, Atomic, IsBy, WasStarted;
    if steps != [] {
      StaysAway(c, s, steps[0], th);
      StaysStarted(c, s, steps[0], th);
      StepInv(c, s, steps[0]);
      NothingAfter(c, Apply(c, s, steps[0]), steps[1..], th);
    }
  }

  /** How a run can go on from where it is, were it alone. */
  lemma {:induction false} CanFinish(th: ThreadId, ph: Phase) returns (more: seq<Step>)
    requires th.RunOf? && PhaseOk(th, ph) && PastBody(ph)
    ensures Rest(th, ph, more)
    decreases StepsToGo(ph)
  {
    var next := NextPhase(ph);
    if next.Some? {
      var after := CanFinish(th, next.value);
      more := [NextStep(th, ph)] + after;
      assert more[1..] == after;
    } else {
      more := [NextStep(th, ph)];
    }
  }

  function NextPhase(ph: Phase): Option<Phase> {
    match ph
    case Decided(_, failed) => Some(Flushing(failed))
    case Flushing(failed) => Some(KeepingAlive(failed))
    case KeepingAlive(failed) => Some(if failed then CheckPass else AwaitPlan)
    case Signalling(failed) => Some(if failed then CheckPass else AwaitPlan)
    case AwaitPlan => Some(Planning)
    case Planning => Some(CheckPass)
    case AwaitPass => Some(Passing)
    case _ => None
  }

  function NextStep(th: ThreadId, ph: Phase): Step {
    match ph
    case Decided(_, _) => OfRun(th, Write)
    case Flushing(_) => OfRun(th, Flush)
    case KeepingAlive(_) => OfRun(th, KeepAlive)
    case Signalling(_) => Signal(th)
    case AwaitPlan => OfLock(th, AcquirePlan)
    case Planning => OfLock(th, ReleasePlan)
    case CheckPass => OfLock(th, CheckLive)
    case AwaitPass => OfLock(th, AcquirePass)
    case _ => OfLock(th, ReleasePass)
  }

  function StepsToGo(ph: Phase): nat {
    match ph
    case Decided(_, _) => 6
    case Flushing(_) => 5
    case KeepingAlive(_) => 4
    case Signalling(_) => 3
    case AwaitPlan => 2
    case Planning => 1
    case AwaitPass => 1
    case _ => 0
  }

  lemma {:induction false} LifeGoesOn(c: Config, s: State, steps: seq<Step>, th: ThreadId) returns (more: seq<Step>)
    requires Inv(c, s) && s.exec.Keys == c.tasks && IsRunFrom(c, s, steps)
    requires th.RunOf? && th in s.threads && PastBody(s.threads[th])
    ensures Rest(th, s.threads[th], Own(steps, th) + more)
    ensures th !in After(c, s, steps).threads ==> more == []
    decreases |steps|
  {
    hide WellFormed, TasksOk, ChainsOk, CancelledOk, LockOk, ThreadsOk, Enabled, Apply, Atomic, IsBy, Rest;
    ThreadAt(c, s, th);
    if steps == [] {
      more := CanFinish(th, s.threads[th]);
      assert Own(steps, th) + more == more;
    } else {
      var s' := Apply(c, s, steps[0]);
      StepInv(c, s, steps[0]);
      if !IsBy(steps[0], th) {
        OtherLeaves(c, s, steps[0], th);
        more := LifeGoesOn(c, s', steps[1..], th);
        assert Own(steps, th) == Own(steps[1..], th);
      } else {
        StaysStarted(c, s, steps[0], th);
        if th in s'.threads {
          StaysPastBody(c, s, steps[0], th);
          more := LifeGoesOn(c, s', steps[1..], th);
        } else {
          NothingAfter(c, s', steps[1..], th);
          more := [];
        }
        assert Own(steps, th) + more == [steps[0]] + (Own(steps[1..], th) + more);
        StepRest(c, s, steps[0], th, Own(steps[1..], th) + more);
      }
    }
  }

  lemma StaysPastBody(c: Config, s: State, step: Step, th: ThreadId)
    requires Inv(c, s) && s.exec.Keys == c.tasks && Enabled(c, s, step) && IsBy(step, th)
    requires th.RunOf? && th in s.threads && PastBody(s.threads[th]) && th in Apply(c, s, step).threads
    ensures PastBody(Apply(c, s, step).threads[th])
  {
    hide WellFormed, TasksOk, ChainsOk, CancelledOk, LockOk, ThreadsOk, ApplyLock, ApplyRun, LockEnabled;
    match step
    case OfRun(_, r) => RunAdvances(c, s, th, r);
    case OfLock(_, act) => LockStepTo(c, s, th, act);
    case _ =>
  }

  lemma StepRest(c: Config, s: State, step: Step, th: ThreadId, own: seq<Step>)
    requires Inv(c, s) && s.exec.Keys == c.tasks && Enabled(c, s, step) && IsBy(step, th)
    requires th.RunOf? && th in s.threads && PastBody(s.threads[th])
    requires th in Apply(c, s, step).threads ==> Rest(th, Apply(c, s, step).threads[th], own)
    requires th !in Apply(c, s, step).threads ==> own == []
    ensures Rest(th, s.threads[th], [step] + own)
  {
    hide WellFormed, Inv, ApplyLock, ApplyRun, LockEnabled, RunEnabled, Rest;
    match step
    case OfRun(_, r) =>
      RunLeavesOthers(c, s, th, r);
      RunStepRest(c, s, th, r, own);
    case OfLock(_, act) => LockStepRest(c, s, th, act, own);
    case Signal(_) => SignalRest(s, th, own);
    case _ =>
  }

  // ---------------------------------------------------------------------------------------------
  // The whole life, spelled out

  /** One plan: taken, with the resets of the tasks it collected, and released. */
  predicate IsPlan(th: ThreadId, plan: seq<Step>) {
    && |plan| >= 2 && plan[0] == OfLock(th, AcquirePlan) && plan[|plan| - 1] == OfLock(th, ReleasePlan)
    && forall i :: 0 < i < |plan| - 1 ==> IsReset(plan[i], th)
  }

  predicate IsPass(th: ThreadId, pass: seq<Step>) {
    && |pass| >= 2 && pass[0] == OfLock(th, AcquirePass) && pass[|pass| - 1] == OfLock(th, ReleasePass)
    && forall i :: 0 < i < |pass| - 1 ==> IsVisit(pass[i], th)
  }

  lemma {:induction false} VisitsThenRelease(th: ThreadId, own: seq<Step>)
    requires Rest(th, Passing, own)
    ensures own != [] && own[|own| - 1] == OfLock(th, ReleasePass)
    ensures forall i :: 0 <= i < |own| - 1 ==> IsVisit(own[i], th)
    decreases |own|
  {
    if IsVisit(own[0], th) {
      VisitsThenRelease(th, own[1..]);
    }
  }

  lemma {:induction false} ResetsThenRelease(th: ThreadId, own: seq<Step>) returns (n: nat)
    requires Rest(th, Planning, own)
    ensures n < |own| && own[n] == OfLock(th, ReleasePlan) && Rest(th, CheckPass, own[n + 1..])
    ensures forall i :: 0 <= i < n ==> IsReset(own[i], th)
    decreases |own|
  {
    if IsReset(own[0], th) {
      var m := ResetsThenRelease(th, own[1..]);
      n := m + 1;
      assert own[1..][m + 1..] == own[n + 1..];
    } else {
      n := 0;
    }
  }

  lemma CheckThenPass(th: ThreadId, own: seq<Step>) returns (pass: seq<Step>)
    requires Rest(th, CheckPass, own)
    ensures own == [OfLock(th, CheckLive)] + pass && (pass == [] || IsPass(th, pass))
  {
    pass := own[1..];
    if pass != [] {
      VisitsThenRelease(th, pass[1..]);
    }
  }

  lemma PlanThenCheck(th: ThreadId, own: seq<Step>) returns (plan: seq<Step>, after: seq<Step>)
    requires Rest(th, AwaitPlan, own)
    ensures own == plan + after && IsPlan(th, plan) && Rest(th, CheckPass, after)
  {
    hide Rest;
    assert own != [] && own[0] == OfLock(th, AcquirePlan) && Rest(th, Planning, own[1..]) by { PlanComesFirst(th, own); }
    var n := ResetsThenRelease(th, own[1..]);
    plan, after := own[..n + 2], own[n + 2..];
    assert own[1..][n + 1..] == after;
    forall i | 0 < i < |plan| - 1 ensures IsReset(plan[i], th) { assert plan[i] == own[1..][i - 1]; }
  }

  lemma PlanComesFirst(th: ThreadId, own: seq<Step>)
    requires Rest(th, AwaitPlan, own)
    ensures own != [] && own[0] == OfLock(th, AcquirePlan) && Rest(th, Planning, own[1..])
  {}

  lemma PlanUnlessFailed(th: ThreadId, failed: bool, own: seq<Step>) returns (plan: seq<Step>, pass: seq<Step>)
    requires RestAfterCheck(th, failed, own)
    ensures own == plan + [OfLock(th, CheckLive)] + pass && (pass == [] || IsPass(th, pass))
    ensures if failed then plan == [] else IsPlan(th, plan)
  {
    hide Rest;
    if failed {
      plan := [];
      pass := CheckThenPass(th, own);
    } else {
      var after: seq<Step>;
      plan, after := PlanThenCheck(th, own);
      pass := CheckThenPass(th, after);
    }
  }

  /** From the end of its body to its own end, whatever the interleaving, a run writes its outcome, sends its
      token, makes its keep-alive check, may send to the loop, plans once iff its body returned no error, and
      goes on to its pass. `more` is what is missing while the run is under way. */
  lemma LifeOfRun(c: Config, s: State, steps: seq<Step>, th: ThreadId, failed: bool)
    returns (more: seq<Step>, sends: seq<Step>, plan: seq<Step>, pass: seq<Step>)
    requires Reachable(c, s) && IsRunFrom(c, s, steps)
    requires th.RunOf? && steps != [] && steps[0] == OfRun(th, Decide(failed))
    ensures Own(steps, th) + more
         == [OfRun(th, Decide(failed)), OfRun(th, Write), OfRun(th, Flush), OfRun(th, KeepAlive)] + sends + plan
            + [OfLock(th, CheckLive)] + pass
    ensures th !in After(c, s, steps).threads ==> more == []
    ensures sends == [] || sends == [Signal(th)]
    ensures if failed then plan == [] else IsPlan(th, plan)
    ensures pass == [] || IsPass(th, pass)
  {
    hide WellFormed, Reachable, Inv, ApplyRun, RunEnabled, Atomic, Rest, IsPlan, IsPass;
    ReachableInv(c, s);
    var s' := Apply(c, s, steps[0]);
    StepInv(c, s, steps[0]);
    RunAdvances(c, s, th, Decide(failed));
    more := LifeGoesOn(c, s', steps[1..], th);
    var tail := FlattenLife(th, s'.threads[th], Own(steps[1..], th) + more);
    sends, plan, pass := tail.0, tail.1, tail.2;
    assert Own(steps, th) == [steps[0]] + Own(steps[1..], th);
    Prepend(steps[0], Own(steps[1..], th), more);
    Regroup(steps[0], OfRun(th, Write), OfRun(th, Flush), OfRun(th, KeepAlive), sends, plan, [OfLock(th, CheckLive)], pass);
  }

  lemma Prepend(step: Step, own: seq<Step>, more: seq<Step>)
    ensures [step] + own + more == [step] + (own + more)
  {}

  lemma Regroup(x: Step, y: Step, z: Step, v: Step, a: seq<Step>, b: seq<Step>, d: seq<Step>, e: seq<Step>)
    ensures [x] + ([y, z, v] + a + b + d + e) == [x, y, z, v] + a + b + d + e
  {}

  lemma FirstThree(th: ThreadId, ph: Phase, own: seq<Step>)
    requires ph.Decided? && Rest(th, ph, own)
    ensures |own| > 3 && own == [OfRun(th, Write), OfRun(th, Flush), OfRun(th, KeepAlive)] + own[3..]
    ensures RestAfterCheck(th, ph.failed, own[3..])
         || (own[3] == Signal(th) && RestAfterCheck(th, ph.failed, own[3..][1..]))
  {
    var own1 := own[1..];
    assert Rest(th, Flushing(ph.failed), own1);
    var own2 := own1[1..];
    assert Rest(th, KeepingAlive(ph.failed), own2);
    var own3 := own2[1..];
    assert RestAfterCheck(th, ph.failed, own3) || Rest(th, Signalling(ph.failed), own3);
    assert own3 != [] by { AfterCheckIsMore(th, ph.failed, own3); }
    assert own[1] == own1[0] && own[2] == own2[0] && own[3..] == own3;
  }

  lemma AfterCheckIsMore(th: ThreadId, failed: bool, own: seq<Step>)
    requires RestAfterCheck(th, failed, own) || Rest(th, Signalling(failed), own)
    ensures own != []
  {}

  lemma FlattenLife(th: ThreadId, ph: Phase, own: seq<Step>) returns (tail: (seq<Step>, seq<Step>, seq<Step>))
    requires ph.Decided? && Rest(th, ph, own)
    ensures own == [OfRun(th, Write), OfRun(th, Flush), OfRun(th, KeepAlive)] + tail.0 + tail.1 + [OfLock(th, CheckLive)] + tail.2
    ensures tail.0 == [] || tail.0 == [Signal(th)]
    ensures if ph.failed then tail.1 == [] else IsPlan(th, tail.1)
    ensures tail.2 == [] || IsPass(th, tail.2)
  {
    hide Rest, RestAfterCheck, IsPlan, IsPass;
    FirstThree(th, ph, own);
    var own3 := own[3..];
    if RestAfterCheck(th, ph.failed, own3) {
      var plan, pass := PlanUnlessFailed(th, ph.failed, own3);
      tail := ([], plan, pass);
    } else {
      var plan, pass := PlanUnlessFailed(th, ph.failed, own3[1..]);
      tail := ([Signal(th)], plan, pass);
      assert own3 == [Signal(th)] + own3[1..];
    }
  }

  /** It sends iff its task is kept alive, is neither invalid nor canceled, and takes the end of its own run as a
      reason; then that event is pending. Whether the run failed makes no difference. */
  lemma SendsIff(c: Config, s: State, th: ThreadId)
    requires s.exec.Keys == c.tasks && RunEnabled(c, s, th, KeepAlive)
    ensures th in ApplyRun(c, s, th, KeepAlive).threads
    ensures ApplyRun(c, s, th, KeepAlive).threads[th].Signalling?
       <==> th.task in c.keepAlive && c.accepts(th.task, KeepAliveStopped) && s.exec[th.task].state in {Running, Error, Done}
    ensures ApplyRun(c, s, th, KeepAlive).threads[th].Signalling? ==>
      KeepAliveStopped in ApplyRun(c, s, th, KeepAlive).exec[th.task].pending
    ensures !ApplyRun(c, s, th, KeepAlive).threads[th].Signalling? ==> ApplyRun(c, s, th, KeepAlive).exec == s.exec
  {
    hide WellFormed, AddMarks;
    var x := s.exec[th.task];
    var marks := Marks(c, InvalidIn(s.exec), th.task, KeepAliveStopped);
    PendingAfter(s.exec, marks, th.task, KeepAliveStopped);
    assert x.state != Invalid && c.accepts(th.task, KeepAliveStopped) ==> (th.task, KeepAliveStopped) in marks;
  }

  lemma {:induction false} OwnCounts(steps: seq<Step>, th: ThreadId, step: Step)
    requires IsBy(step, th)
    ensures multiset(Own(steps, th))[step] == multiset(steps)[step]
    decreases |steps|
  {
    if steps != [] {
      assert steps == [steps[0]] + steps[1..];
      OwnCounts(steps[1..], th, step);
    }
  }

  /** So a run plans exactly once before it ends if its body returned no error, and never if it did. */
  lemma PlansOnceUnlessFailed(c: Config, s: State, steps: seq<Step>, th: ThreadId, failed: bool)
    requires Reachable(c, s) && IsRunFrom(c, s, steps)
    requires th.RunOf? && steps != [] && steps[0] == OfRun(th, Decide(failed))
    ensures failed ==> OfLock(th, AcquirePlan) !in steps
    ensures !failed ==> multiset(steps)[OfLock(th, AcquirePlan)] <= 1
    ensures !failed && th !in After(c, s, steps).threads ==> multiset(steps)[OfLock(th, AcquirePlan)] == 1
  {
    hide WellFormed, Reachable, IsRunFrom, After, Own, IsPlan, IsPass;
    var more, sends, plan, pass := LifeOfRun(c, s, steps, th, failed);
    var step := OfLock(th, AcquirePlan);
    OwnCounts(steps, th, step);
    NoPlanInPass(th, pass);
    if !failed { OnePlan(th, plan); }
    CountInParts([OfRun(th, Decide(failed)), OfRun(th, Write), OfRun(th, Flush), OfRun(th, KeepAlive)], sends, plan,
                 [OfLock(th, CheckLive)], pass, step);
    CountInFirst(Own(steps, th), more, step);
  }

  lemma NoPlanInPass(th: ThreadId, pass: seq<Step>)
    requires pass == [] || IsPass(th, pass)
    ensures OfLock(th, AcquirePlan) !in pass
  {}

  lemma OnePlan(th: ThreadId, plan: seq<Step>)
    requires IsPlan(th, plan)
    ensures multiset(plan)[OfLock(th, AcquirePlan)] == 1
  {
    assert plan == [plan[0]] + plan[1..] && OfLock(th, AcquirePlan) !in plan[1..];
  }

  lemma CountInParts(a: seq<Step>, b: seq<Step>, plan: seq<Step>, d: seq<Step>, e: seq<Step>, x: Step)
    requires x !in a && x !in b && x !in d && x !in e
    ensures multiset(a + b + plan + d + e)[x] == multiset(plan)[x]
  {
    assert x !in multiset(a) && x !in multiset(b) && x !in multiset(d) && x !in multiset(e);
  }

  lemma CountInFirst(own: seq<Step>, more: seq<Step>, x: Step)
    ensures multiset(own)[x] <= multiset(own + more)[x]
    ensures more == [] ==> multiset(own)[x] == multiset(own + more)[x]
  {
    if more == [] { assert own + more == own; }
  }

  // ---------------------------------------------------------------------------------------------
  // The event that a run publishes

  /** The run has written its outcome, or is over. */
  predicate HasWritten(s: State, th: ThreadId) {
    WasStarted(s, th) && (th in s.threads ==> PastBody(s.threads[th]) && !s.threads[th].Decided?)
  }

  lemma StaysWritten(c: Config, s: State, step: Step, th: ThreadId)
    requires Inv(c, s) && s.exec.Keys == c.tasks && Enabled(c, s, step) && HasWritten(s, th)
    ensures HasWritten(Apply(c, s, step), th)
  {
    hide WellFormed, TasksOk, ChainsOk, CancelledOk, LockOk, ThreadsOk, Apply, Enabled;
    StaysStarted(c, s, step, th);
    if th !in s.threads {
      StaysAway(c, s, step, th);
    } else if IsBy(step, th) {
      OwnStepWritten(c, s, step, th);
    } else {
      OtherLeaves(c, s, step, th);
    }
  }

  lemma OwnStepWritten(c: Config, s: State, step: Step, th: ThreadId)
    requires Inv(c, s) && s.exec.Keys == c.tasks && Enabled(c, s, step) && IsBy(step, th)
    requires th.RunOf? && th in s.threads && PastBody(s.threads[th]) && !s.threads[th].Decided?
    ensures th in Apply(c, s, step).threads ==>
      PastBody(Apply(c, s, step).threads[th]) && !Apply(c, s, step).threads[th].Decided?
  {
    hide WellFormed, TasksOk, ChainsOk, CancelledOk, LockOk, ThreadsOk, ApplyLock, ApplyRun, LockEnabled;
    match step
    case OfRun(_, r) => RunAdvances(c, s, th, r);
    case OfLock(_, act) => LockStepTo(c, s, th, act);
    case _ =>
  }

  lemma {:induction false} WrittenForGood(c: Config, s: State, steps: seq<Step>, th: ThreadId)
    requires Inv(c, s) && s.exec.Keys == c.tasks && IsRunFrom(c, s, steps) && HasWritten(s, th)
    ensures HasWritten(After(c, s, steps), th)
    decreases |steps|
  {
    hide WellFormed, Inv, HasWritten, Enabled, Apply, Atomic;
    if steps != [] {
      StaysWritten(c, s, steps[0], th);
      StepInv(c, s, steps[0]);
      WrittenForGood(c, Apply(c, s, steps[0]), steps[1..], th);
    }
  }

  lemma TraceOfOthers(c: Config, s: State, step: Step, th: ThreadId)
    requires Inv(c, s) && s.exec.Keys == c.tasks && Enabled(c, s, step) && !IsBy(step, th)
    requires IsRun(c, s, th) && Live(s.threads[th])
    ensures Apply(c, s, step).exec[th.task].trace == s.exec[th.task].trace
  {
    hide WellFormed, Inv, ApplyLock, ApplyRun, LockEnabled;
    match step
    case OfRun(u, r) => RunTrace(c, s, u, r, th);
    case OfLock(u, act) => LockTrace(c, s, u, act, th.task);
    case _ => MarkEffect(c, s, step, th.task);
  }

  lemma RunTrace(c: Config, s: State, u: ThreadId, r: RunStep, th: ThreadId)
    requires Inv(c, s) && s.exec.Keys == c.tasks && RunEnabled(c, s, u, r) && u != th
    requires IsRun(c, s, th) && Live(s.threads[th])
    ensures ApplyRun(c, s, u, r).exec[th.task].trace == s.exec[th.task].trace
  {
    hide WellFormed, TasksOk, ChainsOk, CancelledOk, LockOk, ThreadsOk, Marks, AddMarks, Cancelled;
    ThreadAt(c, s, th);
    ThreadAt(c, s, u);
    if r == KeepAlive {
      MarkedExecution(s.exec, Marks(c, InvalidIn(s.exec), u.task, KeepAliveStopped), th.task);
    }
  }

  lemma LockTrace(c: Config, s: State, u: ThreadId, act: LockStep, t: Task)
    requires s.exec.Keys == c.tasks && LockEnabled(c, s, u, act) && t in c.tasks
    ensures ApplyLock(c, s, u, act).exec[t].trace == s.exec[t].trace
  {
    hide WellFormed, Executable, Collect;
  }

  lemma {:induction false} DecidedStays(c: Config, s: State, steps: seq<Step>, th: ThreadId)
    requires Inv(c, s) && s.exec.Keys == c.tasks && IsRunFrom(c, s, steps) && IsRun(c, s, th) && s.threads[th].Decided?
    requires IsRun(c, After(c, s, steps), th) && After(c, s, steps).threads[th].Decided?
    ensures After(c, s, steps).threads[th] == s.threads[th]
    ensures After(c, s, steps).exec[th.task].trace == s.exec[th.task].trace
    decreases |steps|
  {
    hide WellFormed, TasksOk, ChainsOk, CancelledOk, LockOk, ThreadsOk, Apply, Atomic, ApplyRun, ApplyLock;
    if steps != [] {
      var s' := Apply(c, s, steps[0]);
      StepInv(c, s, steps[0]);
      if IsBy(steps[0], th) {
        ThreadAt(c, s, th);
        OwnStepFromDecided(c, s, steps[0], th);
        WrittenForGood(c, s', steps[1..], th);
        assert false;
      } else {
        OtherLeaves(c, s, steps[0], th);
        TraceOfOthers(c, s, steps[0], th);
        DecidedStays(c, s', steps[1..], th);
      }
    }
  }

  lemma OwnStepFromDecided(c: Config, s: State, step: Step, th: ThreadId)
    requires Inv(c, s) && s.exec.Keys == c.tasks && Enabled(c, s, step) && IsBy(step, th)
    requires IsRun(c, s, th) && s.threads[th].Decided? && WasStarted(s, th)
    ensures HasWritten(Apply(c, s, step), th)
  {
    hide WellFormed, TasksOk, ChainsOk, CancelledOk, LockOk, ThreadsOk, ApplyLock, ApplyRun, LockEnabled;
    StaysStarted(c, s, step, th);
    match step
    case OfRun(_, r) => RunAdvances(c, s, th, r);
    case OfLock(_, act) => LockStepTo(c, s, th, act);
    case _ =>
  }

  /** Between the end of a body and the state write of its run anything may happen to other threads: a run whose
      context was cancelled when the body ended publishes that it was stopped, also while its task is being
      reset, and leaves the state alone unless the executor is shut down; any other publishes and writes the
      body's own outcome. */
  lemma OutcomeOfRun(c: Config, s: State, steps: seq<Step>, th: ThreadId, failed: bool)
    requires Reachable(c, s) && IsRunFrom(c, s, steps) && th.RunOf?
    requires steps != [] && steps[0] == OfRun(th, Decide(failed)) && RunEnabled(c, After(c, s, steps), th, Write)
    ensures var x, x' := After(c, s, steps).exec[th.task], ApplyRun(c, After(c, s, steps), th, Write).exec[th.task];
      && x.trace == s.exec[th.task].trace
      && if Cancelled(s.threads[th].ctx, s.cancelled)
         then x' == x.(state := if Root in After(c, s, steps).cancelled then Canceled else x.state, trace := x.trace + [Stopped])
         else if failed then x' == x.(state := Error, trace := x.trace + [Failed])
         else x' == x.(state := Done, trace := x.trace + [Completed])
  {
    hide WellFormed, Reachable, Inv, Cancelled, Atomic, ApplyRun;
    ReachableInv(c, s);
    StepInv(c, s, steps[0]);
    AtDecision(c, s, th, failed);
    AtWrite(c, After(c, s, steps), th);
    DecidedStays(c, Apply(c, s, steps[0]), steps[1..], th);
  }

  lemma AtDecision(c: Config, s: State, th: ThreadId, failed: bool)
    requires s.exec.Keys == c.tasks && RunEnabled(c, s, th, Decide(failed))
    ensures ApplyRun(c, s, th, Decide(failed)).exec == s.exec
    ensures IsRun(c, ApplyRun(c, s, th, Decide(failed)), th)
    ensures ApplyRun(c, s, th, Decide(failed)).threads[th]
         == Decided(if Cancelled(s.threads[th].ctx, s.cancelled) then Stop else if failed then Failure else Success, failed)
  {
    hide WellFormed, Cancelled;
  }

  lemma AtWrite(c: Config, s: State, th: ThreadId)
    requires s.exec.Keys == c.tasks && RunEnabled(c, s, th, Write)
    ensures var x, x' := s.exec[th.task], ApplyRun(c, s, th, Write).exec[th.task]; match s.threads[th].outcome
      case Stop => x' == x.(state := if Root in s.cancelled then Canceled else x.state, trace := x.trace + [Stopped])
      case Failure => x' == x.(state := Error, trace := x.trace + [Failed])
      case Success => x' == x.(state := Done, trace := x.trace + [Completed])
  {
    hide WellFormed;
  }

  // ---------------------------------------------------------------------------------------------
  // The last event tells the state

  predicate LastEventOk(x: Execution) {
    && (x.state == Done ==> x.trace != [] && x.trace[|x.trace| - 1] == Completed)
    && (x.state == Error ==> x.trace != [] && x.trace[|x.trace| - 1] == Failed)
    && (x.state == Canceled ==> x.trace != [] && x.trace[|x.trace| - 1] == Stopped)
  }

  ghost predicate LastEventsOk(c: Config, s: State)
    requires s.exec.Keys == c.tasks
  {
    forall t {:trigger LastEventOk(s.exec[t])} :: t in c.tasks ==> LastEventOk(s.exec[t])
  }

  lemma RunLastEvent(c: Config, s: State, th: ThreadId, r: RunStep, t: Task)
    requires Inv(c, s) && s.exec.Keys == c.tasks && RunEnabled(c, s, th, r) && t in c.tasks && LastEventOk(s.exec[t])
    ensures LastEventOk(ApplyRun(c, s, th, r).exec[t])
  {
    hide WellFormed, Inv, ApplyRun, LastEventOk;
    InvKeys(c, s);
    match r
    case Capture => CaptureLastEvent(c, s, th, t);
    case Write => WriteLastEvent(c, s, th, t);
    case _ =>
      QuietRunEvents(c, s, th, r, t);
      SameLastEvent(s.exec[t], ApplyRun(c, s, th, r).exec[t]);
  }

  /** The body begins in a task that is running, which then has no last event of an end. */
  lemma CaptureLastEvent(c: Config, s: State, th: ThreadId, t: Task)
    requires Inv(c, s) && s.exec.Keys == c.tasks && RunEnabled(c, s, th, Capture) && t in c.tasks && LastEventOk(s.exec[t])
    ensures LastEventOk(ApplyRun(c, s, th, Capture).exec[t])
  {
    hide WellFormed, TasksOk, ChainsOk, CancelledOk, LockOk, ThreadsOk, TraceOk, CtxOk;
    ThreadAt(c, s, th);
    TaskAt(c, s, th.task);
  }

  lemma WriteLastEvent(c: Config, s: State, th: ThreadId, t: Task)
    requires Inv(c, s) && s.exec.Keys == c.tasks && RunEnabled(c, s, th, Write) && t in c.tasks && LastEventOk(s.exec[t])
    ensures LastEventOk(ApplyRun(c, s, th, Write).exec[t])
  {
    hide WellFormed, Inv, ApplyRun;
    LiveIsLast(c, s, th);
    AtWrite(c, s, th);
    if t != th.task { WriteTouches(c, s, th, t); }
  }

  lemma WriteTouches(c: Config, s: State, th: ThreadId, t: Task)
    requires s.exec.Keys == c.tasks && RunEnabled(c, s, th, Write) && t in c.tasks && t != th.task
    ensures ApplyRun(c, s, th, Write).exec[t] == s.exec[t]
  {
    hide WellFormed;
  }

  lemma QuietRunEvents(c: Config, s: State, th: ThreadId, r: RunStep, t: Task)
    requires s.exec.Keys == c.tasks && RunEnabled(c, s, th, r) && t in c.tasks && r != Capture && r != Write
    ensures ApplyRun(c, s, th, r).exec[t].state == s.exec[t].state && ApplyRun(c, s, th, r).exec[t].trace == s.exec[t].trace
  {
    hide WellFormed, Marks, AddMarks, Cancelled;
    if r == KeepAlive {
      MarkedExecution(s.exec, Marks(c, InvalidIn(s.exec), th.task, KeepAliveStopped), t);
    }
  }

  lemma LockLastEvent(c: Config, s: State, th: ThreadId, act: LockStep, t: Task)
    requires s.exec.Keys == c.tasks && LockEnabled(c, s, th, act) && t in c.tasks && LastEventOk(s.exec[t])
    ensures LastEventOk(ApplyLock(c, s, th, act).exec[t])
  {
    hide WellFormed, Executable, Collect, AfterPass;
    if act.CheckLive? { LeaverStays(s, th); }
    if act.ReleasePass? { LeaverStays(s.(lock := Free), th); }
  }

  lemma StepLastEvents(c: Config, s: State, step: Step)
    requires Inv(c, s) && s.exec.Keys == c.tasks && LastEventsOk(c, s) && Enabled(c, s, step)
    ensures LastEventsOk(c, Apply(c, s, step))
  {
    hide WellFormed, Inv, ApplyLock, ApplyRun, LockEnabled, RunEnabled, LastEventOk;
    forall t | t in c.tasks ensures LastEventOk(Apply(c, s, step).exec[t]) {
      assert LastEventOk(s.exec[t]);
      match step
      case OfRun(th, r) => RunLastEvent(c, s, th, r, t);
      case OfLock(th, act) => LockLastEvent(c, s, th, act, t);
      case _ =>
        MarkEffect(c, s, step, t);
        SameLastEvent(s.exec[t], Apply(c, s, step).exec[t]);
    }
  }

  lemma SameLastEvent(x: Execution, y: Execution)
    requires LastEventOk(x) && y.state == x.state && y.trace == x.trace
    ensures LastEventOk(y)
  {}

  lemma {:induction false} RunLastEvents(c: Config, s: State, steps: seq<Step>)
    requires Inv(c, s) && s.exec.Keys == c.tasks && LastEventsOk(c, s) && IsRunFrom(c, s, steps)
    ensures LastEventsOk(c, After(c, s, steps))
    decreases |steps|
  {
    hide WellFormed, Inv, LastEventsOk, Enabled, Apply, Atomic;
    if steps != [] {
      StepLastEvents(c, s, steps[0]);
      StepInv(c, s, steps[0]);
      RunLastEvents(c, Apply(c, s, steps[0]), steps[1..]);
    }
  }

  /** In every reachable state the last event of a task that ended is that of its state: Completed for done,
      Failed for error, Stopped for canceled. */
  lemma LastEventIsOutcome(c: Config, s: State, t: Task)
    requires Reachable(c, s) && t in c.tasks
    ensures s.exec[t].state in {Done, Error, Canceled} ==> s.exec[t].trace != []
    ensures s.exec[t].state == Done ==> s.exec[t].trace[|s.exec[t].trace| - 1] == Completed
    ensures s.exec[t].state == Error ==> s.exec[t].trace[|s.exec[t].trace| - 1] == Failed
    ensures s.exec[t].state == Canceled ==> s.exec[t].trace[|s.exec[t].trace| - 1] == Stopped
  {
    hide WellFormed, Inv, IsRunFrom, After;
    var steps :| IsRunFrom(c, Init(c), steps) && s == After(c, Init(c), steps);
    InitInv(c);
    RunLastEvents(c, Init(c), steps);
    assert LastEventOk(s.exec[t]);
  }
}
