/** What the walks that lock execution by execution amount to: a walk that meets the same states throughout
    makes exactly the calls, and sets exactly the marks, of the recursion run alone. */
module WalkMarks {
  import opened Tasks
  import opened Machine
  import opened Invalidation
  import opened WalkLocks

  /** The event of the call that a walk for `e` is about to make. */
  function EventAt(k: Walk, e: Event): Event {
    if k.held == [] then e else DependencyChange(Last(k.held).task)
  }

  function CallAt(k: Walk, e: Event): (Task, Event)
    requires k.wanted.Some?
  {
    (k.wanted.value, EventAt(k, e))
  }

  /** The step takes the lock of the walk `w`, and with `accepts` goes on to the loop, exactly if the call
      would: the task is not invalid and its filter takes the event. */
  ghost predicate GoesByFilter(c: Config, invalid: set<Task>, e: Event, s: Walks, step: WalkStep, w: Walker)
    requires CanStep(c, s, step)
  {
    step.Lock? && step.w == w ==>
      (step.accepts <==> Takes(c, invalid, CallAt(s.walks[w], e).0, CallAt(s.walks[w], e).1))
  }

  ghost predicate GoByFilter(c: Config, invalid: set<Task>, e: Event, s: Walks, steps: seq<WalkStep>, w: Walker)
    requires AreSteps(c, s, steps)
    decreases |steps|
  {
    steps != [] ==>
    && GoesByFilter(c, invalid, e, s, steps[0], w) && GoByFilter(c, invalid, e, DoStep(c, s, steps[0]), steps[1..], w)
  }

  /** Some step takes the lock of the walk for the call `q`; with `accepts` set, only if that call accepts. */
  ghost predicate Locks(c: Config, e: Event, s: Walks, steps: seq<WalkStep>, w: Walker, accepts: bool, q: (Task, Event))
    requires AreSteps(c, s, steps)
    decreases |steps|
  {
    steps != [] &&
    ((steps[0].Lock? && steps[0].w == w && q == CallAt(s.walks[w], e) && (accepts ==> steps[0].accepts))
     || Locks(c, e, DoStep(c, s, steps[0]), steps[1..], w, accepts, q))
  }

  // ---------------------------------------------------------------------------------------------
  // The calls of the recursion

  /** The recursion from (t, e) makes the call `q`: its first one, or one for a dependent of a marked task. */
  ghost predicate Calls(c: Config, invalid: set<Task>, t: Task, e: Event, q: (Task, Event))
    requires t in c.tasks
  {
    q == (t, e) || exists p :: p in Marks(c, invalid, t, e) && Justifies(c, p, q)
  }

  ghost predicate FrameCalls(c: Config, invalid: set<Task>, f: Frame, q: (Task, Event))
    requires FrameOk(c, f)
  {
    exists j :: f.next <= j < |c.dependents[f.task]| && DependentCalls(c, invalid, f.task, j, q)
  }

  ghost predicate DependentCalls(c: Config, invalid: set<Task>, t: Task, j: nat, q: (Task, Event))
    requires t in c.dependents && j < |c.dependents[t]|
  {
    c.dependents[t][j] in c.tasks && Calls(c, invalid, c.dependents[t][j], DependencyChange(t), q)
  }

  /** The calls that a walk has yet to make. */
  ghost predicate StillCalls(c: Config, invalid: set<Task>, e: Event, k: Walk, q: (Task, Event))
    requires PathOk(c, k)
  {
    || (k.wanted.Some? && k.wanted.value in c.tasks && Calls(c, invalid, k.wanted.value, EventAt(k, e), q))
    || exists i :: 0 <= i < |k.held| && FrameCalls(c, invalid, k.held[i], q)
  }

  /** An accepting call goes on to all dependents, a rejecting one to none. */
  lemma CallsUnfold(c: Config, invalid: set<Task>, t: Task, e: Event, q: (Task, Event), f: Frame)
    requires t in c.tasks && f.task == t && FrameOk(c, f)
    requires f.next == if Takes(c, invalid, t, e) then 0 else |c.dependents[t]|
    ensures Calls(c, invalid, t, e, q) <==> q == (t, e) || FrameCalls(c, invalid, f, q)
  {
    hide WellFormed;
    Domains(c);
    if Takes(c, invalid, t, e) {
      if p :| p in Marks(c, invalid, t, e) && Justifies(c, p, q) {
        var u := if p == (t, e) then q.0 else FromDependent(c, invalid, t, e, p);
        var j :| 0 <= j < |c.dependents[t]| && c.dependents[t][j] == u;
        assert DependentCalls(c, invalid, t, j, q);
      }
      if FrameCalls(c, invalid, f, q) {
        var j :| 0 <= j < |c.dependents[t]| && DependentCalls(c, invalid, t, j, q);
        DependentIsCalled(c, invalid, t, e, j, q);
      }
    }
  }

  ghost function FromDependent(c: Config, invalid: set<Task>, t: Task, e: Event, p: (Task, Event)): (u: Task)
    requires t in c.tasks && p in Marks(c, invalid, t, e) && p != (t, e)
    ensures t in c.dependents && u in c.dependents[t] && u in c.tasks && p in Marks(c, invalid, u, DependencyChange(t))
  {
    Domains(c);
    var u :| u in c.dependents[t] && p in Marks(c, invalid, u, DependencyChange(t));
    u
  }

  lemma DependentIsCalled(c: Config, invalid: set<Task>, t: Task, e: Event, j: nat, q: (Task, Event))
    requires t in c.tasks && t in c.dependents && j < |c.dependents[t]| && Takes(c, invalid, t, e)
    requires DependentCalls(c, invalid, t, j, q)
    ensures Calls(c, invalid, t, e, q)
  {
    hide WellFormed;
    var u := c.dependents[t][j];
    assert u in c.dependents[t] && (t, e) in Marks(c, invalid, t, e);
    if q == (u, DependencyChange(t)) {
      assert Justifies(c, (t, e), q);
    } else {
      var p :| p in Marks(c, invalid, u, DependencyChange(t)) && Justifies(c, p, q);
      assert p in Marks(c, invalid, t, e);
    }
  }

  // ---------------------------------------------------------------------------------------------
  // One step

  lemma LockCalls(c: Config, invalid: set<Task>, e: Event, k: Walk, accepts: bool, q: (Task, Event))
    requires PathOk(c, k) && k.wanted.Some? && k.wanted.value in c.tasks && k.wanted.value in c.dependents
    requires accepts <==> Takes(c, invalid, CallAt(k, e).0, CallAt(k, e).1)
    requires PathOk(c, Locked(c, k, accepts))
    ensures StillCalls(c, invalid, e, k, q) <==> q == CallAt(k, e) || StillCalls(c, invalid, e, Locked(c, k, accepts), q)
  {
    hide WellFormed, Calls, FrameCalls, Takes;
    var t, k' := k.wanted.value, Locked(c, k, accepts);
    var f := k'.held[|k.held|];
    CallsUnfold(c, invalid, t, EventAt(k, e), q, f);
    assert forall i :: 0 <= i < |k.held| ==> k'.held[i] == k.held[i];
    if FrameCalls(c, invalid, f, q) { assert StillCalls(c, invalid, e, k', q); }
  }

  function Locked(c: Config, k: Walk, accepts: bool): Walk
    requires k.wanted.Some? && k.wanted.value in c.dependents
  {
    Walk(k.held + [Frame(k.wanted.value, if accepts then 0 else |c.dependents[k.wanted.value]|)], None)
  }

  lemma DescendCalls(c: Config, invalid: set<Task>, e: Event, k: Walk, k': Walk, q: (Task, Event))
    requires PathOk(c, k) && PathOk(c, k') && k.wanted.None? && k.held != []
    requires Last(k.held).next < |c.dependents[Last(k.held).task]|
    requires c.dependents[Last(k.held).task][Last(k.held).next] in c.tasks
    requires k' == Walk(Front(k.held) + [Last(k.held).(next := Last(k.held).next + 1)],
                        Some(c.dependents[Last(k.held).task][Last(k.held).next]))
    ensures StillCalls(c, invalid, e, k, q) <==> StillCalls(c, invalid, e, k', q)
  {
    hide WellFormed, Calls;
    var f, f' := Last(k.held), k'.held[|k.held| - 1];
    NextCalls(c, invalid, f, f', q);
    hide FrameCalls;
    assert forall i :: 0 <= i < |k.held| - 1 ==> k'.held[i] == k.held[i];
    assert k.held[|k.held| - 1] == f && EventAt(k', e) == DependencyChange(f.task);
  }

  lemma NextCalls(c: Config, invalid: set<Task>, f: Frame, f': Frame, q: (Task, Event))
    requires FrameOk(c, f) && FrameOk(c, f') && f.next < |c.dependents[f.task]| && f' == f.(next := f.next + 1)
    ensures FrameCalls(c, invalid, f, q) <==> DependentCalls(c, invalid, f.task, f.next, q) || FrameCalls(c, invalid, f', q)
  {
    hide WellFormed, DependentCalls;
  }

  lemma UnlockCalls(c: Config, invalid: set<Task>, e: Event, k: Walk, q: (Task, Event))
    requires PathOk(c, k) && k.wanted.None? && k.held != [] && Last(k.held).next == |c.dependents[Last(k.held).task]|
    ensures StillCalls(c, invalid, e, k, q)
       <==> |k.held| > 1 && PathOk(c, Walk(Front(k.held), None)) && StillCalls(c, invalid, e, Walk(Front(k.held), None), q)
  {
    hide WellFormed, DependentCalls;
    var front := Front(k.held);
    assert forall i :: 0 <= i < |front| ==> front[i] == k.held[i];
    assert !FrameCalls(c, invalid, k.held[|k.held| - 1], q);
    hide FrameCalls;
  }

  ghost predicate CallsAfter(c: Config, invalid: set<Task>, e: Event, s: Walks, w: Walker, q: (Task, Event))
    requires w in s.walks ==> PathOk(c, s.walks[w])
  {
    w in s.walks && StillCalls(c, invalid, e, s.walks[w], q)
  }

  /** Each step of the walk makes one of the calls left to it, or none, and leaves the others. */
  lemma OwnStepCalls(c: Config, invalid: set<Task>, e: Event, s: Walks, step: WalkStep, q: (Task, Event))
    requires WalksInv(c, s) && CanStep(c, s, step) && !step.Call? && step.w in s.walks && PathOk(c, s.walks[step.w])
    requires GoesByFilter(c, invalid, e, s, step, step.w)
    requires step.w in DoStep(c, s, step).walks ==> PathOk(c, DoStep(c, s, step).walks[step.w])
    ensures StillCalls(c, invalid, e, s.walks[step.w], q)
       <==> (step.Lock? && q == CallAt(s.walks[step.w], e)) || CallsAfter(c, invalid, e, DoStep(c, s, step), step.w, q)
  {
    hide WellFormed, StillCalls, PathOk, WalksInv, Takes;
    Domains(c);
    match step
    case Lock(w, accepts) => LockCalls(c, invalid, e, s.walks[w], accepts, q);
    case Descend(w) =>
      var f := Last(s.walks[w].held);
      assert c.dependents[f.task][f.next] in c.dependents[f.task];
      DescendCalls(c, invalid, e, s.walks[w], DoStep(c, s, step).walks[w], q);
    case Unlock(w) => UnlockCalls(c, invalid, e, s.walks[w], q);
  }

  // ---------------------------------------------------------------------------------------------
  // Whole walks

  lemma {:induction false} StepsMakeCalls(c: Config, invalid: set<Task>, e: Event, s: Walks, steps: seq<WalkStep>, w: Walker,
                                          q: (Task, Event))
    requires WalksInv(c, s) && AreSteps(c, s, steps) && GoByFilter(c, invalid, e, s, steps, w)
    requires forall i :: 0 <= i < |steps| && steps[i].w == w ==> !steps[i].Call?
    requires w !in AfterSteps(c, s, steps).walks
    requires w in s.walks ==> PathOk(c, s.walks[w])
    ensures Locks(c, e, s, steps, w, false, q) <==> w in s.walks && StillCalls(c, invalid, e, s.walks[w], q)
    ensures Locks(c, e, s, steps, w, true, q) <==> Locks(c, e, s, steps, w, false, q) && Takes(c, invalid, q.0, q.1)
    decreases |steps|
  {
    hide WellFormed, WalksInv, DoStep, PathOk, OwnerOk, StillCalls, Takes;
    if steps != [] {
      var s' := DoStep(c, s, steps[0]);
      StepWalks(c, s, steps[0]);
      if w in s'.walks { WalkerIsOk(c, s', w); }
      StepsMakeCalls(c, invalid, e, s', steps[1..], w, q);
      if steps[0].w == w {
        OwnStepCalls(c, invalid, e, s, steps[0], q);
      } else {
        OtherStepsKeep(c, s, steps[0], w);
      }
    }
  }

  /** A walk that sees the same invalid tasks throughout, from its call to its return, in whatever interleaving
      with other walks: it locks an execution for exactly the calls that the recursion makes, and accepts in
      exactly those that the recursion marks. */
  lemma WalkIsRecursion(c: Config, invalid: set<Task>, e: Event, s: Walks, steps: seq<WalkStep>, w: Walker, root: Task,
                        q: (Task, Event))
    requires WalksInv(c, s) && AreSteps(c, s, steps) && GoByFilter(c, invalid, e, s, steps, w)
    requires steps != [] && steps[0] == Call(w, root) && w !in AfterSteps(c, s, steps).walks && root in c.tasks
    requires forall i :: 0 < i < |steps| && steps[i].w == w ==> !steps[i].Call?
    ensures Locks(c, e, s, steps, w, false, q)
       <==> q == (root, e) || exists p :: p in Marks(c, invalid, root, e) && Justifies(c, p, q)
    ensures Locks(c, e, s, steps, w, true, q) <==> q in Marks(c, invalid, root, e)
  {
    hide WellFormed, WalksInv, PathOk, OwnerOk;
    var s' := DoStep(c, s, steps[0]);
    StepWalks(c, s, steps[0]);
    WalkerIsOk(c, s', w);
    StepsMakeCalls(c, invalid, e, s', steps[1..], w, q);
    assert StillCalls(c, invalid, e, s'.walks[w], q) <==> Calls(c, invalid, root, e, q);
    MarkedCalls(c, invalid, root, e, q);
  }

  lemma MarkedCalls(c: Config, invalid: set<Task>, t: Task, e: Event, q: (Task, Event))
    requires t in c.tasks
    ensures q in Marks(c, invalid, t, e) <==> Calls(c, invalid, t, e, q) && Takes(c, invalid, q.0, q.1)
  {
    hide WellFormed;
    WalkIsLeastFixpoint(c, invalid, t, e);
    if q in Marks(c, invalid, t, e) {
      MarksAreJustified(c, invalid, t, e, q);
    }
  }
}
