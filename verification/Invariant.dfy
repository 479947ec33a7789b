/** The invariant of the executor: terminal tokens, one live run per task, the context tree, the lock,
    the wait group and the run events. Every step that keeps to (a) and (b) preserves it. */
module Invariant {
  import opened Tasks
  import opened Machine

  /** A run that has not written its outcome yet. */
  predicate Busy(ph: Phase) {
    ph.Spawned? || ph.Body? || ph.Decided?
  }

  /** A run that has not sent its terminal token yet. */
  predicate Live(ph: Phase) {
    Busy(ph) || ph.Flushing?
  }

  /** The phase of the latest run of `t`, as long as it is live. */
  function Current(s: State, t: Task): Option<Phase>
    requires t in s.exec
  {
    var n := s.exec[t].starts;
    if n > 0 && RunOf(t, n - 1) in s.threads && Live(s.threads[RunOf(t, n - 1)])
    then Some(s.threads[RunOf(t, n - 1)]) else None
  }

  /** `t` is between the two halves of taskExecution.invalidate. */
  predicate InReset(s: State, t: Task) {
    s.lock.Resetter? && s.lock.task == t
  }

  /** One token: in the channel, or owed by the live run. */
  predicate OneToken(x: Execution, cur: Option<Phase>) {
    if cur.Some? then x.terminal == 0 else x.terminal == 1
  }

  /** A run whose task was reset: it stops, or it ended before. */
  predicate Stopping(ph: Phase, cancelled: set<Ctx>) {
    match ph
    case Body(ctx) => ctx in cancelled
    case Decided(outcome, _) => outcome == Stop
    case Flushing(_) => true
    case _ => false
  }

  predicate TaskOk(x: Execution, cur: Option<Phase>, inReset: bool, cancelled: set<Ctx>) {
    match x.state
    case Invalid =>
      && x.starts == x.resets
      && (inReset ==> OneToken(x, cur) && (cur.Some? ==> Stopping(cur.value, cancelled)))
      && (!inReset ==> cur.None? && x.terminal == 0 && x.pending == {})
    case Running =>
      && !inReset && x.starts == x.resets + 1 && x.terminal == 0
      && cur.Some? && Busy(cur.value)
      && (cur.value.Body? ==> cur.value.ctx == x.ctx)
      && (cur.value.Decided? && cur.value.outcome == Stop ==> Root in cancelled)
    case Canceled =>
      && Root in cancelled && (cur.Some? ==> cur.value.Flushing?)
      && (inReset ==> x.starts == x.resets && OneToken(x, cur))
      && (!inReset && x.starts == x.resets + 1 ==> OneToken(x, cur))
      && (!inReset && x.starts != x.resets + 1 ==> x.starts == x.resets && cur.None? && x.terminal == 0)
    case _ =>
      && !inReset && x.starts == x.resets + 1 && OneToken(x, cur)
      && (cur.Some? ==> cur.value.Flushing?)
  }

  /** Started and end events alternate, and only a live run can lack its events. */
  predicate TraceOk(x: Execution, cur: Option<Phase>) {
    && (forall i :: 0 <= i < |x.trace| ==> (x.trace[i] == Started <==> i % 2 == 0))
    && |x.trace| == 2 * x.starts - (match cur
                                    case Some(Spawned) => 2
                                    case Some(Body(_)) => 1
                                    case Some(Decided(_, _)) => 1
                                    case _ => 0)
  }

  predicate CtxOk(c: Config, t: Task, x: Execution)
    requires t in c.tasks
  {
    x.ctx == if x.resets == 0 then c.origin[t] else Child(Root, t, x.resets)
  }

  /** While `t` is on its first context and not done, every task further up that chain never ran. */
  ghost predicate ChainOk(c: Config, s: State, t: Task)
    requires s.exec.Keys == c.tasks && t in c.tasks
  {
    assert OriginOk(c, t);
    s.exec[t].resets == 0 && s.exec[t].state != Done ==>
      forall a :: a in Owners(c.origin[t].parent) ==> s.exec[a].starts == 0 && s.exec[a].state == Invalid
  }

  ghost predicate Good(c: Config, s: State, t: Task)
    requires s.exec.Keys == c.tasks && t in c.tasks
  {
    && TaskOk(s.exec[t], Current(s, t), InReset(s, t), s.cancelled)
    && TraceOk(s.exec[t], Current(s, t))
    && CtxOk(c, t, s.exec[t])
  }

  ghost predicate TasksOk(c: Config, s: State)
    requires s.exec.Keys == c.tasks
  {
    forall t {:trigger Good(c, s, t)} :: t in c.tasks ==> Good(c, s, t)
  }

  ghost predicate ChainsOk(c: Config, s: State)
    requires s.exec.Keys == c.tasks
  {
    forall t {:trigger ChainOk(c, s, t)} :: t in c.tasks ==> ChainOk(c, s, t)
  }

  /** Besides the root, only contexts that were reset are ever cancelled by themselves. */
  ghost predicate CancelledOk(s: State) {
    forall x :: x in s.cancelled && x.Child? ==> x.owner in s.exec && x.gen < s.exec[x.owner].resets
  }

  predicate PhaseOk(th: ThreadId, ph: Phase) {
    match th
    case Main => ph.CheckPass? || ph.AwaitPass? || ph.Passing? || ph.Waiting? || ph.Returned?
    case Loop => ph.Selecting? || ph.AwaitPlan? || ph.Planning? || ph.LoopExited?
    case Sender(_) => ph.Signalling?
    case Worker(_) => ph.CheckPass? || ph.AwaitPass? || ph.Passing?
    case RunOf(_, _) => !ph.Waiting? && !ph.Returned? && !ph.Selecting? && !ph.LoopExited?
  }

  predicate ThreadOk(s: State, th: ThreadId)
    requires th in s.threads
  {
    && PhaseOk(th, s.threads[th])
    && match th
       case Sender(n) => n < s.nextId
       case Worker(n) => n < s.nextId
       case RunOf(t, n) =>
         t in s.exec && n < s.exec[t].starts && (Live(s.threads[th]) ==> n == s.exec[t].starts - 1)
       case _ => true
  }

  ghost predicate ThreadsOk(s: State) {
    && Main in s.threads && Loop in s.threads
    && forall th {:trigger ThreadOk(s, th)} :: th in s.threads ==> ThreadOk(s, th)
  }

  predicate HoldsLock(ph: Phase) {
    ph.Planning? || ph.Passing?
  }

  predicate HoldsRightly(s: State, th: ThreadId)
    requires th in s.threads
  {
    && (s.threads[th] == Planning <==> (s.lock.Planner? || s.lock.Resetter?) && s.lock.holder == th)
    && (s.threads[th] == Passing <==> s.lock.Passer? && s.lock.holder == th)
  }

  /** The lock's holder is where the lock says it is, and no other thread believes to hold it. */
  ghost predicate LockOk(c: Config, s: State) {
    && (s.lock != Free ==> s.lock.holder in s.threads)
    && (forall th {:trigger HoldsRightly(s, th)} :: th in s.threads ==> HoldsRightly(s, th))
    && LockInBounds(c, s.lock)
  }

  predicate LockInBounds(c: Config, lock: Lock) {
    match lock
    case Free => true
    case Planner(_, todo) => todo <= c.tasks
    case Resetter(_, t, todo) => t in c.tasks && todo <= c.tasks - {t}
    case Passer(_, unvisited) => unvisited <= c.tasks
  }

  function RunIds(threads: map<ThreadId, Phase>): set<ThreadId> {
    set th | th in threads && th.RunOf?
  }

  ghost predicate Inv(c: Config, s: State) {
    && s.exec.Keys == c.tasks
    && TasksOk(c, s)
    && ChainsOk(c, s)
    && CancelledOk(s)
    && ThreadsOk(s)
    && LockOk(c, s)
    && s.running == |RunIds(s.threads)|
  }

  lemma ThreadAt(c: Config, s: State, th: ThreadId)
    requires Inv(c, s) && th in s.threads
    ensures ThreadOk(s, th) && HoldsRightly(s, th)
  {
    hide WellFormed, TasksOk, ChainsOk, CancelledOk;
  }

  lemma InvKeys(c: Config, s: State)
    requires Inv(c, s)
    ensures s.exec.Keys == c.tasks
  {
    hide WellFormed, TasksOk, ChainsOk, CancelledOk, ThreadsOk, LockOk;
  }

  lemma TaskAt(c: Config, s: State, t: Task)
    requires Inv(c, s) && t in c.tasks
    ensures Good(c, s, t)
  {
    hide WellFormed, ThreadsOk, ChainsOk, CancelledOk, LockOk;
  }

  /** Only the lock's holder makes a pass. */
  lemma PassersHold(c: Config, s: State)
    requires Inv(c, s)
    ensures forall u :: u in s.threads && s.threads[u] == Passing ==> s.lock.Passer? && s.lock.holder == u
  {
    hide WellFormed, TasksOk, ChainsOk, CancelledOk;
    forall u | u in s.threads && s.threads[u] == Passing ensures s.lock.Passer? && s.lock.holder == u {
      assert HoldsRightly(s, u);
    }
  }

  lemma BelowShrinks(c: Config, t: Task, d: Task)
    requires t in c.tasks && d in c.below[t]
    ensures d in c.tasks && c.below[d] < c.below[t] && |c.below[d]| < |c.below[t]|
  {
    assert DepOk(c, t, d);
    BelowIsInside(c, d);
    SmallerSubset(c.below[d], c.below[t], d);
  }

  lemma SmallerSubset(a: set<Task>, b: set<Task>, d: Task)
    requires a <= b && d in b && d !in a
    ensures a < b && |a| < |b|
  {
    assert b == a + (b - a);
  }

  lemma InitInv(c: Config)
    ensures Inv(c, Init(c))
  {
    assert RunIds(Init(c).threads) == {};
  }

  // ---------------------------------------------------------------------------------------------
  // Contexts

  lemma {:induction false} NothingCancelled(ctx: Ctx)
    ensures !Cancelled(ctx, {})
  {
    if ctx.Child? { NothingCancelled(ctx.parent); }
  }

  /** A chain with no cancelled context on it is not cancelled. */
  lemma {:induction false} ChainAlive(ctx: Ctx, cancelled: set<Ctx>, resets: map<Task, nat>)
    requires Root !in cancelled && Original(ctx)
    requires forall x :: x in cancelled && x.Child? ==> x.owner in resets && x.gen < resets[x.owner]
    requires forall a :: a in Owners(ctx) ==> a in resets && resets[a] == 0
    ensures !Cancelled(ctx, cancelled)
  {
    if ctx.Child? {
      assert ctx.owner in Owners(ctx);
      ChainAlive(ctx.parent, cancelled, resets);
    }
  }

  /** The context of a task is its own, numbered by the resets it had. */
  lemma CtxIsOwn(c: Config, s: State, t: Task)
    requires s.exec.Keys == c.tasks && t in c.tasks && Good(c, s, t)
    ensures s.exec[t].ctx.Child? && s.exec[t].ctx.owner == t && s.exec[t].ctx.gen == s.exec[t].resets
  {
    assert OriginOk(c, t);
  }

  /** The context of a task that is not done is cancelled only by a shutdown. */
  lemma OwnContextAlive(c: Config, s: State, t: Task)
    requires Inv(c, s) && t in c.tasks && s.exec[t].state != Done && Root !in s.cancelled
    ensures !Cancelled(s.exec[t].ctx, s.cancelled)
  {
    var x := s.exec[t];
    assert Good(c, s, t) && OriginOk(c, t);
    assert x.ctx !in s.cancelled;
    if x.resets == 0 {
      assert ChainOk(c, s, t);
      var resets := map a | a in c.tasks :: s.exec[a].resets;
      forall a | a in Owners(c.origin[t].parent) ensures a in resets && resets[a] == 0 {
        assert Good(c, s, a);
      }
      ChainAlive(c.origin[t].parent, s.cancelled, resets);
    }
  }

  // ---------------------------------------------------------------------------------------------
  // Frames

  /** Another thread's step changes nothing about `t`, except that more contexts may be cancelled. */
  lemma GoodFrame(c: Config, s: State, s': State, t: Task)
    requires s.exec.Keys == c.tasks == s'.exec.Keys && t in c.tasks && Good(c, s, t)
    requires s'.exec[t] == s.exec[t] && Current(s', t) == Current(s, t) && InReset(s', t) == InReset(s, t)
    requires s.cancelled <= s'.cancelled
    ensures Good(c, s', t)
  {}

  lemma ChainsFrame(c: Config, s: State, s': State)
    requires s.exec.Keys == c.tasks == s'.exec.Keys && ChainsOk(c, s)
    requires forall t :: t in c.tasks ==>
      && s'.exec[t].starts == s.exec[t].starts && s'.exec[t].resets >= s.exec[t].resets
      && (s.exec[t].state == Done ==> s'.exec[t].state == Done || s'.exec[t].resets > 0)
      && (s.exec[t].starts == 0 ==> s'.exec[t].state == s.exec[t].state)
    ensures ChainsOk(c, s')
  {
    forall t | t in c.tasks ensures ChainOk(c, s', t) {
      assert ChainOk(c, s, t) && OriginOk(c, t);
    }
  }

  lemma RunAdded(threads: map<ThreadId, Phase>, th: ThreadId, ph: Phase)
    ensures |RunIds(threads[th := ph])| == |RunIds(threads)| + if th.RunOf? && th !in threads then 1 else 0
  {
    assert RunIds(threads[th := ph]) == RunIds(threads) + if th.RunOf? then {th} else {};
    if th.RunOf? && th in threads {
      assert th in RunIds(threads);
      assert RunIds(threads) + {th} == RunIds(threads);
    }
  }

  lemma RunRemoved(threads: map<ThreadId, Phase>, th: ThreadId)
    requires th in threads
    ensures |RunIds(threads - {th})| == |RunIds(threads)| - if th.RunOf? then 1 else 0
  {
    assert RunIds(threads - {th}) == RunIds(threads) - {th};
    assert th.RunOf? ==> th in RunIds(threads);
  }

  /** Threads other than `th` are where they were. */
  ghost predicate OthersStay(s: State, s': State, th: ThreadId) {
    && (forall u :: u != th ==> (u in s.threads <==> u in s'.threads))
    && (forall u :: u != th && u in s.threads ==> s'.threads[u] == s.threads[u])
  }

  predicate NotLiveAt(s: State, th: ThreadId) {
    th in s.threads && th.RunOf? ==> !Live(s.threads[th])
  }

  /** A step of `th` that touches no execution, with `th` live neither before nor after. */
  lemma TasksFrame(c: Config, s: State, s': State, th: ThreadId)
    requires s.exec.Keys == c.tasks && TasksOk(c, s) && ChainsOk(c, s)
    requires s'.exec == s.exec && s.cancelled == s'.cancelled
    requires s.lock.Resetter? || s'.lock.Resetter? ==> s.lock == s'.lock
    requires OthersStay(s, s', th) && NotLiveAt(s, th) && NotLiveAt(s', th)
    ensures TasksOk(c, s') && ChainsOk(c, s')
  {
    hide WellFormed;
    forall t | t in c.tasks ensures Good(c, s', t) && ChainOk(c, s', t) {
      assert Good(c, s, t) && ChainOk(c, s, t);
      GoodFrame(c, s, s', t);
    }
  }

  /** A step of `th` on the execution of `k` alone, given that `k` is still in order afterwards. */
  lemma TouchFrame(c: Config, s: State, s': State, th: ThreadId, k: Task)
    requires s.exec.Keys == c.tasks == s'.exec.Keys && TasksOk(c, s) && k in c.tasks
    requires s'.exec == s.exec[k := s'.exec[k]] && s.cancelled <= s'.cancelled
    requires OthersStay(s, s', th)
    requires (th.RunOf? && th.task == k) || (NotLiveAt(s, th) && NotLiveAt(s', th))
    requires forall t :: t != k ==> (InReset(s, t) <==> InReset(s', t))
    requires Good(c, s', k)
    ensures TasksOk(c, s')
  {
    hide WellFormed;
    forall t | t in c.tasks ensures Good(c, s', t) {
      if t != k {
        assert Good(c, s, t);
        GoodFrame(c, s, s', t);
      }
    }
  }

  /** The thread invariants carry over to the threads that stay. */
  lemma ThreadsFrame(s: State, s': State, th: ThreadId)
    requires ThreadsOk(s) && OthersStay(s, s', th) && s'.nextId >= s.nextId
    requires forall t :: t in s.exec ==> t in s'.exec && s'.exec[t].starts == s.exec[t].starts
    requires th in s'.threads ==> ThreadOk(s', th)
    requires th == Main || th == Loop ==> th in s'.threads
    ensures ThreadsOk(s')
  {
    forall u | u in s'.threads ensures ThreadOk(s', u) {
      if u != th { assert ThreadOk(s, u); }
    }
  }

  /** Only `th` takes the lock, holds it or gives it back. */
  predicate LockMoves(c: Config, s: State, s': State, th: ThreadId) {
    || s.lock == s'.lock
    || ((s.lock == Free || s.lock.holder == th) && (s'.lock == Free || s'.lock.holder == th)
        && LockInBounds(c, s'.lock))
  }

  lemma LockFrame(c: Config, s: State, s': State, th: ThreadId)
    requires LockOk(c, s) && OthersStay(s, s', th)
    requires th in s'.threads ==> HoldsRightly(s', th)
    requires s'.lock != Free && s'.lock.holder == th ==> th in s'.threads
    requires LockMoves(c, s, s', th)
    ensures LockOk(c, s')
  {
    hide WellFormed;
    forall u | u in s'.threads ensures HoldsRightly(s', u) {
      if u != th { assert HoldsRightly(s, u); }
    }
  }

  /** A thread that is not live moves to a phase that is not live; it may take or give back the lock. */
  lemma MoveInv(c: Config, s: State, s': State, th: ThreadId, ph: Phase)
    requires Inv(c, s) && th in s.threads
    requires s' == s.(threads := s.threads[th := ph], signal := s'.signal, timer := s'.timer, lock := s'.lock)
    requires !Live(s.threads[th]) && !Live(ph) && PhaseOk(th, ph) && HoldsRightly(s', th)
    requires LockMoves(c, s, s', th) && (s.lock.Resetter? || s'.lock.Resetter? ==> s.lock == s'.lock)
    ensures Inv(c, s')
  {
    hide WellFormed;
    TasksFrame(c, s, s', th);
    assert ThreadOk(s, th);
    ThreadsFrame(s, s', th);
    LockFrame(c, s, s', th);
    RunAdded(s.threads, th, ph);
  }

  /** A thread that is not live and does not hold the lock ends. */
  lemma EndInv(c: Config, s: State, s': State, th: ThreadId)
    requires Inv(c, s) && th in s.threads && th != Main && th != Loop
    requires !Live(s.threads[th]) && !HoldsLock(s.threads[th])
    requires s' == s.(threads := s.threads - {th}, signal := s'.signal, running := s'.running)
    requires s'.running == if th.RunOf? && s.running > 0 then s.running - 1 else s.running
    ensures Inv(c, s')
  {
    hide WellFormed;
    assert HoldsRightly(s, th);
    TasksFrame(c, s, s', th);
    ThreadsFrame(s, s', th);
    LockFrame(c, s, s', th);
    RunRemoved(s.threads, th);
  }

  lemma IdsAreFresh(s: State)
    requires ThreadsOk(s)
    ensures Sender(s.nextId) !in s.threads && Worker(s.nextId) !in s.threads
  {
    forall u | u in s.threads ensures u != Sender(s.nextId) && u != Worker(s.nextId) {
      assert ThreadOk(s, u);
    }
  }

  /** A new caller of Executor.Invalidate, or a new worker. */
  lemma SpawnInv(c: Config, s: State, s': State, th: ThreadId, ph: Phase)
    requires Inv(c, s) && (th == Sender(s.nextId) || th == Worker(s.nextId))
    requires s' == s.(threads := s.threads[th := ph], nextId := s.nextId + 1)
    requires !Live(ph) && PhaseOk(th, ph) && !HoldsLock(ph)
    ensures Inv(c, s')
  {
    hide WellFormed;
    IdsAreFresh(s);
    TasksFrame(c, s, s', th);
    ThreadsFrame(s, s', th);
    LockFrame(c, s, s', th);
    RunAdded(s.threads, th, ph);
  }
}
