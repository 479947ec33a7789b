/** The locks of concurrent Invalidate walks. A walk holds the lock of every execution on its path and may
    wait for that of a dependent of the last one; the walks never block each other for good, and each ends. */
module WalkLocks {
  import opened Tasks
  import opened Machine

  type Walker = nat

  /** A call in progress: its execution, and how many of the dependents its loop has gone to. */
  datatype Frame = Frame(task: Task, next: nat)

  /** `held` has the calls whose locks the walk holds, from its root down; `wanted` is the execution whose
      lock it asked for and does not have yet. */
  datatype Walk = Walk(held: seq<Frame>, wanted: Option<Task>)

  /** `owner` has the walker that holds each taken lock. */
  datatype Walks = Walks(walks: map<Walker, Walk>, owner: map<Task, Walker>)

  /** `accepts` says whether the call goes on to its loop or returns at once. */
  datatype WalkStep =
    | Call(w: Walker, root: Task)
    | Lock(w: Walker, accepts: bool)
    | Descend(w: Walker)
    | Unlock(w: Walker)

  predicate CanStep(c: Config, s: Walks, step: WalkStep) {
    match step
    case Call(w, root) => w !in s.walks && root in c.tasks
    case Lock(w, _) =>
      w in s.walks && s.walks[w].wanted.Some? && s.walks[w].wanted.value in c.dependents && s.walks[w].wanted.value !in s.owner
    case Descend(w) => InLoop(c, s, w) && Last(s.walks[w].held).next < |c.dependents[Last(s.walks[w].held).task]|
    case Unlock(w) => InLoop(c, s, w) && Last(s.walks[w].held).next == |c.dependents[Last(s.walks[w].held).task]|
  }

  predicate InLoop(c: Config, s: Walks, w: Walker) {
    && w in s.walks && s.walks[w].wanted.None? && s.walks[w].held != []
    && Last(s.walks[w].held).task in c.dependents
  }

  function Last(path: seq<Frame>): Frame
    requires path != []
  {
    path[|path| - 1]
  }

  function Front(path: seq<Frame>): seq<Frame>
    requires path != []
  {
    path[..|path| - 1]
  }

  /** A returning call releases its lock; the walk is over when its root call returns. */
  function DoStep(c: Config, s: Walks, step: WalkStep): Walks
    requires CanStep(c, s, step)
  {
    match step
    case Call(w, root) => s.(walks := s.walks[w := Walk([], Some(root))])
    case Lock(w, accepts) =>
      var t := s.walks[w].wanted.value;
      var f := Frame(t, if accepts then 0 else |c.dependents[t]|);
      Walks(s.walks[w := Walk(s.walks[w].held + [f], None)], s.owner[t := w])
    case Descend(w) =>
      var held := s.walks[w].held;
      var f := Last(held);
      s.(walks := s.walks[w := Walk(Front(held) + [f.(next := f.next + 1)], Some(c.dependents[f.task][f.next]))])
    case Unlock(w) =>
      var held := s.walks[w].held;
      Walks(if |held| == 1 then s.walks - {w} else s.walks[w := Walk(Front(held), None)],
            s.owner - {Last(held).task})
  }

  predicate FrameOk(c: Config, f: Frame) {
    f.task in c.dependents && f.task in c.height && f.next <= |c.dependents[f.task]|
  }

  /** The held locks are the walker's own, each of a dependent of the one before; so is the wanted one. */
  ghost predicate WalkOk(c: Config, s: Walks, w: Walker)
    requires w in s.walks
  {
    PathOk(c, s.walks[w]) && forall i :: 0 <= i < |s.walks[w].held| ==>
      s.walks[w].held[i].task in s.owner && s.owner[s.walks[w].held[i].task] == w
  }

  ghost predicate PathOk(c: Config, k: Walk) {
    && (k.held == [] ==> k.wanted.Some?)
    && (forall i :: 0 <= i < |k.held| ==> FrameOk(c, k.held[i]))
    && (forall i, j :: 0 <= i < j < |k.held| ==> c.height[k.held[j].task] < c.height[k.held[i].task])
    && (k.wanted.Some? ==> FrameOk(c, Frame(k.wanted.value, 0)))
    && (k.wanted.Some? ==> forall i :: 0 <= i < |k.held| ==> c.height[k.wanted.value] < c.height[k.held[i].task])
  }

  predicate Holds(k: Walk, t: Task) {
    exists i :: 0 <= i < |k.held| && k.held[i].task == t
  }

  /** Every taken lock is on the path of its owner. */
  ghost predicate OwnerOk(s: Walks, t: Task)
    requires t in s.owner
  {
    s.owner[t] in s.walks && Holds(s.walks[s.owner[t]], t)
  }

  ghost predicate WalksInv(c: Config, s: Walks) {
    && (forall w {:trigger WalkOk(c, s, w)} :: w in s.walks ==> WalkOk(c, s, w))
    && (forall t {:trigger OwnerOk(s, t)} :: t in s.owner ==> OwnerOk(s, t))
  }

  /** A step of `w` leaves the other walks in order: it takes a free lock or gives back one of its own. */
  lemma OtherWalks(c: Config, s: Walks, s': Walks, w: Walker)
    requires WalksInv(c, s)
    requires forall v :: v != w ==> (v in s.walks <==> v in s'.walks)
    requires forall v :: v != w && v in s.walks ==> s'.walks[v] == s.walks[v]
    requires forall t :: t in s.owner && s.owner[t] != w ==> t in s'.owner && s'.owner[t] == s.owner[t]
    ensures forall v :: v != w && v in s'.walks ==> WalkOk(c, s', v)
  {
    hide WellFormed, PathOk;
    forall v | v != w && v in s'.walks ensures WalkOk(c, s', v) {
      assert WalkOk(c, s, v);
    }
  }

  lemma LockedPath(c: Config, k: Walk, f: Frame)
    requires PathOk(c, k) && k.wanted == Some(f.task) && FrameOk(c, f)
    ensures PathOk(c, Walk(k.held + [f], None))
  {
    hide WellFormed;
  }

  lemma DescendedPath(c: Config, k: Walk, f: Frame)
    requires PathOk(c, k) && k.held != [] && f == Last(k.held) && f.next < |c.dependents[f.task]|
    ensures PathOk(c, Walk(Front(k.held) + [f.(next := f.next + 1)], Some(c.dependents[f.task][f.next])))
  {
    hide WellFormed;
    var u, held := c.dependents[f.task][f.next], Front(k.held) + [f.(next := f.next + 1)];
    Domains(c);
    assert u in c.dependents[f.task];
    forall i | 0 <= i < |held| ensures held[i].task == k.held[i].task && FrameOk(c, held[i]) {
      assert FrameOk(c, k.held[i]);
    }
    forall i | 0 <= i < |held| ensures c.height[u] < c.height[held[i].task] {}
  }

  lemma UnlockedPath(c: Config, k: Walk)
    requires PathOk(c, k) && |k.held| > 1
    ensures PathOk(c, Walk(Front(k.held), None))
  {
    hide WellFormed;
  }

  lemma OwnWalk(c: Config, s: Walks, step: WalkStep)
    requires CanStep(c, s, step) && step.w in DoStep(c, s, step).walks
    requires step.w in s.walks ==> WalkOk(c, s, step.w)
    ensures WalkOk(c, DoStep(c, s, step), step.w)
  {
    hide WellFormed, PathOk;
    OwnPath(c, s, step);
    if step.Unlock? { UnlockKeepsOthers(c, s, step.w); }
  }

  lemma UnlockKeepsOthers(c: Config, s: Walks, w: Walker)
    requires w in s.walks && PathOk(c, s.walks[w]) && s.walks[w].held != []
    ensures forall i :: 0 <= i < |s.walks[w].held| - 1 ==> s.walks[w].held[i].task != Last(s.walks[w].held).task
  {
    hide WellFormed;
    var held := s.walks[w].held;
    assert FrameOk(c, held[|held| - 1]);
  }

  lemma OwnPath(c: Config, s: Walks, step: WalkStep)
    requires CanStep(c, s, step) && step.w in DoStep(c, s, step).walks
    requires step.w in s.walks ==> PathOk(c, s.walks[step.w])
    ensures PathOk(c, DoStep(c, s, step).walks[step.w])
  {
    hide WellFormed, PathOk;
    match step
    case Call(_, root) => CalledPath(c, root);
    case Lock(w, accepts) =>
      var t := s.walks[w].wanted.value;
      WantedIsOk(c, s.walks[w]);
      LockedPath(c, s.walks[w], Frame(t, if accepts then 0 else |c.dependents[t]|));
    case Descend(w) => DescendedPath(c, s.walks[w], Last(s.walks[w].held));
    case Unlock(w) => UnlockedPath(c, s.walks[w]);
  }

  lemma WantedIsOk(c: Config, k: Walk)
    requires PathOk(c, k) && k.wanted.Some?
    ensures FrameOk(c, Frame(k.wanted.value, 0))
  {
    hide WellFormed;
  }

  lemma CalledPath(c: Config, root: Task)
    requires root in c.tasks
    ensures PathOk(c, Walk([], Some(root)))
  {
    hide WellFormed;
    Domains(c);
  }

  lemma StepOwners(c: Config, s: Walks, step: WalkStep)
    requires WalksInv(c, s) && CanStep(c, s, step)
    ensures forall t :: t in DoStep(c, s, step).owner ==> OwnerOk(DoStep(c, s, step), t)
  {
    hide WellFormed, WalkOk, PathOk, Holds;
    var s' := DoStep(c, s, step);
    forall t | t in s'.owner ensures OwnerOk(s', t) {
      if t in s.owner { assert OwnerOk(s, t); }
      if t in s.owner && s.owner[t] == step.w {
        StillHeld(c, s, step, t);
      } else if step.Lock? && t == s.walks[step.w].wanted.value {
        NowHeld(s.walks[step.w].held, Last(s'.walks[step.w].held));
      }
    }
  }

  lemma NowHeld(held: seq<Frame>, f: Frame)
    ensures Holds(Walk(held + [f], None), f.task)
  {
    assert (held + [f])[|held|] == f;
  }

  /** The walker still holds what it held, but for the lock that it gives back. */
  lemma StillHeld(c: Config, s: Walks, step: WalkStep, t: Task)
    requires CanStep(c, s, step) && step.w in s.walks && Holds(s.walks[step.w], t)
    requires step.Unlock? ==> t != Last(s.walks[step.w].held).task
    ensures step.w in DoStep(c, s, step).walks && Holds(DoStep(c, s, step).walks[step.w], t)
  {
    hide WellFormed;
    var held := s.walks[step.w].held;
    var i :| 0 <= i < |held| && held[i].task == t;
    assert DoStep(c, s, step).walks[step.w].held[i].task == t;
  }

  lemma StepWalks(c: Config, s: Walks, step: WalkStep)
    requires WalksInv(c, s) && CanStep(c, s, step)
    ensures WalksInv(c, DoStep(c, s, step))
  {
    hide WellFormed, OwnerOk, PathOk;
    var s', w := DoStep(c, s, step), step.w;
    StepOwners(c, s, step);
    assert w in s.walks ==> WalkOk(c, s, w);
    OtherWalks(c, s, s', w);
    if w in s'.walks { OwnWalk(c, s, step); }
  }

  ghost predicate AreSteps(c: Config, s: Walks, steps: seq<WalkStep>)
    decreases |steps|
  {
    steps != [] ==> CanStep(c, s, steps[0]) && AreSteps(c, DoStep(c, s, steps[0]), steps[1..])
  }

  ghost function AfterSteps(c: Config, s: Walks, steps: seq<WalkStep>): Walks
    requires AreSteps(c, s, steps)
    decreases |steps|
  {
    if steps == [] then s else AfterSteps(c, DoStep(c, s, steps[0]), steps[1..])
  }

  lemma {:induction false} StepsWalks(c: Config, s: Walks, steps: seq<WalkStep>)
    requires WalksInv(c, s) && AreSteps(c, s, steps)
    ensures WalksInv(c, AfterSteps(c, s, steps))
    decreases |steps|
  {
    hide WellFormed, WalksInv, CanStep, DoStep;
    if steps != [] {
      StepWalks(c, s, steps[0]);
      StepsWalks(c, DoStep(c, s, steps[0]), steps[1..]);
    }
  }

  // ---------------------------------------------------------------------------------------------
  // No deadlock

  predicate Blocked(s: Walks, w: Walker) {
    w in s.walks && s.walks[w].wanted.Some? && s.walks[w].wanted.value in s.owner
  }

  /** If `w` waits for a lock of a walker that waits itself, that one waits for a task further down. So no
      walk waits for itself, not even through a diamond, and no cycle of waits exists. */
  lemma WaitsGoDown(c: Config, s: Walks, w: Walker, v: Walker)
    requires WalksInv(c, s) && Blocked(s, w) && v == s.owner[s.walks[w].wanted.value] && Blocked(s, v)
    ensures s.walks[v].wanted.value in c.height && s.walks[w].wanted.value in c.height
    ensures c.height[s.walks[v].wanted.value] < c.height[s.walks[w].wanted.value]
    ensures v != w
  {
    hide WellFormed;
    assert OwnerOk(s, s.walks[w].wanted.value);
    assert WalkOk(c, s, v) && WalkOk(c, s, w);
  }

  /** Following the chain of waits from a blocked walker leads to one that is not blocked. */
  lemma {:induction false} UnblockedBehind(c: Config, s: Walks, w: Walker) returns (v: Walker)
    requires WalksInv(c, s) && Blocked(s, w)
    ensures v in s.walks && !Blocked(s, v)
    decreases if s.walks[w].wanted.value in c.height then c.height[s.walks[w].wanted.value] else 0
  {
    hide WellFormed, PathOk;
    v := s.owner[s.walks[w].wanted.value];
    assert OwnerOk(s, s.walks[w].wanted.value);
    if Blocked(s, v) {
      WaitsGoDown(c, s, w, v);
      v := UnblockedBehind(c, s, v);
    }
  }

  /** In whatever interleaving of walks, as long as one is under way, one of them can go on. */
  lemma WalksNeverDeadlock(c: Config, steps: seq<WalkStep>, w: Walker) returns (step: WalkStep)
    requires AreSteps(c, Walks(map[], map[]), steps)
    requires w in AfterSteps(c, Walks(map[], map[]), steps).walks
    ensures !step.Call? && CanStep(c, AfterSteps(c, Walks(map[], map[]), steps), step)
  {
    hide WellFormed, AreSteps, AfterSteps, WalksInv;
    assert WalksInv(c, Walks(map[], map[])) by { NoWalks(c); }
    StepsWalks(c, Walks(map[], map[]), steps);
    step := SomeStep(c, AfterSteps(c, Walks(map[], map[]), steps), w);
  }

  lemma NoWalks(c: Config)
    ensures WalksInv(c, Walks(map[], map[]))
  {}

  lemma SomeStep(c: Config, s: Walks, w: Walker) returns (step: WalkStep)
    requires WalksInv(c, s) && w in s.walks
    ensures !step.Call? && CanStep(c, s, step)
  {
    hide WellFormed, OwnerOk;
    var v := w;
    if Blocked(s, w) { v := UnblockedBehind(c, s, w); }
    assert WalkOk(c, s, v);
    if s.walks[v].wanted.Some? {
      step := Lock(v, true);
    } else {
      var f := Last(s.walks[v].held);
      assert FrameOk(c, f);
      step := if f.next < |c.dependents[f.task]| then Descend(v) else Unlock(v);
    }
  }

  // ---------------------------------------------------------------------------------------------
  // Every walk ends

  /** The steps left to a call of `t` whose loop has gone to `i` dependents: for each of the others a descent
      and a call of it, and at the end the release. */
  function CallLeft(c: Config, t: Task, i: nat): nat
    requires t in c.dependents && t in c.height && i <= |c.dependents[t]|
    decreases c.height[t], |c.dependents[t]| - i
  {
    Domains(c);
    if i == |c.dependents[t]| then 1
    else
      assert c.dependents[t][i] in c.dependents[t];
      2 + CallLeft(c, c.dependents[t][i], 0) + CallLeft(c, t, i + 1)
  }

  function FrameLeft(c: Config, f: Frame): nat {
    if FrameOk(c, f) then CallLeft(c, f.task, f.next) else 0
  }

  function PathLeft(c: Config, held: seq<Frame>): nat {
    if held == [] then 0 else PathLeft(c, Front(held)) + FrameLeft(c, Last(held))
  }

  /** The steps left to a walk, the lock it wants included. */
  function WalkLeft(c: Config, k: Walk): nat {
    PathLeft(c, k.held) + if k.wanted.Some? then 1 + FrameLeft(c, Frame(k.wanted.value, 0)) else 0
  }

  function StepsOf(steps: seq<WalkStep>, w: Walker): nat {
    if steps == [] then 0 else (if steps[0].w == w then 1 else 0) + StepsOf(steps[1..], w)
  }

  lemma PathLeftOfMore(c: Config, held: seq<Frame>, f: Frame)
    ensures PathLeft(c, held + [f]) == PathLeft(c, held) + FrameLeft(c, f)
  {
    assert Front(held + [f]) == held && Last(held + [f]) == f;
  }

  lemma CallLeftDrops(c: Config, t: Task, i: nat)
    requires t in c.dependents && t in c.height && i <= |c.dependents[t]|
    ensures i == |c.dependents[t]| ==> CallLeft(c, t, i) == 1
    ensures i < |c.dependents[t]| ==> c.dependents[t][i] in c.dependents && c.dependents[t][i] in c.height
    ensures i < |c.dependents[t]| ==> CallLeft(c, t, i) == 2 + CallLeft(c, c.dependents[t][i], 0) + CallLeft(c, t, i + 1)
    ensures CallLeft(c, t, i) >= 1
  {
    hide WellFormed;
    Domains(c);
    assert i < |c.dependents[t]| ==> c.dependents[t][i] in c.dependents[t];
  }

  /** Every step of a walk uses up at least one of those left to it. */
  lemma OwnStepsDrop(c: Config, s: Walks, step: WalkStep)
    requires CanStep(c, s, step) && !step.Call? && PathOk(c, s.walks[step.w])
    ensures (if step.w in DoStep(c, s, step).walks then WalkLeft(c, DoStep(c, s, step).walks[step.w]) else 0)
         < WalkLeft(c, s.walks[step.w])
  {
    hide WellFormed, PathLeft, CallLeft;
    var k := s.walks[step.w];
    match step
    case Lock(_, accepts) =>
      var t := k.wanted.value;
      PathLeftOfMore(c, k.held, Frame(t, if accepts then 0 else |c.dependents[t]|));
      CallLeftDrops(c, t, 0);
      CallLeftDrops(c, t, |c.dependents[t]|);
    case Descend(_) =>
      var f := Last(k.held);
      assert FrameOk(c, f);
      PathLeftOfMore(c, Front(k.held), f);
      PathLeftOfMore(c, Front(k.held), f.(next := f.next + 1));
      assert Front(k.held) + [f] == k.held;
      CallLeftDrops(c, f.task, f.next);
    case Unlock(_) =>
      var f := Last(k.held);
      assert FrameOk(c, f);
      PathLeftOfMore(c, Front(k.held), f);
      assert Front(k.held) + [f] == k.held;
      CallLeftDrops(c, f.task, f.next);
  }

  lemma OtherStepsKeep(c: Config, s: Walks, step: WalkStep, w: Walker)
    requires CanStep(c, s, step) && step.w != w
    ensures w in DoStep(c, s, step).walks <==> w in s.walks
    ensures w in s.walks ==> DoStep(c, s, step).walks[w] == s.walks[w]
  {
    hide WellFormed;
  }

  /** Whatever the other walks do and whichever calls return at once, a walk makes no more steps than are left
      to it, until it is over. */
  lemma {:induction false} WalkEnds(c: Config, s: Walks, steps: seq<WalkStep>, w: Walker)
    requires WalksInv(c, s) && AreSteps(c, s, steps)
    requires forall i :: 0 <= i < |steps| && steps[i].w == w ==> !steps[i].Call?
    ensures StepsOf(steps, w) <= if w in s.walks then WalkLeft(c, s.walks[w]) else 0
    decreases |steps|
  {
    hide WellFormed, WalksInv, DoStep, WalkLeft, PathOk, OwnerOk;
    if steps != [] {
      StepWalks(c, s, steps[0]);
      if steps[0].w == w {
        WalkerIsOk(c, s, w);
        OwnStepsDrop(c, s, steps[0]);
      } else {
        OtherStepsKeep(c, s, steps[0], w);
      }
      WalkEnds(c, DoStep(c, s, steps[0]), steps[1..], w);
    }
  }

  lemma WalkerIsOk(c: Config, s: Walks, w: Walker)
    requires WalksInv(c, s) && w in s.walks
    ensures PathOk(c, s.walks[w])
  {
    hide WellFormed, PathOk;
    assert WalkOk(c, s, w);
  }
}
