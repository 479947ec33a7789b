/** Task executions as the objects that the executor updates in place, and the task set that builds them. */
module Executions {
  import opened Tasks
  import opened TaskGraph
  import opened Machine
  import opened Invalidation

  class TaskExecution {
    const definition: Task
    var ctx: Ctx
    var state: TaskState
    var terminal: nat
    var dependencies: seq<TaskExecution>
    var dependents: seq<TaskExecution>
    var pending: set<Event>
    ghost var starts: nat
    ghost var resets: nat
    ghost var trace: seq<RunEvent>

    constructor (executionCtx: Ctx, task: Task)
      ensures definition == task && ctx == Child(executionCtx, task, 0)
      ensures dependencies == [] && dependents == []
      ensures View() == Execution(Invalid, Child(executionCtx, task, 0), 0, {}, 0, 0, [])
    {
      definition, ctx, state, terminal := task, Child(executionCtx, task, 0), Invalid, 0;
      dependencies, dependents, pending := [], [], {};
      starts, resets, trace := 0, 0, [];
    }

    ghost function Fields(): Record
      reads this
    {
      Record(definition, View(), dependencies, dependents)
    }

    /** The execution as the step machine sees it. */
    ghost function View(): Execution
      reads this`ctx, this`state, this`terminal, this`pending, this`starts, this`resets, this`trace
    {
      Execution(state, ctx, terminal, pending, starts, resets, trace)
    }

    twostate lemma SameFields()
      requires unchanged(this)
      ensures Fields() == old(Fields())
    {}

    /** True iff the task is invalid and all of its dependencies, direct and indirect, are done. */
    method ShouldExecute() returns (r: bool)
      ensures r <==> state == Invalid && forall d :: d in dependencies ==> d.state == Done
    {
      if state != Invalid {
        return false;
      }
      r := true;
      for i := 0 to |dependencies|
        invariant r <==> forall k :: 0 <= k < i ==> dependencies[k].state == Done
      {
        if dependencies[i].state != Done {
          r := false;
        }
      }
    }

    method Begin()
      modifies this`state, this`starts
      ensures View() == Begun(old(View()))
    {
      state := Running;
      starts := starts + 1;
    }

    /** The first half of invalidate: cancels the context and takes a new one. Nothing happens to a
        task that is invalid or canceled. */
    method BeginReset(executionCtx: Ctx) returns (cancelled: Option<Ctx>)
      requires ctx.Child? && ctx.gen == resets
      modifies this`state, this`ctx, this`resets
      ensures cancelled.None? <==> old(state) == Invalid || old(state) == Canceled
      ensures cancelled.None? ==> View() == old(View())
      ensures cancelled.Some? ==> cancelled.value == old(ctx) && ctx.Child? && ctx.gen == resets
      ensures cancelled.Some? && executionCtx == Root ==> View() == Reset(old(View()), definition)
    {
      if state == Invalid || state == Canceled {
        return None;
      }
      cancelled := Some(ctx);
      state := Invalid;
      ctx := Child(executionCtx, definition, ctx.gen + 1);
      resets := resets + 1;
    }

    /** The second half: receives the token of the last run and starts afresh. While the channel is empty the
        receive waits: then nothing changes and the result is false. */
    method EndReset() returns (received: bool)
      modifies this`terminal, this`pending
      ensures received <==> old(terminal) > 0
      ensures View() == if received then Settle(old(View())) else old(View())
    {
      if terminal == 0 {
        return false;
      }
      terminal := 0;
      pending := {};
      return true;
    }

    /** How a run ends: a run whose context was cancelled leaves the state alone, unless the executor is
        shutting down. */
    method Complete(wasCancelled: bool, down: bool, failed: bool)
      modifies this`state, this`trace
      ensures state == if wasCancelled then (if down then Canceled else old(state)) else if failed then Error else Done
      ensures trace == old(trace) + [if wasCancelled then Stopped else if failed then Failed else Completed]
      ensures View() == Written(old(View()), if wasCancelled then Stop else if failed then Failure else Success, down)
    {
      if wasCancelled {
        if down {
          state := Canceled;
        }
        trace := trace + [Stopped];
      } else if failed {
        state := Error;
        trace := trace + [Failed];
      } else {
        state := Done;
        trace := trace + [Completed];
      }
    }

    /** The send on the terminal channel. While its one slot is taken the send waits: then nothing changes and
        the result is false. */
    method SendTerminal() returns (sent: bool)
      modifies this`terminal
      ensures sent <==> old(terminal) == 0
      ensures View() == if sent then old(View()).(terminal := 1) else old(View())
    {
      if terminal > 0 {
        return false;
      }
      terminal := terminal + 1;
      return true;
    }

    /** Marks this execution and, through their filters, everything that depends on it. */
    method Invalidate(event: Event, accepts: (Task, Event) -> bool, ghost c: Config, ghost all: TaskSet)
      returns (accepted: bool)
      requires all.Matches(c) && Holds(all.executions, this) && c.accepts == accepts
      modifies all.executions.Values`pending
      ensures definition in c.tasks
      ensures all.Views() == AddMarks(old(all.Views()), Marks(c, InvalidIn(old(all.Views())), definition, event))
      ensures accepted <==> old(state) != Invalid && accepts(definition, event)
      ensures all.Matches(c)
      decreases c.height[definition]
    {
      hide WellFormed, AddMarks, Marks, MarksUpTo, InvalidIn, TaskSet.Matches, TaskSet.MatchesFor, TaskSet.Views;
      all.Knows(c, this);
      ghost var was, invalid := all.Views(), InvalidIn(all.Views());
      NoMarks(was);
      MarksInOrder(c, was, definition, event);
      if state == Invalid || !accepts(definition, event) {
        return false;
      }
      pending := pending + {event};
      all.MarkedAlone(was, definition, event);
      for i := 0 to |dependents|
        invariant all.Matches(c)
        invariant all.Views() == AddMarks(was, MarksUpTo(c, invalid, definition, event, i))
      {
        all.KnowsDependent(c, this, i);
        MarksOneMore(c, was, definition, event, i);
        var _ := dependents[i].Invalidate(DependencyChange(definition), accepts, c, all);
      }
      accepted := true;
    }
  }

  /** The mark of the task itself, and those that its first `i` dependents contribute. */
  function MarksUpTo(c: Config, invalid: set<Task>, t: Task, e: Event, i: nat): set<(Task, Event)>
    requires t in c.tasks && t in c.dependents && i <= |c.dependents[t]|
  {
    Domains(c);
    {(t, e)} + set u, p | u in c.dependents[t][..i] && p in Marks(c, invalid, u, DependencyChange(t)) :: p
  }

  lemma NoMarks(exec: map<Task, Execution>)
    ensures AddMarks(exec, {}) == exec
  {
    forall t | t in exec ensures AddMarks(exec, {})[t] == exec[t] {
      var none: set<(Task, Event)> := {};
      assert (set p | p in none && p.0 == t :: p.1) == {};
    }
  }

  lemma MarksInOrder(c: Config, exec: map<Task, Execution>, t: Task, e: Event)
    requires t in c.tasks && exec.Keys == c.tasks
    ensures t in c.dependents
    ensures exec[t].state == Invalid || !c.accepts(t, e) ==> Marks(c, InvalidIn(exec), t, e) == {}
    ensures exec[t].state != Invalid && c.accepts(t, e) ==>
      Marks(c, InvalidIn(exec), t, e) == MarksUpTo(c, InvalidIn(exec), t, e, |c.dependents[t]|)
    ensures MarksUpTo(c, InvalidIn(exec), t, e, 0) == {(t, e)}
  {
    hide WellFormed;
    Domains(c);
    assert c.dependents[t][..|c.dependents[t]|] == c.dependents[t];
  }

  lemma MarksOneMore(c: Config, exec: map<Task, Execution>, t: Task, e: Event, i: nat)
    requires t in c.tasks && exec.Keys == c.tasks && t in c.dependents && i < |c.dependents[t]|
    ensures c.dependents[t][i] in c.tasks && c.height[c.dependents[t][i]] < c.height[t]
    ensures var mid := AddMarks(exec, MarksUpTo(c, InvalidIn(exec), t, e, i));
      AddMarks(mid, Marks(c, InvalidIn(mid), c.dependents[t][i], DependencyChange(t)))
      == AddMarks(exec, MarksUpTo(c, InvalidIn(exec), t, e, i + 1))
  {
    Domains(c);
    assert c.dependents[t][i] in c.dependents[t];
    hide WellFormed, AddMarks, Marks, MarksUpTo, InvalidIn;
    MarksOfNext(c, InvalidIn(exec), t, e, i);
    MarksAddUp(exec, MarksUpTo(c, InvalidIn(exec), t, e, i), Marks(c, InvalidIn(exec), c.dependents[t][i], DependencyChange(t)));
  }

  lemma MarksOfNext(c: Config, invalid: set<Task>, t: Task, e: Event, i: nat)
    requires t in c.tasks && t in c.dependents && i < |c.dependents[t]| && c.dependents[t][i] in c.tasks
    ensures MarksUpTo(c, invalid, t, e, i + 1)
         == MarksUpTo(c, invalid, t, e, i) + Marks(c, invalid, c.dependents[t][i], DependencyChange(t))
  {
    hide WellFormed, Marks;
    Domains(c);
    var u := c.dependents[t][i];
    assert c.dependents[t][..i + 1] == c.dependents[t][..i] + [u];
    forall p ensures p in MarksUpTo(c, invalid, t, e, i + 1)
      <==> p in MarksUpTo(c, invalid, t, e, i) || p in Marks(c, invalid, u, DependencyChange(t)) {}
  }

  /** The fields of an execution at one moment. */
  datatype Record = Record(
    definition: Task,
    view: Execution,
    dependencies: seq<TaskExecution>,
    dependents: seq<TaskExecution>)

  function Ids(xs: seq<TaskExecution>): (ids: seq<Task>)
    ensures |ids| == |xs| && forall i :: 0 <= i < |xs| ==> ids[i] == xs[i].definition
  {
    if xs == [] then [] else Ids(xs[..|xs| - 1]) + [xs[|xs| - 1].definition]
  }

  lemma {:induction false} IdsConcat(xs: seq<TaskExecution>, ys: seq<TaskExecution>)
    ensures Ids(xs + ys) == Ids(xs) + Ids(ys)
  {
    assert |Ids(xs + ys)| == |Ids(xs) + Ids(ys)|;
  }

  lemma IdsOfEntry(sofar: seq<TaskExecution>, deps: seq<TaskExecution>, x: TaskExecution)
    ensures Ids(sofar + deps + [x]) == Ids(sofar) + Ids(deps) + [x.definition]
  {
    IdsConcat(sofar + deps, [x]);
    IdsConcat(sofar, deps);
    assert Ids([x]) == [x.definition];
  }

  lemma EntryHolds(was: map<Task, TaskExecution>, now: map<Task, TaskExecution>,
                   sofar: seq<TaskExecution>, deps: seq<TaskExecution>, x: TaskExecution)
    requires Extends(was, now) && AllHold(was, sofar) && Holds(now, x) && AllHold(now, deps)
    ensures AllHold(now, sofar + deps + [x])
  {}

  // ---------------------------------------------------------------------------------------------
  // How often dependents are recorded

  function Count(ids: map<Task, seq<Task>>, d: Task, t: Task): nat {
    if d in ids then multiset(ids[d])[t] else 0
  }

  /** How often `d` is listed among the first `i` entries of `t`'s definition. */
  function Listed(g: Dag, t: Task, i: nat, d: Task): nat
    requires t in g.deps && i <= |g.deps[t]|
  {
    multiset(g.deps[t][..i])[d]
  }

  function ListedBy(g: Dag, added: set<Task>, t: Task, d: Task): nat {
    if t in added && t in g.deps then Listed(g, t, |g.deps[t]|, d) else 0
  }

  /** Besides what it was before, each list of dependents has every added task as often as that task's
      definition lists the dependency. */
  ghost predicate Grown(g: Dag, was: map<Task, seq<Task>>, now: map<Task, seq<Task>>, added: set<Task>) {
    forall d, t {:trigger Count(now, d, t)} :: Count(now, d, t) == Count(was, d, t) + ListedBy(g, added, t, d)
  }

  /** As Grown, with the first `i` entries of the definition of `task` processed as well. */
  ghost predicate PartlyGrown(g: Dag, was: map<Task, seq<Task>>, now: map<Task, seq<Task>>, added: set<Task>,
                              task: Task, i: nat)
    requires task in g.deps && i <= |g.deps[task]|
  {
    forall d, t {:trigger Count(now, d, t)} ::
      Count(now, d, t) == Count(was, d, t) + ListedBy(g, added, t, d) + if t == task then Listed(g, task, i, d) else 0
  }

  lemma GrowsByOne(g: Dag, was: map<Task, seq<Task>>, mid: map<Task, seq<Task>>, now: map<Task, seq<Task>>,
                   after: map<Task, seq<Task>>, added: set<Task>, more: set<Task>, task: Task, i: nat)
    requires task in g.deps && i < |g.deps[task]| && g.deps[task][i] in now
    requires task !in added && task !in more && added !! more
    requires PartlyGrown(g, was, mid, added, task, i) && Grown(g, mid, now, more)
    requires after == now[g.deps[task][i] := now[g.deps[task][i]] + [task]]
    ensures PartlyGrown(g, was, after, added + more, task, i + 1)
  {
    var dep := g.deps[task][i];
    assert g.deps[task][..i + 1] == g.deps[task][..i] + [dep];
    forall d, t
      ensures Count(after, d, t)
        == Count(was, d, t) + ListedBy(g, added + more, t, d) + if t == task then Listed(g, task, i + 1, d) else 0
    {
      assert Count(now, d, t) == Count(mid, d, t) + ListedBy(g, more, t, d);
      assert Count(mid, d, t) == Count(was, d, t) + ListedBy(g, added, t, d) + if t == task then Listed(g, task, i, d) else 0;
      assert Count(after, d, t) == Count(now, d, t) + if d == dep && t == task then 1 else 0;
    }
  }

  lemma GrownWhole(g: Dag, was: map<Task, seq<Task>>, mid: map<Task, seq<Task>>, now: map<Task, seq<Task>>,
                   added: set<Task>, task: Task)
    requires task in g.deps && task !in mid && task !in added && now == mid[task := []]
    requires PartlyGrown(g, was, mid, added, task, |g.deps[task]|)
    ensures Grown(g, was, now, added + {task})
  {
    forall d, t ensures Count(now, d, t) == Count(was, d, t) + ListedBy(g, added + {task}, t, d) {
      assert Count(mid, d, t) == Count(was, d, t) + ListedBy(g, added, t, d)
        + if t == task then Listed(g, task, |g.deps[task]|, d) else 0;
    }
  }

  // ---------------------------------------------------------------------------------------------
  // The task set

  /** Every context from `ctx` up is the first one of a task that depends on `t`. */
  ghost predicate Above(g: Dag, ctx: Ctx, t: Task) {
    Original(ctx) && forall a :: a in Owners(ctx) ==> a in g.deps && t in AllDeps(g, a)
  }

  /** The first context of `t`: a descendant of the root by way of tasks that depend on `t`. */
  ghost predicate Lineage(g: Dag, t: Task, ctx: Ctx) {
    ctx.Child? && ctx.owner == t && ctx.gen == 0 && Above(g, ctx.parent, t)
  }

  /** What a set under construction has stored: its executions, their fields, and, by task, the dependents
      recorded so far and the contexts. `open` has the executions that are not filed yet. */
  datatype Contents = Contents(
    executions: map<Task, TaskExecution>,
    records: map<Task, Record>,
    listed: map<Task, seq<Task>>,
    contexts: map<Task, Ctx>)

  /** Every execution is new, filed under its task, and lists all dependencies of it, in order. */
  ghost predicate Sound(g: Dag, open: set<TaskExecution>, s: Contents) {
    && s.executions.Keys <= g.deps.Keys
    && s.records.Keys == s.listed.Keys == s.contexts.Keys == s.executions.Keys
    && forall t {:trigger Filed(g, open, s, t)} :: t in s.executions ==> Filed(g, open, s, t)
  }

  ghost predicate Filed(g: Dag, open: set<TaskExecution>, s: Contents, t: Task)
    requires t in g.deps && t in s.records && t in s.listed && t in s.contexts && t in s.executions
  {
    var r := s.records[t];
    && r.definition == s.executions[t].definition == t && s.executions[t] !in open
    && r.view == Execution(Invalid, s.contexts[t], 0, {}, 0, 0, [])
    && Ids(r.dependencies) == AllDeps(g, t) && Ids(r.dependents) == s.listed[t]
    && (forall d :: d in AllDeps(g, t) ==> d in s.executions)
    && (forall d :: d in r.dependencies ==> Holds(s.executions, d))
    && (forall u :: u in r.dependents ==> Holds(s.executions, u) || u in open)
    && Lineage(g, t, s.contexts[t])
    && Owners(s.contexts[t].parent) <= s.executions.Keys + TasksOf(open)
  }

  function TasksOf(xs: set<TaskExecution>): set<Task> {
    set x | x in xs :: x.definition
  }

  predicate Holds(executions: map<Task, TaskExecution>, x: TaskExecution) {
    x.definition in executions && executions[x.definition] == x
  }

  /** What is filed under `t` stays in order while the set grows around it. */
  lemma FiledFrame(g: Dag, open: set<TaskExecution>, s: Contents, open': set<TaskExecution>, s': Contents, t: Task)
    requires t in g.deps && t in s.records && t in s.listed && t in s.contexts && t in s.executions
    requires t in s'.records && t in s'.listed && t in s'.contexts && t in s'.executions
    requires Filed(g, open, s, t)
    requires s'.records[t] == s.records[t] && s'.listed[t] == s.listed[t] && s'.contexts[t] == s.contexts[t]
    requires s'.executions[t] == s.executions[t] && s'.executions[t] !in open'
    requires forall u :: u in s.executions ==> u in s'.executions && s'.executions[u] == s.executions[u]
    requires forall x :: x in open ==> x in open' || Holds(s'.executions, x)
    ensures Filed(g, open', s', t)
  {
    hide Acyclic, AllDeps, Ids;
    assert s.executions.Keys <= s'.executions.Keys;
    assert TasksOf(open) <= s'.executions.Keys + TasksOf(open');
  }

  lemma Opening(g: Dag, open: set<TaskExecution>, s: Contents, x: TaskExecution)
    requires Sound(g, open, s) && !Holds(s.executions, x)
    ensures Sound(g, open + {x}, s)
  {
    hide Acyclic, AllDeps, Lineage;
    forall t | t in s.executions ensures Filed(g, open + {x}, s, t) {
      assert Filed(g, open, s, t);
      FiledFrame(g, open, s, open + {x}, s, t);
    }
  }

  lemma Named(g: Dag, open: set<TaskExecution>, s: Contents)
    requires Sound(g, open, s)
    ensures s.executions.Keys == s.records.Keys
    ensures forall t :: t in s.executions ==> s.executions[t].definition == t
  {
    hide Acyclic, AllDeps, Lineage, Ids, Holds;
    forall t | t in s.executions ensures s.executions[t].definition == t {
      assert Filed(g, open, s, t);
    }
  }

  function FiledContents(s: Contents, x: TaskExecution, r: Record): Contents {
    Contents(s.executions[x.definition := x], s.records[x.definition := r], s.listed[x.definition := []],
             s.contexts[x.definition := r.view.ctx])
  }

  function LinkedContents(s: Contents, dep: Task, x: TaskExecution): Contents
    requires dep in s.records && dep in s.listed
  {
    s.(records := s.records[dep := s.records[dep].(dependents := s.records[dep].dependents + [x])],
       listed := s.listed[dep := s.listed[dep] + [x.definition]])
  }

  lemma LinkedEntry(g: Dag, open: set<TaskExecution>, s: Contents, dep: Task, x: TaskExecution)
    requires dep in g.deps && dep in s.records && dep in s.listed && dep in s.contexts && dep in s.executions
    requires Filed(g, open, s, dep) && x in open
    ensures Filed(g, open, LinkedContents(s, dep, x), dep)
  {
    hide Acyclic, AllDeps, Lineage;
    IdsConcat(s.records[dep].dependents, [x]);
    assert Ids([x]) == [x.definition];
  }

  /** Recording `x`, still open, as one more dependent of `dep` keeps the contents sound. */
  lemma LinkIsSound(g: Dag, open: set<TaskExecution>, s: Contents, dep: Task, x: TaskExecution)
    requires Sound(g, open, s) && dep in s.executions && x in open
    ensures Sound(g, open, LinkedContents(s, dep, x))
  {
    hide Acyclic, AllDeps, Lineage, Filed;
    var s' := LinkedContents(s, dep, x);
    forall t | t in s'.executions ensures Filed(g, open, s', t) {
      assert Filed(g, open, s, t);
      if t == dep {
        LinkedEntry(g, open, s, dep, x);
      } else {
        assert s.executions[t] !in open by { FiledApart(g, open, s, t); }
        FiledFrame(g, open, s, open, s', t);
      }
    }
  }

  lemma FiledApart(g: Dag, open: set<TaskExecution>, s: Contents, t: Task)
    requires t in g.deps && t in s.records && t in s.listed && t in s.contexts && t in s.executions
    requires Filed(g, open, s, t)
    ensures s.executions[t] !in open
  {}

  /** The dependencies of `t` are all there, and `deps` has their executions in order. */
  ghost predicate Fileable(g: Dag, open: set<TaskExecution>, executions: map<Task, TaskExecution>, t: Task, ctx: Ctx,
                           deps: seq<TaskExecution>) {
    && t in g.deps && t !in executions && Ids(deps) == AllDeps(g, t) && Lineage(g, t, ctx)
    && Owners(ctx.parent) <= executions.Keys + TasksOf(open)
    && (forall d :: d in AllDeps(g, t) ==> d in executions)
    && (forall d :: d in deps ==> Holds(executions, d))
  }

  lemma FileableIsNew(g: Dag, open: set<TaskExecution>, executions: map<Task, TaskExecution>, t: Task, ctx: Ctx,
                      deps: seq<TaskExecution>)
    requires Fileable(g, open, executions, t, ctx, deps)
    ensures t in g.deps && t !in executions
  {}

  /** Filing the finished execution `x` keeps the contents sound. */
  lemma FileIsSound(g: Dag, open: set<TaskExecution>, s: Contents, x: TaskExecution, r: Record)
    requires Sound(g, open + {x}, s) && x !in open
    requires r.definition == x.definition && r.dependents == [] && r.view == Execution(Invalid, r.view.ctx, 0, {}, 0, 0, [])
    requires Fileable(g, open, s.executions, x.definition, r.view.ctx, r.dependencies)
    ensures Sound(g, open, FiledContents(s, x, r))
  {
    hide Acyclic, AllDeps, Lineage, Ids, Owners, Filed, Fileable;
    FileableIsNew(g, open, s.executions, x.definition, r.view.ctx, r.dependencies);
    var s' := FiledContents(s, x, r);
    forall t | t in s'.executions ensures Filed(g, open, s', t) {
      if t != x.definition {
        assert Filed(g, open + {x}, s, t);
        FiledApart(g, open + {x}, s, t);
        FiledFrame(g, open + {x}, s, open, s', t);
      } else {
        NewIsFiled(g, open, s, x, r);
      }
    }
  }

  lemma NewIsFiled(g: Dag, open: set<TaskExecution>, s: Contents, x: TaskExecution, r: Record)
    requires x !in open
    requires r.definition == x.definition && r.dependents == [] && r.view == Execution(Invalid, r.view.ctx, 0, {}, 0, 0, [])
    requires Fileable(g, open, s.executions, x.definition, r.view.ctx, r.dependencies)
    ensures Filed(g, open, FiledContents(s, x, r), x.definition)
  {
    hide Acyclic, AllDeps, Lineage, Owners;
  }

  function Elements(xs: seq<Task>): set<Task> {
    set x | x in xs
  }

  /** The set only grows: what is filed stays filed. */
  ghost predicate Extends(was: map<Task, TaskExecution>, now: map<Task, TaskExecution>) {
    forall t :: t in was ==> t in now && now[t] == was[t]
  }

  /** The lists have grown by what `added` lists, and `dep` has `task` as one more dependent. */
  ghost predicate GrownAndLinked(g: Dag, was: map<Task, seq<Task>>, after: map<Task, seq<Task>>, added: set<Task>,
                                 dep: Task, task: Task) {
    exists now: map<Task, seq<Task>> ::
      Grown(g, was, now, added) && dep in now && after == now[dep := now[dep] + [task]]
  }

  lemma EntryGrows(g: Dag, was: map<Task, seq<Task>>, mid: map<Task, seq<Task>>, after: map<Task, seq<Task>>,
                   start: set<Task>, before: set<Task>, keys: set<Task>, task: Task, i: nat)
    requires task in g.deps && i < |g.deps[task]| && start <= before <= keys && task !in keys
    requires PartlyGrown(g, was, mid, before - start, task, i)
    requires GrownAndLinked(g, mid, after, keys - before, g.deps[task][i], task)
    ensures PartlyGrown(g, was, after, keys - start, task, i + 1)
  {
    hide Acyclic, PartlyGrown, Grown;
    var dep := g.deps[task][i];
    var now: map<Task, seq<Task>> :| Grown(g, mid, now, keys - before) && dep in now && after == now[dep := now[dep] + [task]];
    GrowsByOne(g, was, mid, now, after, before - start, keys - before, task, i);
    assert keys - start == (before - start) + (keys - before);
  }

  lemma NothingGrown(g: Dag, was: map<Task, seq<Task>>, task: Task)
    requires task in g.deps
    ensures PartlyGrown(g, was, was, {}, task, 0)
  {
    assert g.deps[task][..0] == [];
    forall d, t ensures Count(was, d, t) == Count(was, d, t) + ListedBy(g, {}, t, d) + if t == task then Listed(g, task, 0, d) else 0 {
      assert ListedBy(g, {}, t, d) == 0;
    }
  }

  lemma NothingAdded(g: Dag, was: map<Task, seq<Task>>)
    ensures Grown(g, was, was, {})
  {
    forall d, t ensures Count(was, d, t) == Count(was, d, t) + ListedBy(g, {}, t, d) {
      assert ListedBy(g, {}, t, d) == 0;
    }
  }

  lemma FiledDeps(g: Dag, open: set<TaskExecution>, tasks: TaskSet, t: Task)
    requires tasks.Valid(g, open) && t in tasks.executions
    ensures t in tasks.listed && Holds(tasks.executions, tasks.executions[t]) && tasks.executions[t].definition == t
    ensures Ids(tasks.executions[t].dependencies) == AllDeps(g, t)
    ensures AllHold(tasks.executions, tasks.executions[t].dependencies)
  {
    hide Acyclic, AllDeps, Lineage;
    assert Filed(g, open, tasks.Stored(), t);
    assert tasks.Stored().records[t] == tasks.executions[t].Fields();
  }

  /** A direct dependency is listed, and neither it nor what is below it is the task itself. */
  lemma EntryIsDep(g: Dag, t: Task, i: nat)
    requires t in g.deps && i < |g.deps[t]|
    ensures g.deps[t][i] in g.deps && g.rank[g.deps[t][i]] < g.rank[t] && g.deps[t][i] in AllDeps(g, t)
    ensures g.deps[t][i] in g.rank && DepsUpTo(g, t, i + 1) == DepsUpTo(g, t, i) + AllDeps(g, g.deps[t][i]) + [g.deps[t][i]]
    ensures g.deps[t][i] != t && t !in Elements(AllDeps(g, g.deps[t][i]))
    ensures Elements(DepsUpTo(g, t, i + 1))
         == Elements(DepsUpTo(g, t, i)) + {g.deps[t][i]} + Elements(AllDeps(g, g.deps[t][i]))
  {
    var d := g.deps[t][i];
    ListedFrom(g, t, |g.deps[t]|, d);
    if t in AllDeps(g, d) { DepsAreClosed(g, d, t); }
    assert DepsUpTo(g, t, i + 1) == DepsUpTo(g, t, i) + AllDeps(g, d) + [d];
  }

  lemma OwnersOpened(g: Dag, t: Task, x: TaskExecution, ctx: Ctx, open: set<TaskExecution>)
    requires t == x.definition && Lineage(g, t, ctx) && Owners(ctx.parent) <= TasksOf(open)
    ensures Owners(ctx) <= TasksOf(open + {x})
  {
    assert TasksOf(open) <= TasksOf(open + {x}) && t in TasksOf(open + {x});
  }

  /** The context handed down for a dependency only has owners that depend on it. */
  lemma LineagePassesDown(g: Dag, t: Task, ctx: Ctx, i: nat)
    requires t in g.deps && i < |g.deps[t]| && Lineage(g, t, ctx)
    ensures g.deps[t][i] in g.deps && g.deps[t][i] in g.rank && g.rank[g.deps[t][i]] < g.rank[t]
    ensures Above(g, ctx, g.deps[t][i])
  {
    EntryIsDep(g, t, i);
    forall a | a in Owners(ctx) ensures a in g.deps && g.deps[t][i] in AllDeps(g, a) {
      if a != t { DepsAreClosed(g, a, t); }
    }
  }

  /** What the loop over the first `i` dependencies of `task` has done. */
  ghost predicate Reached(g: Dag, was: map<Task, TaskExecution>, wasListed: map<Task, seq<Task>>,
                          now: map<Task, TaskExecution>, nowListed: map<Task, seq<Task>>,
                          task: Task, i: nat, deps: seq<TaskExecution>)
    requires task in g.deps && i <= |g.deps[task]|
  {
    && task !in now && now.Keys == was.Keys + Elements(DepsUpTo(g, task, i)) && Extends(was, now)
    && Ids(deps) == DepsUpTo(g, task, i) && (forall d :: d in deps ==> Holds(now, d))
    && PartlyGrown(g, wasListed, nowListed, now.Keys - was.Keys, task, i)
  }

  lemma ReachedNothing(g: Dag, was: map<Task, TaskExecution>, wasListed: map<Task, seq<Task>>, task: Task)
    requires task in g.deps && task !in was
    ensures Reached(g, was, wasListed, was, wasListed, task, 0, [])
  {
    NothingGrown(g, wasListed, task);
    assert was.Keys - was.Keys == {};
  }

  lemma ReachedLacks(g: Dag, was: map<Task, TaskExecution>, wasListed: map<Task, seq<Task>>,
                     now: map<Task, TaskExecution>, nowListed: map<Task, seq<Task>>, task: Task, deps: seq<TaskExecution>)
    requires task in g.deps && Reached(g, was, wasListed, now, nowListed, task, |g.deps[task]|, deps)
    ensures task !in now
  {}

  lemma ReachedNext(g: Dag, was: map<Task, TaskExecution>, wasListed: map<Task, seq<Task>>,
                    mid: map<Task, TaskExecution>, midListed: map<Task, seq<Task>>,
                    now: map<Task, TaskExecution>, nowListed: map<Task, seq<Task>>,
                    task: Task, i: nat, sofar: seq<TaskExecution>, deps: seq<TaskExecution>, dep: Task)
    requires task in g.deps && i < |g.deps[task]| && dep == g.deps[task][i] && dep in g.deps
    requires Reached(g, was, wasListed, mid, midListed, task, i, sofar)
    requires Extends(mid, now) && now.Keys == mid.Keys + {dep} + Elements(AllDeps(g, dep))
    requires Ids(deps) == Ids(sofar) + AllDeps(g, dep) + [dep] && forall d :: d in deps ==> Holds(now, d)
    requires GrownAndLinked(g, midListed, nowListed, now.Keys - mid.Keys, dep, task)
    ensures Reached(g, was, wasListed, now, nowListed, task, i + 1, deps)
  {
    hide Acyclic, AllDeps, DepsUpTo, PartlyGrown, GrownAndLinked, Ids, Elements, Holds;
    EntryIsDep(g, task, i);
    assert task !in now;
    EntryGrows(g, wasListed, midListed, nowListed, was.Keys, mid.Keys, now.Keys, task, i);
    assert now.Keys == was.Keys + Elements(DepsUpTo(g, task, i + 1));
  }

  /** What adding `task` does to the set and to the recorded dependents. */
  ghost predicate Grew(g: Dag, was: map<Task, TaskExecution>, wasListed: map<Task, seq<Task>>,
                       now: map<Task, TaskExecution>, nowListed: map<Task, seq<Task>>, task: Task)
    requires task in g.deps
  {
    && now.Keys == was.Keys + {task} + Elements(AllDeps(g, task)) && Extends(was, now)
    && Grown(g, wasListed, nowListed, now.Keys - was.Keys)
  }

  // ---------------------------------------------------------------------------------------------
  // Where first contexts hang

  /** The context of `t`, added since `was`, hangs below that of an added task that lists `t`. */
  ghost predicate HangsBelow(g: Dag, was: map<Task, Ctx>, now: map<Task, Ctx>, t: Task)
    requires t in now
  {
    exists u :: u in now && u !in was && u in g.deps && t in g.deps[u] && now[t] == Child(now[u], t, 0)
  }

  ghost predicate KeepsContexts(was: map<Task, Ctx>, now: map<Task, Ctx>) {
    forall t :: t in was ==> t in now && now[t] == was[t]
  }

  /** Adding `task` below `ctx` makes a context for each task that was not there: for `task` below `ctx`, for
      the others below that of the task whose listing adds them. */
  ghost predicate Handed(g: Dag, was: map<Task, Ctx>, now: map<Task, Ctx>, ctx: Ctx, task: Task) {
    && KeepsContexts(was, now)
    && (task !in was ==> task in now && now[task] == Child(ctx, task, 0))
    && forall t {:trigger HangsBelow(g, was, now, t)} :: t in now && t !in was && t != task ==> HangsBelow(g, was, now, t)
  }

  ghost predicate IsEntry(g: Dag, task: Task, i: nat, t: Task)
    requires task in g.deps && i <= |g.deps[task]|
  {
    exists k :: 0 <= k < i && g.deps[task][k] == t
  }

  /** The same while the first `i` entries of `task` have been added, which itself is not filed yet. */
  ghost predicate HandedUpTo(g: Dag, was: map<Task, Ctx>, now: map<Task, Ctx>, ctx: Ctx, task: Task, i: nat)
    requires task in g.deps && i <= |g.deps[task]|
  {
    && KeepsContexts(was, now)
    && forall t {:trigger HangsBelow(g, was, now, t)} :: t in now && t !in was ==>
      HangsBelow(g, was, now, t) || (IsEntry(g, task, i, t) && now[t] == Child(ctx, t, 0))
  }

  lemma HandedNothing(g: Dag, was: map<Task, Ctx>, ctx: Ctx, task: Task)
    requires task in g.deps
    ensures HandedUpTo(g, was, was, ctx, task, 0)
  {}

  lemma HandedNext(g: Dag, was: map<Task, Ctx>, mid: map<Task, Ctx>, now: map<Task, Ctx>, ctx: Ctx, task: Task, i: nat)
    requires task in g.deps && i < |g.deps[task]|
    requires HandedUpTo(g, was, mid, ctx, task, i) && Handed(g, mid, now, ctx, g.deps[task][i])
    ensures HandedUpTo(g, was, now, ctx, task, i + 1)
  {
    hide Acyclic;
    forall t | t in now && t !in was
      ensures HangsBelow(g, was, now, t) || (IsEntry(g, task, i + 1, t) && now[t] == Child(ctx, t, 0))
    {
      if t in mid {
        assert HangsBelow(g, was, mid, t) || IsEntry(g, task, i, t);
        if IsEntry(g, task, i, t) { assert IsEntry(g, task, i + 1, t); }
      } else if t == g.deps[task][i] {
        assert IsEntry(g, task, i + 1, t);
      } else {
        assert HangsBelow(g, mid, now, t);
      }
    }
  }

  lemma HandedAll(g: Dag, was: map<Task, Ctx>, mid: map<Task, Ctx>, ctx: Ctx, task: Task)
    requires task in g.deps && task !in mid
    requires HandedUpTo(g, was, mid, Child(ctx, task, 0), task, |g.deps[task]|)
    ensures Handed(g, was, mid[task := Child(ctx, task, 0)], ctx, task)
  {
    hide Acyclic;
    var now := mid[task := Child(ctx, task, 0)];
    forall t | t in now && t !in was && t != task ensures HangsBelow(g, was, now, t) {
      assert HangsBelow(g, was, mid, t) || IsEntry(g, task, |g.deps[task]|, t);
      if !HangsBelow(g, was, mid, t) {
        assert now[t] == Child(now[task], t, 0) && t in g.deps[task];
      }
    }
  }

  lemma ReachedAll(g: Dag, was: map<Task, TaskExecution>, wasListed: map<Task, seq<Task>>,
                   mid: map<Task, TaskExecution>, midListed: map<Task, seq<Task>>,
                   now: map<Task, TaskExecution>, nowListed: map<Task, seq<Task>>,
                   task: Task, deps: seq<TaskExecution>, x: TaskExecution)
    requires task in g.deps && midListed.Keys == mid.Keys
    requires Reached(g, was, wasListed, mid, midListed, task, |g.deps[task]|, deps)
    requires now == mid[task := x] && nowListed == midListed[task := []]
    ensures Grew(g, was, wasListed, now, nowListed, task)
  {
    hide Acyclic, DepsUpTo, PartlyGrown, Grown, Ids, Elements, Holds;
    assert task !in was;
    GrownWhole(g, wasListed, midListed, nowListed, mid.Keys - was.Keys, task);
    assert now.Keys - was.Keys == (mid.Keys - was.Keys) + {task};
  }

  lemma ReachedIsComplete(g: Dag, was: map<Task, TaskExecution>, wasListed: map<Task, seq<Task>>,
                          mid: map<Task, TaskExecution>, midListed: map<Task, seq<Task>>, task: Task,
                          deps: seq<TaskExecution>, open: set<TaskExecution>, ctx: Ctx)
    requires task in g.deps && Lineage(g, task, ctx) && Owners(ctx.parent) <= TasksOf(open)
    requires Reached(g, was, wasListed, mid, midListed, task, |g.deps[task]|, deps)
    ensures task !in mid && Fileable(g, open, mid, task, ctx, deps)
  {
    hide Acyclic, DepsUpTo, PartlyGrown, Grown, Ids, Lineage, Owners, TasksOf;
    forall d | d in AllDeps(g, task) ensures d in mid {
      assert d in Elements(AllDeps(g, task));
    }
  }

  lemma AlreadyThere(g: Dag, open: set<TaskExecution>, s: Contents, t: Task)
    requires Sound(g, open, s) && t in s.executions
    ensures Grew(g, s.executions, s.listed, s.executions, s.listed, t)
  {
    hide Acyclic, AllDeps, Lineage;
    assert Filed(g, open, s, t);
    assert s.executions.Keys - s.executions.Keys == {};
    assert s.executions.Keys == s.executions.Keys + {t} + Elements(AllDeps(g, t));
    NothingAdded(g, s.listed);
  }

  predicate AllHold(executions: map<Task, TaskExecution>, xs: seq<TaskExecution>) {
    forall x :: x in xs ==> Holds(executions, x)
  }

  /** What one round of the loop of Add does: the `i`-th entry and its dependencies are there and collected, their
      contexts hang where they should, and the execution of `task` is one more dependent of the entry. */
  ghost predicate EntryAdded(g: Dag, was: map<Task, TaskExecution>, wasListed: map<Task, seq<Task>>,
                             wasContexts: map<Task, Ctx>,
                             now: map<Task, TaskExecution>, nowListed: map<Task, seq<Task>>, nowContexts: map<Task, Ctx>,
                             ctx: Ctx, task: Task, i: nat, sofar: seq<TaskExecution>, deps: seq<TaskExecution>)
    requires task in g.deps && i < |g.deps[task]| && g.deps[task][i] in g.deps
  {
    var d := g.deps[task][i];
    && Extends(was, now) && now.Keys == was.Keys + {d} + Elements(AllDeps(g, d))
    && Ids(deps) == Ids(sofar) + AllDeps(g, d) + [d] && AllHold(now, deps)
    && GrownAndLinked(g, wasListed, nowListed, now.Keys - was.Keys, d, task)
    && Handed(g, wasContexts, nowContexts, ctx, d)
  }

  /** What the first `i` rounds have done, all in all. */
  ghost predicate EntriesAdded(g: Dag, was: map<Task, TaskExecution>, wasListed: map<Task, seq<Task>>,
                               wasContexts: map<Task, Ctx>, now: map<Task, TaskExecution>, nowListed: map<Task, seq<Task>>,
                               nowContexts: map<Task, Ctx>, ctx: Ctx, task: Task, i: nat, deps: seq<TaskExecution>)
    requires task in g.deps && i <= |g.deps[task]|
  {
    Reached(g, was, wasListed, now, nowListed, task, i, deps) && HandedUpTo(g, wasContexts, nowContexts, ctx, task, i)
  }

  lemma GrewExtends(g: Dag, was: map<Task, TaskExecution>, wasListed: map<Task, seq<Task>>, now: map<Task, TaskExecution>,
                    nowListed: map<Task, seq<Task>>, d: Task)
    requires d in g.deps && Grew(g, was, wasListed, now, nowListed, d)
    ensures Extends(was, now) && d in now
  {}

  lemma EntryIsAdded(g: Dag, was: map<Task, TaskExecution>, wasListed: map<Task, seq<Task>>, wasContexts: map<Task, Ctx>,
                     now: map<Task, TaskExecution>, midListed: map<Task, seq<Task>>, nowListed: map<Task, seq<Task>>,
                     nowContexts: map<Task, Ctx>, ctx: Ctx, task: Task, i: nat,
                     sofar: seq<TaskExecution>, deps: seq<TaskExecution>)
    requires task in g.deps && i < |g.deps[task]| && g.deps[task][i] in g.deps && g.deps[task][i] in midListed
    requires Grew(g, was, wasListed, now, midListed, g.deps[task][i])
    requires Handed(g, wasContexts, nowContexts, ctx, g.deps[task][i])
    requires nowListed == midListed[g.deps[task][i] := midListed[g.deps[task][i]] + [task]]
    requires Ids(deps) == Ids(sofar) + AllDeps(g, g.deps[task][i]) + [g.deps[task][i]] && AllHold(now, deps)
    ensures EntryAdded(g, was, wasListed, wasContexts, now, nowListed, nowContexts, ctx, task, i, sofar, deps)
  {
    hide Acyclic, AllDeps, Grown, Ids, Elements, Handed, AllHold;
  }

  lemma NoEntriesAdded(g: Dag, was: map<Task, TaskExecution>, wasListed: map<Task, seq<Task>>, wasContexts: map<Task, Ctx>,
                       ctx: Ctx, task: Task)
    requires task in g.deps && task !in was
    ensures EntriesAdded(g, was, wasListed, wasContexts, was, wasListed, wasContexts, ctx, task, 0, [])
  {
    ReachedNothing(g, was, wasListed, task);
    HandedNothing(g, wasContexts, ctx, task);
  }

  lemma OneMoreAdded(g: Dag, was: map<Task, TaskExecution>, wasListed: map<Task, seq<Task>>, wasContexts: map<Task, Ctx>,
                     mid: map<Task, TaskExecution>, midListed: map<Task, seq<Task>>, midContexts: map<Task, Ctx>,
                     now: map<Task, TaskExecution>, nowListed: map<Task, seq<Task>>, nowContexts: map<Task, Ctx>,
                     ctx: Ctx, task: Task, i: nat, sofar: seq<TaskExecution>, deps: seq<TaskExecution>)
    requires task in g.deps && i < |g.deps[task]| && g.deps[task][i] in g.deps
    requires EntriesAdded(g, was, wasListed, wasContexts, mid, midListed, midContexts, ctx, task, i, sofar)
    requires EntryAdded(g, mid, midListed, midContexts, now, nowListed, nowContexts, ctx, task, i, sofar, deps)
    ensures EntriesAdded(g, was, wasListed, wasContexts, now, nowListed, nowContexts, ctx, task, i + 1, deps)
  {
    hide Acyclic, AllDeps, Reached, Handed, HandedUpTo, GrownAndLinked, Elements, Ids, Holds;
    HandedNext(g, wasContexts, midContexts, nowContexts, ctx, task, i);
    ReachedNext(g, was, wasListed, mid, midListed, now, nowListed, task, i, sofar, deps, g.deps[task][i]);
  }

  lemma EntriesHold(g: Dag, was: map<Task, TaskExecution>, wasListed: map<Task, seq<Task>>, wasContexts: map<Task, Ctx>,
                    now: map<Task, TaskExecution>, nowListed: map<Task, seq<Task>>, nowContexts: map<Task, Ctx>,
                    ctx: Ctx, task: Task, i: nat, deps: seq<TaskExecution>)
    requires task in g.deps && i <= |g.deps[task]|
    requires EntriesAdded(g, was, wasListed, wasContexts, now, nowListed, nowContexts, ctx, task, i, deps)
    ensures AllHold(now, deps) && Extends(was, now) && task !in now
  {}

  class TaskSet {
    var executions: map<Task, TaskExecution>
    // By task: the dependents recorded so far, and the context made for the execution.
    ghost var listed: map<Task, seq<Task>>
    ghost var contexts: map<Task, Ctx>

    constructor (g: Dag)
      ensures Valid(g, {}) && executions == map[] && listed == map[] && contexts == map[]
    {
      executions, listed, contexts := map[], map[], map[];
    }

    ghost function Stored(): (s: Contents)
      reads this, executions.Values
      ensures s.executions == executions && s.listed == listed && s.contexts == contexts
    {
      Contents(executions, map t | t in executions :: executions[t].Fields(), listed, contexts)
    }

    /** The executions as the step machine sees them. */
    ghost function Views(): (exec: map<Task, Execution>)
      reads this, executions.Values
      ensures exec.Keys == executions.Keys && forall t :: t in exec ==> exec[t] == executions[t].View()
    {
      map t | t in executions :: executions[t].View()
    }

    /** The set was built for the configuration `c`. */
    ghost predicate Matches(c: Config)
      reads this`executions, executions.Values`dependencies, executions.Values`dependents
    {
      && executions.Keys == c.tasks
      && forall t {:trigger MatchesFor(c, t)} :: t in executions ==> MatchesFor(c, t)
    }

    ghost predicate MatchesFor(c: Config, t: Task)
      requires t in executions && t in c.below && t in c.dependents
      reads this`executions, executions.Values`dependencies, executions.Values`dependents
    {
      var x := executions[t];
      && x.definition == t
      && Elements(Ids(x.dependencies)) == c.below[t] && (forall d :: d in x.dependencies ==> Holds(executions, d))
      && Ids(x.dependents) == c.dependents[t] && (forall u :: u in x.dependents ==> Holds(executions, u))
    }

    lemma KnowsTasks(c: Config)
      requires Matches(c)
      ensures executions.Keys == c.tasks
    {}

    lemma Knows(c: Config, x: TaskExecution)
      requires Matches(c) && Holds(executions, x)
      ensures x.definition in c.tasks && x.definition in c.dependents && x in executions.Values && x.definition in c.height
      ensures executions.Keys == c.tasks && forall t :: t in executions ==> executions[t].definition == t
      ensures |x.dependents| == |c.dependents[x.definition]|
    {
      hide WellFormed;
      Domains(c);
      assert MatchesFor(c, x.definition);
      forall t | t in executions ensures executions[t].definition == t {
        assert MatchesFor(c, t);
      }
    }

    lemma KnowsDependent(c: Config, x: TaskExecution, i: nat)
      requires Matches(c) && Holds(executions, x) && i < |x.dependents|
      requires x.definition in c.dependents && |x.dependents| == |c.dependents[x.definition]|
      ensures Holds(executions, x.dependents[i]) && x.dependents[i].definition == c.dependents[x.definition][i]
    {
      hide WellFormed;
      Domains(c);
      assert MatchesFor(c, x.definition);
    }

    lemma KnowsDependencies(c: Config, t: Task)
      requires Matches(c) && t in c.tasks
      ensures c.below.Keys == c.tasks && c.below[t] <= c.tasks
      ensures executions.Keys == c.tasks && executions[t].definition == t && executions[t] in executions.Values
      ensures forall d :: d in executions[t].dependencies ==> d.definition in c.below[t] && executions[d.definition] == d
      ensures forall d :: d in c.below[t] ==> executions[d] in executions[t].dependencies
    {
      hide WellFormed;
      Domains(c);
      BelowIsInside(c, t);
      assert MatchesFor(c, t);
      var x := executions[t];
      forall d | d in x.dependencies ensures d.definition in c.below[t] {
        var i :| 0 <= i < |x.dependencies| && x.dependencies[i] == d;
        assert Ids(x.dependencies)[i] == d.definition;
      }
      forall d | d in c.below[t] ensures executions[d] in x.dependencies {
        var i :| 0 <= i < |x.dependencies| && Ids(x.dependencies)[i] == d;
        assert x.dependencies[i] in x.dependencies;
      }
    }

    lemma ShowsChange(was: map<Task, Execution>, t: Task, x: Execution)
      requires was.Keys == executions.Keys && t in executions && executions[t].View() == x
      requires forall u :: u in executions && u != t ==> executions[u].View() == was[u]
      ensures Views() == was[t := x]
    {}

    lemma Shows(exec: map<Task, Execution>)
      requires exec.Keys == executions.Keys && forall t :: t in executions ==> executions[t].View() == exec[t]
      ensures Views() == exec
    {}

    lemma MarkedAlone(was: map<Task, Execution>, t: Task, e: Event)
      requires t in executions && was.Keys == executions.Keys
      requires forall u :: u in executions && u != t ==> executions[u].View() == was[u]
      requires executions[t].View() == was[t].(pending := was[t].pending + {e})
      ensures Views() == AddMarks(was, {(t, e)})
    {
      var now := AddMarks(was, {(t, e)});
      forall u | u in executions ensures executions[u].View() == now[u] {
        if u == t {
          assert (set p | p in {(t, e)} && p.0 == u :: p.1) == {e};
        } else {
          assert (set p | p in {(t, e)} && p.0 == u :: p.1) == {};
        }
      }
    }

    lemma Stores(s: Contents)
      requires s.executions == executions && s.listed == listed && s.contexts == contexts
      requires s.records.Keys == executions.Keys && forall t :: t in executions ==> executions[t].Fields() == s.records[t]
      ensures Stored() == s
    {}

    ghost predicate Valid(g: Dag, open: set<TaskExecution>)
      reads this, executions.Values
      ensures Valid(g, open) ==> listed.Keys == contexts.Keys == executions.Keys
    {
      Sound(g, open, Stored()) && listed.Keys == contexts.Keys == executions.Keys
    }

    lemma OwnContext(g: Dag, open: set<TaskExecution>, t: Task)
      requires Valid(g, open) && t in executions
      ensures t in contexts && executions[t].ctx == contexts[t]
    {
      hide Acyclic, AllDeps, Lineage;
      assert Filed(g, open, Stored(), t);
      assert Stored().records[t] == executions[t].Fields();
    }

    /** Every execution filed since is new. */
    twostate predicate OnlyNew()
      reads this
    {
      forall t :: t in executions && t !in old(executions) ==> fresh(executions[t])
    }

    /** Records `x`, still under construction, as a dependent of the execution of `dep`. */
    method Link(ghost dep: Task, depExec: TaskExecution, x: TaskExecution)
      requires dep in executions && depExec == executions[dep] && dep in listed
      requires forall t :: t in executions && t != dep ==> executions[t] != depExec
      modifies this`listed, depExec`dependents
      ensures dep in old(listed) && listed == old(listed)[dep := old(listed)[dep] + [x.definition]]
      ensures dep in old(Stored()).records && Stored() == LinkedContents(old(Stored()), dep, x)
    {
      ghost var now := LinkedContents(Stored(), dep, x);
      depExec.dependents := depExec.dependents + [x];
      listed := listed[dep := listed[dep] + [x.definition]];
      forall t | t in executions ensures executions[t].Fields() == now.records[t] {
        if t != dep { executions[t].SameFields(); }
      }
      Stores(now);
    }

    /** Files the finished execution `x` under its task. */
    method File(x: TaskExecution, deps: seq<TaskExecution>)
      requires x.definition !in executions && forall t :: t in executions ==> executions[t] != x
      modifies this, x`dependencies
      ensures x.dependencies == deps && executions == old(executions)[x.definition := x]
      ensures listed == old(listed)[x.definition := []]
      ensures Stored() == FiledContents(old(Stored()), x, Record(x.definition, old(x.View()), deps, x.dependents))
    {
      ghost var now := FiledContents(Stored(), x, Record(x.definition, x.View(), deps, x.dependents));
      x.dependencies := deps;
      executions := executions[x.definition := x];
      listed := listed[x.definition := []];
      contexts := contexts[x.definition := x.ctx];
      forall t | t in executions ensures executions[t].Fields() == now.records[t] {
        if t != x.definition { executions[t].SameFields(); }
      }
      Stores(now);
    }

    /** Adds `task` and its dependencies, and returns the execution and its flattened dependencies. */
    method Add(g: Dag, executionCtx: Ctx, task: Task, ghost open: set<TaskExecution>)
      returns (execution: TaskExecution, deps: seq<TaskExecution>)
      requires Valid(g, open) && task in g.deps && Above(g, executionCtx, task) && Owners(executionCtx) <= TasksOf(open)
      modifies this, executions.Values`dependents
      ensures Valid(g, open) && OnlyNew()
      ensures Grew(g, old(executions), old(listed), executions, listed, task)
      ensures Handed(g, old(contexts), contexts, executionCtx, task)
      ensures task !in old(executions) ==> execution.ctx == Child(executionCtx, task, 0)
      ensures execution == executions[task] && deps == execution.dependencies
      decreases g.rank[task], 1
    {
      hide Acyclic, AllDeps, Sound, Grown, Above, Reached, HangsBelow;
      if task in executions {
        execution, deps := executions[task], executions[task].dependencies;
        AlreadyThere(g, open, Stored(), task);
        return;
      }
      execution := new TaskExecution(executionCtx, task);
      deps := Expand(g, task, execution, open);
    }

    /** Adds the dependencies of the new execution and files it. */
    method Expand(g: Dag, task: Task, execution: TaskExecution, ghost open: set<TaskExecution>)
      returns (deps: seq<TaskExecution>)
      requires Valid(g, open) && task in g.deps && task == execution.definition && task !in executions
      requires execution !in executions.Values && execution !in open && execution.dependents == []
      requires execution.View() == Execution(Invalid, execution.ctx, 0, {}, 0, 0, []) && Lineage(g, task, execution.ctx)
      requires execution.ctx.Child? && execution.ctx == Child(execution.ctx.parent, task, 0)
      requires Owners(execution.ctx.parent) <= TasksOf(open)
      modifies this, executions.Values`dependents, execution`dependencies
      ensures Valid(g, open)
      ensures forall t :: t in executions && t !in old(executions) && t != task ==> fresh(executions[t])
      ensures Grew(g, old(executions), old(listed), executions, listed, task)
      ensures Handed(g, old(contexts), contexts, execution.ctx.parent, task)
      ensures execution == executions[task] && deps == execution.dependencies
      decreases g.rank[task], 1, 0
    {
      hide Acyclic, AllDeps, Sound, Grown, Above, Reached, Grew, Fileable, Lineage, Owners, TasksOf, Extends;
      hide Handed, HandedUpTo, Stored, TaskExecution.Fields;
      Opening(g, open, Stored(), execution);
      OwnersOpened(g, task, execution, execution.ctx, open);
      deps := AddEntries(g, task, execution, open + {execution});
      ghost var mid, midListed := executions, listed;
      ReachedLacks(g, old(executions), old(listed), executions, listed, task, deps);
      HandedAll(g, old(contexts), contexts, execution.ctx.parent, task);
      ReachedIsComplete(g, old(executions), old(listed), mid, midListed, task, deps, open, execution.ctx);
      ghost var r := Record(task, execution.View(), deps, []);
      FileIsSound(g, open, Stored(), execution, r);
      Named(g, open + {execution}, Stored());
      File(execution, deps);
      ReachedAll(g, old(executions), old(listed), mid, midListed, executions, listed, task, deps, execution);
    }

    /** The loop of Add over the dependencies that the definition of `task` lists. */
    method AddEntries(g: Dag, task: Task, execution: TaskExecution, ghost open: set<TaskExecution>)
      returns (deps: seq<TaskExecution>)
      requires Valid(g, open) && task in g.deps && task == execution.definition && task !in executions
      requires execution in open && Lineage(g, task, execution.ctx) && Owners(execution.ctx) <= TasksOf(open)
      modifies this, executions.Values`dependents
      ensures Valid(g, open) && OnlyNew()
      ensures EntriesAdded(g, old(executions), old(listed), old(contexts), executions, listed, contexts, execution.ctx,
                           task, |g.deps[task]|, deps)
      decreases g.rank[task], 0, 1
    {
      hide Acyclic, AllDeps, Above, Lineage, Owners, TasksOf, Valid, Stored, AllHold, EntryAdded, EntriesAdded;
      deps := [];
      NoEntriesAdded(g, executions, listed, contexts, execution.ctx, task);
      for i := 0 to |g.deps[task]|
        invariant Valid(g, open) && OnlyNew()
        invariant EntriesAdded(g, old(executions), old(listed), old(contexts), executions, listed, contexts, execution.ctx,
                               task, i, deps)
      {
        ghost var mid, midListed, midContexts, sofar := executions, listed, contexts, deps;
        LineagePassesDown(g, task, execution.ctx, i);
        EntriesHold(g, old(executions), old(listed), old(contexts), mid, midListed, midContexts, execution.ctx, task, i, deps);
        deps := AddEntry(g, execution, task, i, deps, open);
        OneMoreAdded(g, old(executions), old(listed), old(contexts), mid, midListed, midContexts,
                     executions, listed, contexts, execution.ctx, task, i, sofar, deps);
      }
    }

    /** One round of that loop: adds the `i`-th dependency and links it with the execution. */
    method AddEntry(g: Dag, execution: TaskExecution, task: Task, i: nat, sofar: seq<TaskExecution>,
                    ghost open: set<TaskExecution>)
      returns (deps: seq<TaskExecution>)
      requires Valid(g, open) && task in g.deps && i < |g.deps[task]| && execution in open && execution.definition == task
      requires g.deps[task][i] in g.rank && g.deps[task][i] in g.deps && g.rank[g.deps[task][i]] < g.rank[task]
      requires Above(g, execution.ctx, g.deps[task][i]) && Owners(execution.ctx) <= TasksOf(open)
      requires AllHold(executions, sofar)
      modifies this, executions.Values`dependents
      ensures Valid(g, open) && OnlyNew() && Extends(old(executions), executions)
      ensures EntryAdded(g, old(executions), old(listed), old(contexts), executions, listed, contexts, execution.ctx,
                         task, i, sofar, deps)
      ensures g.deps[task][i] in executions && (g.deps[task][i] !in old(executions) ==>
        executions[g.deps[task][i]].ctx == Child(execution.ctx, g.deps[task][i], 0))
      decreases g.rank[task], 0, 0
    {
      hide Acyclic, AllDeps, Sound, Grew, Above, Ids, TasksOf, Owners, Holds, Handed, Stored, EntryAdded, AllHold;
      hide TaskExecution.Fields;
      var depExec, depDeps := Add(g, execution.ctx, g.deps[task][i], open);
      ghost var now := listed;
      GrewExtends(g, old(executions), old(listed), executions, listed, g.deps[task][i]);
      FiledDeps(g, open, this, g.deps[task][i]);
      LinkIsSound(g, open, Stored(), g.deps[task][i], execution);
      Named(g, open, Stored());
      Link(g.deps[task][i], depExec, execution);
      deps := sofar + depDeps + [depExec];
      IdsOfEntry(sofar, depDeps, depExec);
      EntryHolds(old(executions), executions, sofar, depDeps, depExec);
      EntryIsAdded(g, old(executions), old(listed), old(contexts), executions, now, listed, contexts, execution.ctx, task, i,
                   sofar, deps);
    }
  }
}
