/** The executor's loops over its executions: one pass, and the collecting half of a plan. */
module Executor {
  import opened Tasks
  import opened TaskGraph
  import opened Machine
  import opened Executions

  /** The pass as one action: every task that is ready when it begins is started, nothing else changes. */
  ghost predicate Passed(c: Config, was: map<Task, Execution>, now: map<Task, Execution>, unvisited: set<Task>) {
    && was.Keys == now.Keys == c.tasks == c.below.Keys
    && (forall t :: t in c.tasks ==> c.below[t] <= c.tasks)
    && forall t {:trigger now[t]} :: t in c.tasks ==> now[t] == if t !in unvisited && Ready(c, was, t) then Begun(was[t]) else was[t]
  }

  /** Starting one task makes no other task ready, and keeps none from being ready. */
  lemma ReadyStays(c: Config, was: map<Task, Execution>, now: map<Task, Execution>, unvisited: set<Task>, t: Task)
    requires Passed(c, was, now, unvisited) && t in unvisited && t in c.tasks
    ensures Ready(c, now, t) <==> Ready(c, was, t)
  {
    hide WellFormed;
    forall d | d in c.below[t] ensures now[d].state == Done <==> was[d].state == Done {
      assert now[d] == if d !in unvisited && Ready(c, was, d) then Begun(was[d]) else was[d];
    }
  }

  lemma PassedOneMore(c: Config, was: map<Task, Execution>, mid: map<Task, Execution>, now: map<Task, Execution>,
                      unvisited: set<Task>, t: Task)
    requires Passed(c, was, mid, unvisited) && t in unvisited && t in c.tasks
    requires now == if Ready(c, mid, t) then mid[t := Begun(mid[t])] else mid
    ensures Passed(c, was, now, unvisited - {t})
  {
    hide WellFormed, Ready, Begun;
    ReadyStays(c, was, mid, unvisited, t);
    assert mid[t] == was[t];
    forall u | u in c.tasks
      ensures now[u] == if u !in unvisited - {t} && Ready(c, was, u) then Begun(was[u]) else was[u]
    {
      if u != t {
        assert now[u] == mid[u];
      }
    }
  }

  lemma NothingPassed(c: Config, was: map<Task, Execution>)
    requires was.Keys == c.tasks
    ensures c.below.Keys == c.tasks && Passed(c, was, was, c.tasks) && SpawnedOnce(c, was, c.tasks, [])
  {
    Domains(c);
    forall t | t in c.tasks ensures c.below[t] <= c.tasks { BelowIsInside(c, t); }
  }

  /** `spawned` has every task that is ready in `was` and is not in `unvisited`, once. */
  ghost predicate SpawnedOnce(c: Config, was: map<Task, Execution>, unvisited: set<Task>, spawned: seq<Task>)
    requires Passed(c, was, was, c.tasks)
  {
    forall t :: multiset(spawned)[t] == if t in c.tasks && t !in unvisited && Ready(c, was, t) then 1 else 0
  }

  lemma SpawnedOneMore(c: Config, was: map<Task, Execution>, unvisited: set<Task>, spawned: seq<Task>, t: Task)
    requires Passed(c, was, was, c.tasks) && SpawnedOnce(c, was, unvisited, spawned) && t in unvisited && t in c.tasks
    ensures SpawnedOnce(c, was, unvisited - {t}, if Ready(c, was, t) then spawned + [t] else spawned)
  {
    hide WellFormed, Ready;
  }

  /** What ShouldExecute looks at says whether the task is ready. */
  lemma ShouldIsReady(c: Config, tasks: TaskSet, x: TaskExecution)
    requires tasks.Matches(c) && x.definition in c.tasks && tasks.executions.Keys == c.tasks && x == tasks.executions[x.definition]
    ensures c.below.Keys == c.tasks && c.below[x.definition] <= c.tasks
    ensures x.state == Invalid && (forall d :: d in x.dependencies ==> d.state == Done)
       <==> Ready(c, tasks.Views(), x.definition)
  {
    hide WellFormed, TaskSet.Matches, TaskSet.MatchesFor;
    tasks.KnowsDependencies(c, x.definition);
    var exec := tasks.Views();
    forall d | d in c.below[x.definition] ensures exec[d].state == tasks.executions[d].state {}
    forall d | d in x.dependencies ensures exec[d.definition].state == d.state {}
  }

  /** The machine's visits of one pass in the given order, with no other step in between. */
  ghost function VisitAll(c: Config, s: State, th: ThreadId, order: seq<Task>): (s': State)
    requires s.exec.Keys == c.tasks && s.lock.Passer? && forall t :: t in order ==> t in c.tasks
    ensures s'.exec.Keys == c.tasks && s'.lock.Passer?
  {
    if order == [] then s
    else Visited(c, VisitAll(c, s, th, order[..|order| - 1]), th, order[|order| - 1])
  }

  lemma VisitIsPass(c: Config, was: map<Task, Execution>, s: State, th: ThreadId, unvisited: set<Task>, t: Task)
    requires s.exec.Keys == c.tasks && s.lock.Passer? && t in c.tasks && t in unvisited
    requires Passed(c, was, s.exec, unvisited)
    ensures Passed(c, was, Visited(c, s, th, t).exec, unvisited - {t})
  {
    hide WellFormed, Passed;
    BelowIsInside(c, t);
    PassedOneMore(c, was, s.exec, Visited(c, s, th, t).exec, unvisited, t);
  }

  lemma {:induction false} VisitsInOrder(c: Config, s: State, th: ThreadId, order: seq<Task>)
    requires s.exec.Keys == c.tasks && s.lock.Passer? && forall t :: t in order ==> t in c.tasks
    requires forall i, j :: 0 <= i < j < |order| ==> order[i] != order[j]
    ensures Passed(c, s.exec, VisitAll(c, s, th, order).exec, c.tasks - Elements(order))
  {
    hide WellFormed, Passed;
    if order == [] {
      NothingPassed(c, s.exec);
      assert c.tasks - Elements(order) == c.tasks;
    } else {
      var init, last := order[..|order| - 1], order[|order| - 1];
      VisitsInOrder(c, s, th, init);
      assert order == init + [last] && last !in init;
      VisitIsPass(c, s.exec, VisitAll(c, s, th, init), th, c.tasks - Elements(init), last);
      assert c.tasks - Elements(init) - {last} == c.tasks - Elements(order);
    }
  }

  /** Whatever order the map iteration takes, an undisturbed pass of the machine does what RunPass does. */
  lemma PassInAnyOrder(c: Config, s: State, th: ThreadId, order: seq<Task>)
    requires s.exec.Keys == c.tasks && s.lock.Passer? && Elements(order) == c.tasks
    requires forall i, j :: 0 <= i < j < |order| ==> order[i] != order[j]
    ensures forall t :: t in order ==> t in c.tasks
    ensures Passed(c, s.exec, VisitAll(c, s, th, order).exec, {})
  {
    hide WellFormed, Passed;
    assert forall t :: t in order ==> t in Elements(order);
    VisitsInOrder(c, s, th, order);
    assert c.tasks - Elements(order) == {};
  }

  class Executor {
    var tasks: TaskSet
    // True once the executor's context is done.
    var down: bool

    constructor (tasks: TaskSet)
      ensures this.tasks == tasks && !down
    {
      this.tasks, down := tasks, false;
    }

    /** Starts the task if it should be executed. */
    method Visit(ghost c: Config, t: Task, execution: TaskExecution) returns (started: bool)
      requires tasks.Matches(c) && Holds(tasks.executions, execution) && t == execution.definition
      modifies execution`state, execution`starts
      ensures tasks.Matches(c) && c.below.Keys == c.tasks == tasks.executions.Keys && c.below[t] <= c.tasks
      ensures started <==> Ready(c, old(tasks.Views()), t)
      ensures tasks.Views() == if started then old(tasks.Views())[t := Begun(old(tasks.Views())[t])] else old(tasks.Views())
    {
      hide WellFormed, TaskSet.Matches, TaskSet.MatchesFor, TaskSet.Views, Ready;
      tasks.Knows(c, execution);
      ghost var was := tasks.Views();
      ShouldIsReady(c, tasks, execution);
      started := execution.ShouldExecute();
      if started {
        execution.Begin();
        tasks.ShowsChange(was, t, Begun(was[t]));
      }
    }

    /** One pass. The order of the visits, a map iteration, is left open. `spawned` lists the runs. */
    method RunPass(ghost c: Config) returns (spawned: seq<Task>)
      requires tasks.Matches(c)
      modifies tasks.executions.Values`state, tasks.executions.Values`starts
      ensures down ==> spawned == [] && tasks.Views() == old(tasks.Views())
      ensures !down ==> Passed(c, old(tasks.Views()), tasks.Views(), {})
      ensures Passed(c, old(tasks.Views()), old(tasks.Views()), c.tasks)
      ensures !down ==> SpawnedOnce(c, old(tasks.Views()), {}, spawned)
    {
      hide WellFormed, Passed, SpawnedOnce, Ready, TaskSet.Matches, TaskSet.MatchesFor;
      spawned := [];
      ghost var was := tasks.Views();
      tasks.KnowsTasks(c);
      NothingPassed(c, was);
      if down {
        return;
      }
      var unvisited := tasks.executions.Keys;
      while unvisited != {}
        invariant unvisited <= c.tasks && tasks.Matches(c)
        invariant Passed(c, was, tasks.Views(), unvisited)
        invariant SpawnedOnce(c, was, unvisited, spawned)
      {
        var t :| t in unvisited;
        tasks.KnowsDependencies(c, t);
        ghost var mid := tasks.Views();
        ReadyStays(c, was, mid, unvisited, t);
        SpawnedOneMore(c, was, unvisited, spawned, t);
        var started := Visit(c, t, tasks.executions[t]);
        PassedOneMore(c, was, mid, tasks.Views(), unvisited, t);
        if started {
          spawned := spawned + [t];
        }
        unvisited := unvisited - {t};
      }
    }

    /** Marks the task, and tells whether the invalidation loop has to be signalled. */
    method Invalidate(task: Task, event: Event, accepts: (Task, Event) -> bool, ghost c: Config) returns (signals: bool)
      requires tasks.Matches(c) && task in c.tasks && c.accepts == accepts
      modifies tasks.executions.Values`pending
      ensures tasks.Views() == AddMarks(old(tasks.Views()), Marks(c, InvalidIn(old(tasks.Views())), task, event))
      ensures task in old(tasks.Views()) && (signals <==> old(tasks.Views())[task].state != Invalid && accepts(task, event))
    {
      hide WellFormed, TaskSet.Matches, TaskSet.MatchesFor, Marks, AddMarks;
      tasks.KnowsTasks(c);
      tasks.KnowsDependencies(c, task);
      var didInvalidate := tasks.executions[task].Invalidate(event, accepts, c, tasks);
      signals := didInvalidate;
    }

    /** The first loop of a plan: which tasks it is going to invalidate, and the reasons it publishes. */
    method CollectPlan(ghost c: Config) returns (toInvalidate: seq<Task>, reasons: map<Task, set<Event>>)
      requires tasks.Matches(c)
      ensures forall t :: multiset(toInvalidate)[t] == if t in reasons then 1 else 0
      ensures forall s: State :: s.exec == tasks.Views() ==> s.exec.Keys == c.tasks && reasons.Keys == Collect(c, s)
      ensures forall t :: t in reasons ==> t in tasks.executions && reasons[t] == tasks.executions[t].pending
    {
      hide WellFormed;
      toInvalidate, reasons := [], map[];
      var unvisited := tasks.executions.Keys;
      while unvisited != {}
        invariant unvisited <= c.tasks
        invariant forall t :: multiset(toInvalidate)[t] == if t in reasons then 1 else 0
        invariant forall t :: t in reasons <==> t in tasks.executions && t !in unvisited && ToInvalidate(tasks.executions[t])
        invariant forall t :: t in reasons ==> reasons[t] == tasks.executions[t].pending
      {
        var t :| t in unvisited;
        var execution := tasks.executions[t];
        if ToInvalidate(execution) {
          reasons := reasons[t := execution.pending];
          toInvalidate := toInvalidate + [t];
        }
        unvisited := unvisited - {t};
      }
    }
  }

  predicate ToInvalidate(x: TaskExecution)
    reads x
  {
    x.pending != {} && x.state != Invalid
  }
}
