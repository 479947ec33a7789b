/** The graph-building part of Run: the task set for the desired task names, and what it provides to the
    step machine. */
module Construction {
  import opened Tasks
  import opened TaskGraph
  import opened Machine
  import opened Executions

  datatype BuildResult = Built(tasks: TaskSet) | UndefinedTaskName(name: string)

  /** The tasks that the registry has for `names`, with everything they depend on. */
  function Closure(g: Dag, registry: map<string, Task>, names: seq<string>): set<Task> {
    if names == [] then {}
    else
      var last := names[|names| - 1];
      Closure(g, registry, names[..|names| - 1])
      + if last in registry && registry[last] in g.deps
        then {registry[last]} + Elements(AllDeps(g, registry[last])) else {}
  }

  ghost predicate Contains(registry: map<string, Task>, names: seq<string>, tasks: set<Task>) {
    forall n :: n in names && n in registry ==> registry[n] in tasks
  }

  ghost predicate DownwardClosed(g: Dag, tasks: set<Task>) {
    forall t, d :: t in tasks && t in g.deps && d in g.deps[t] ==> d in tasks
  }

  lemma {:induction false} ClosedUnderAll(g: Dag, tasks: set<Task>, t: Task, x: Task)
    requires DownwardClosed(g, tasks) && t in g.deps && t in tasks && x in AllDeps(g, t)
    ensures x in tasks
    decreases g.rank[t]
  {
    ListedFrom(g, t, |g.deps[t]|, x);
    var k :| 0 <= k < |g.deps[t]| && (g.deps[t][k] == x || x in AllDeps(g, g.deps[t][k]));
    if g.deps[t][k] != x {
      ClosedUnderAll(g, tasks, g.deps[t][k], x);
    }
  }

  /** The closure is the least set of tasks that has the desired ones and is closed under Dependencies. */
  lemma {:induction false} ClosureIsLeast(g: Dag, registry: map<string, Task>, names: seq<string>, tasks: set<Task>)
    requires registry.Values <= g.deps.Keys
    ensures Contains(registry, names, Closure(g, registry, names)) && DownwardClosed(g, Closure(g, registry, names))
    ensures Contains(registry, names, tasks) && DownwardClosed(g, tasks) ==> Closure(g, registry, names) <= tasks
  {
    if names != [] {
      var last, init := names[|names| - 1], names[..|names| - 1];
      ClosureIsLeast(g, registry, init, tasks);
      assert names == init + [last];
      if last in registry {
        assert registry[last] in registry.Values;
        AddedIsClosed(g, registry[last], tasks);
      }
    }
  }

  lemma AddedIsClosed(g: Dag, t: Task, tasks: set<Task>)
    requires t in g.deps
    ensures DownwardClosed(g, {t} + Elements(AllDeps(g, t)))
    ensures t in tasks && DownwardClosed(g, tasks) ==> Elements(AllDeps(g, t)) <= tasks
  {
    forall u, d | u in {t} + Elements(AllDeps(g, t)) && u in g.deps && d in g.deps[u] ensures d in AllDeps(g, t) {
      var k :| 0 <= k < |g.deps[u]| && g.deps[u][k] == d;
      ListedFrom(g, u, |g.deps[u]|, d);
      if u != t { DepsAreClosed(g, t, u); }
    }
    if t in tasks && DownwardClosed(g, tasks) {
      forall x | x in AllDeps(g, t) ensures x in tasks { ClosedUnderAll(g, tasks, t, x); }
    }
  }

  /** The whole set has grown from nothing. */
  ghost predicate Complete(g: Dag, s: Contents) {
    Sound(g, {}, s) && Grown(g, map[], s.listed, s.executions.Keys)
  }

  lemma GrownTwice(g: Dag, was: map<Task, seq<Task>>, mid: map<Task, seq<Task>>, now: map<Task, seq<Task>>,
                   a: set<Task>, b: set<Task>)
    requires Grown(g, was, mid, a) && Grown(g, mid, now, b) && a !! b
    ensures Grown(g, was, now, a + b)
  {
    forall d, t ensures Count(now, d, t) == Count(was, d, t) + ListedBy(g, a + b, t, d) {
      assert Count(mid, d, t) == Count(was, d, t) + ListedBy(g, a, t, d);
    }
  }

  /** What the set has after the first `i` names. */
  ghost predicate BuiltUpTo(g: Dag, registry: map<string, Task>, names: seq<string>, i: nat,
                            executions: map<Task, TaskExecution>, listed: map<Task, seq<Task>>)
    requires i <= |names|
  {
    executions.Keys == Closure(g, registry, names[..i]) && Grown(g, map[], listed, executions.Keys)
  }

  lemma BuiltOneMore(g: Dag, registry: map<string, Task>, names: seq<string>, i: nat,
                     was: map<Task, TaskExecution>, wasListed: map<Task, seq<Task>>,
                     now: map<Task, TaskExecution>, nowListed: map<Task, seq<Task>>)
    requires i < |names| && BuiltUpTo(g, registry, names, i, was, wasListed)
    requires names[i] in registry && registry[names[i]] in g.deps
    requires Grew(g, was, wasListed, now, nowListed, registry[names[i]])
    ensures BuiltUpTo(g, registry, names, i + 1, now, nowListed)
  {
    hide Acyclic, AllDeps, Grown, Elements;
    GrownTwice(g, map[], wasListed, nowListed, was.Keys, now.Keys - was.Keys);
    assert was.Keys + (now.Keys - was.Keys) == now.Keys;
    assert names[..i + 1][..i] == names[..i];
  }

  function Desired(registry: map<string, Task>, names: seq<string>): set<Task> {
    set k | 0 <= k < |names| && names[k] in registry :: registry[names[k]]
  }

  /** The first context of `t` is a child of the root, if `t` is desired, or of the first context of a task
      that lists `t`. */
  ghost predicate ContextHangs(g: Dag, desired: set<Task>, contexts: map<Task, Ctx>, t: Task)
    requires t in contexts
  {
    || (t in desired && contexts[t] == Child(Root, t, 0))
    || exists u :: u in contexts && u in g.deps && t in g.deps[u] && contexts[t] == Child(contexts[u], t, 0)
  }

  ghost predicate AllHang(g: Dag, desired: set<Task>, contexts: map<Task, Ctx>) {
    forall t {:trigger ContextHangs(g, desired, contexts, t)} :: t in contexts ==> ContextHangs(g, desired, contexts, t)
  }

  lemma HangsOneMore(g: Dag, registry: map<string, Task>, names: seq<string>, i: nat, was: map<Task, Ctx>, now: map<Task, Ctx>)
    requires i < |names| && names[i] in registry && AllHang(g, Desired(registry, names[..i]), was)
    requires Handed(g, was, now, Root, registry[names[i]])
    ensures AllHang(g, Desired(registry, names[..i + 1]), now)
  {
    hide Acyclic;
    var before, after := Desired(registry, names[..i]), Desired(registry, names[..i + 1]);
    DesiredGrows(registry, names, i);
    forall t | t in now ensures ContextHangs(g, after, now, t) {
      if t in was {
        assert ContextHangs(g, before, was, t);
      } else if t != registry[names[i]] {
        assert HangsBelow(g, was, now, t);
      }
    }
  }

  lemma DesiredGrows(registry: map<string, Task>, names: seq<string>, i: nat)
    requires i < |names| && names[i] in registry
    ensures Desired(registry, names[..i + 1]) == Desired(registry, names[..i]) + {registry[names[i]]}
  {
    var before, after := names[..i], names[..i + 1];
    assert after[i] == names[i] && forall k :: 0 <= k < i ==> before[k] == after[k];
  }

  lemma OwnContexts(g: Dag, tasks: TaskSet)
    requires tasks.Valid(g, {})
    ensures tasks.contexts.Keys == tasks.executions.Keys
    ensures forall t :: t in tasks.executions ==> tasks.executions[t].ctx == tasks.contexts[t]
  {
    hide Acyclic, TaskSet.Valid;
    forall t | t in tasks.executions ensures tasks.executions[t].ctx == tasks.contexts[t] {
      tasks.OwnContext(g, {}, t);
    }
  }

  /** The loop of Run over the desired names: it stops at the first one that is not registered. */
  method Build(g: Dag, registry: map<string, Task>, names: seq<string>) returns (r: BuildResult)
    requires registry.Values <= g.deps.Keys
    ensures r.UndefinedTaskName? <==> exists i :: 0 <= i < |names| && names[i] !in registry
    ensures r.UndefinedTaskName? ==> FirstUndefined(registry, names, r.name)
    ensures r.Built? ==> fresh(r.tasks) && Complete(g, r.tasks.Stored())
    ensures r.Built? ==> r.tasks.executions.Keys == Closure(g, registry, names)
    ensures r.Built? ==> forall t :: t in r.tasks.executions ==> fresh(r.tasks.executions[t])
    ensures r.Built? ==> r.tasks.contexts.Keys == r.tasks.executions.Keys
    ensures r.Built? ==> forall t :: t in r.tasks.executions ==> r.tasks.executions[t].ctx == r.tasks.contexts[t]
    ensures r.Built? ==> AllHang(g, Desired(registry, names), r.tasks.contexts)
  {
    hide Acyclic, AllDeps, Sound, Grown, Above, Closure, Elements, BuiltUpTo, TaskSet.Valid, TaskSet.Stored;
    hide Handed, AllHang, Desired;
    var tasks := new TaskSet(g);
    assert BuiltUpTo(g, registry, names, 0, tasks.executions, tasks.listed) by { NothingBuilt(g, registry, names); }
    assert AllHang(g, Desired(registry, names[..0]), map[]) by { NothingHangs(g, Desired(registry, names[..0])); }
    for i := 0 to |names|
      invariant forall k :: 0 <= k < i ==> names[k] in registry
      invariant fresh(tasks) && tasks.Valid(g, {})
      invariant BuiltUpTo(g, registry, names, i, tasks.executions, tasks.listed)
      invariant AllHang(g, Desired(registry, names[..i]), tasks.contexts)
      invariant forall t :: t in tasks.executions ==> fresh(tasks.executions[t])
    {
      if names[i] !in registry {
        return UndefinedTaskName(names[i]);
      }
      ghost var was, wasListed, wasContexts := tasks.executions, tasks.listed, tasks.contexts;
      assert registry[names[i]] in registry.Values;
      RootIsAbove(g, registry[names[i]]);
      var _, _ := tasks.Add(g, Root, registry[names[i]], {});
      BuiltOneMore(g, registry, names, i, was, wasListed, tasks.executions, tasks.listed);
      HangsOneMore(g, registry, names, i, wasContexts, tasks.contexts);
    }
    BuiltInFull(g, registry, names, tasks);
    OwnContexts(g, tasks);
    assert names[..|names|] == names;
    return Built(tasks);
  }

  lemma NothingHangs(g: Dag, desired: set<Task>)
    ensures AllHang(g, desired, map[])
  {}

  ghost predicate FirstUndefined(registry: map<string, Task>, names: seq<string>, name: string) {
    exists i :: 0 <= i < |names| && names[i] == name && name !in registry && forall k :: 0 <= k < i ==> names[k] in registry
  }

  lemma RootIsAbove(g: Dag, t: Task)
    ensures Above(g, Root, t) && Owners(Root) == {}
  {}

  lemma NothingBuilt(g: Dag, registry: map<string, Task>, names: seq<string>)
    ensures BuiltUpTo(g, registry, names, 0, map[], map[])
  {
    NothingAdded(g, map[]);
    var none: map<Task, TaskExecution> := map[];
    assert none.Keys == {};
  }

  lemma BuiltInFull(g: Dag, registry: map<string, Task>, names: seq<string>, tasks: TaskSet)
    requires tasks.Valid(g, {}) && BuiltUpTo(g, registry, names, |names|, tasks.executions, tasks.listed)
    ensures tasks.executions.Keys == Closure(g, registry, names) && Complete(g, tasks.Stored())
  {
    assert names[..|names|] == names;
  }

  // ---------------------------------------------------------------------------------------------
  // What a finished set provides

  /** In a finished set, `d` has `t` as a dependent exactly as often as the definition of `t` lists `d`. */
  lemma DependentsAsListed(g: Dag, s: Contents, d: Task, t: Task)
    requires Complete(g, s) && d in s.executions
    ensures multiset(Ids(s.records[d].dependents))[t]
         == if t in s.executions && t in g.deps then multiset(g.deps[t])[d] else 0
  {
    assert Filed(g, {}, s, d);
    assert Count(s.listed, d, t) == Count(map[], d, t) + ListedBy(g, s.executions.Keys, t, d);
    if t in g.deps { assert g.deps[t][..|g.deps[t]|] == g.deps[t]; }
  }

  /** In a finished set, the list of `t` holds `d` once for every path of dependencies from `t` to `d`. */
  lemma DependenciesPerPath(g: Dag, s: Contents, t: Task, d: Task, paths: set<seq<nat>>)
    requires Complete(g, s) && t in s.executions && t in g.deps
    requires forall p :: p in paths <==> IsPath(g, t, p, d)
    ensures multiset(Ids(s.records[t].dependencies))[d] == |paths|
  {
    assert Filed(g, {}, s, t);
    MultiplicityIsPathCount(g, t, d, paths);
  }

  /** What the machine's configuration takes over from a finished set. */
  ghost predicate Provides(g: Dag, s: Contents, c: Setup, top: nat) {
    && s.executions.Keys == s.records.Keys && s.executions.Keys <= g.rank.Keys
    && c.tasks == c.below.Keys == c.dependents.Keys == c.origin.Keys == c.height.Keys == s.executions.Keys
    && forall t {:trigger ProvidesFor(g, s, c, top, t)} :: t in c.tasks ==> ProvidesFor(g, s, c, top, t)
  }

  ghost predicate ProvidesFor(g: Dag, s: Contents, c: Setup, top: nat, t: Task)
    requires t in s.records && t in g.rank && t in c.below && t in c.dependents && t in c.origin && t in c.height
  {
    && c.below[t] == Below(s, t) && c.dependents[t] == Ids(s.records[t].dependents)
    && c.origin[t] == s.records[t].view.ctx && c.height[t] + g.rank[t] == top
  }

  ghost function Below(s: Contents, t: Task): set<Task>
    requires t in s.records
  {
    Elements(Ids(s.records[t].dependencies))
  }

  lemma DomainsOf(g: Dag, s: Contents)
    requires Complete(g, s)
    ensures s.executions.Keys == s.records.Keys == s.contexts.Keys && s.executions.Keys <= g.rank.Keys
    ensures s.executions.Keys <= g.deps.Keys
  {}

  lemma BelowOf(g: Dag, s: Contents, t: Task)
    requires Complete(g, s) && t in s.executions
    ensures t in s.records && t in g.deps && Below(s, t) == Elements(AllDeps(g, t))
    ensures forall d :: d in Below(s, t) ==> d in s.executions
  {
    hide Acyclic, AllDeps, Lineage, Ids;
    assert Filed(g, {}, s, t);
  }

  lemma SetupDeps(g: Dag, s: Contents, t: Task, d: Task)
    requires Complete(g, s) && t in s.executions && t in s.records && d in Below(s, t)
    ensures d in s.executions && d in s.records && d in g.rank && t in g.rank && g.rank[d] < g.rank[t]
    ensures Below(s, d) <= Below(s, t)
  {
    hide AllDeps, Complete, Sound, Below;
    BelowOf(g, s, t);
    BelowOf(g, s, d);
    DepsAreClosed(g, t, d);
  }

  lemma SetupDependents(g: Dag, s: Contents, t: Task, u: Task)
    requires Complete(g, s) && t in s.executions && t in s.records
    ensures u in Ids(s.records[t].dependents) <==> u in s.executions && u in g.deps && t in g.deps[u]
    ensures u in Ids(s.records[t].dependents) ==> u in s.records && t in Below(s, u)
  {
    DependentsAsListed(g, s, t, u);
    assert u in Ids(s.records[t].dependents) <==> u in multiset(Ids(s.records[t].dependents));
    if u in s.executions && u in g.deps {
      assert t in g.deps[u] <==> t in multiset(g.deps[u]);
      BelowOf(g, s, u);
      ListedFrom(g, u, |g.deps[u]|, t);
    }
  }

  /** A dependency is listed by the definition itself or is below an entry that is. */
  lemma EntryToward(g: Dag, u: Task, t: Task) returns (y: Task)
    requires u in g.deps && t in AllDeps(g, u)
    ensures y in g.deps && y in g.deps[u] && y in AllDeps(g, u) && (y == t || t in AllDeps(g, y))
  {
    ListedFrom(g, u, |g.deps[u]|, t);
    var k :| 0 <= k < |g.deps[u]| && (g.deps[u][k] == t || t in AllDeps(g, g.deps[u][k]));
    y := g.deps[u][k];
    ListedFrom(g, u, |g.deps[u]|, y);
  }

  lemma SetupLinks(g: Dag, s: Contents, t: Task, u: Task) returns (y: Task)
    requires Complete(g, s) && t in s.executions && u in s.executions && t in s.records && u in s.records && t in Below(s, u)
    ensures u in Ids(s.records[t].dependents)
         || (y in s.executions && y in s.records && y in Below(s, u) && t in Below(s, y) && u in Ids(s.records[y].dependents))
  {
    hide Complete, Below, Acyclic, AllDeps, Ids;
    BelowOf(g, s, u);
    y := EntryToward(g, u, t);
    SetupDependents(g, s, t, u);
    if y != t {
      BelowOf(g, s, y);
      SetupDependents(g, s, y, u);
    }
  }

  lemma SetupOrigin(g: Dag, s: Contents, t: Task)
    requires Complete(g, s) && t in s.executions && t in s.records && s.records.Keys == s.executions.Keys
    ensures s.records[t].view == Execution(Invalid, s.records[t].view.ctx, 0, {}, 0, 0, [])
    ensures s.records[t].view.ctx.Child? && s.records[t].view.ctx.owner == t && Original(s.records[t].view.ctx)
    ensures forall a :: a in Owners(s.records[t].view.ctx.parent) ==> a in s.executions && t in Below(s, a)
  {
    assert Filed(g, {}, s, t);
    assert TasksOf({}) == {};
    hide AllDeps, Ids, Complete;
    forall a | a in Owners(s.records[t].view.ctx.parent) ensures a in s.executions && t in Below(s, a) {
      BelowOf(g, s, a);
    }
  }

  lemma DepsProvided(g: Dag, s: Contents, c: Setup, top: nat, t: Task, d: Task)
    requires Complete(g, s) && Provides(g, s, c, top) && t in c.tasks && d in c.below[t]
    ensures d in c.tasks && c.height[t] < c.height[d] && c.below[d] <= c.below[t]
  {
    hide Acyclic, Complete, Ids, Below, Owners;
    assert ProvidesFor(g, s, c, top, t);
    SetupDeps(g, s, t, d);
    assert ProvidesFor(g, s, c, top, d);
  }

  lemma DependentsProvided(g: Dag, s: Contents, c: Setup, top: nat, t: Task, u: Task)
    requires Complete(g, s) && Provides(g, s, c, top) && t in c.tasks && u in c.dependents[t]
    ensures u in c.tasks && t in c.below[u]
  {
    hide Acyclic, Complete, Ids, Below, Owners;
    assert ProvidesFor(g, s, c, top, t);
    SetupDependents(g, s, t, u);
    assert ProvidesFor(g, s, c, top, u);
  }

  lemma OriginProvided(g: Dag, s: Contents, c: Setup, top: nat, t: Task)
    requires Complete(g, s) && Provides(g, s, c, top) && t in c.tasks
    ensures OriginOk(c, t) && s.records[t].view == Execution(Invalid, c.origin[t], 0, {}, 0, 0, [])
  {
    hide Acyclic, Complete, Ids, Below, Owners;
    assert ProvidesFor(g, s, c, top, t);
    SetupOrigin(g, s, t);
    forall a | a in Owners(c.origin[t].parent) ensures a in c.tasks && t in c.below[a] {
      assert ProvidesFor(g, s, c, top, a);
    }
  }

  /** So the machine starts with these contexts: the first context of a task is a child of the root, if the task
      is desired, or of that of one of its dependents; a task that is not desired never hangs below the root. */
  lemma OriginsHang(g: Dag, s: Contents, c: Setup, top: nat, desired: set<Task>, t: Task)
    requires Complete(g, s) && Provides(g, s, c, top) && AllHang(g, desired, s.contexts) && t in c.tasks
    requires c.origin.Keys == c.dependents.Keys == c.tasks
    ensures (t in desired && c.origin[t] == Child(Root, t, 0))
         || exists u :: u in c.tasks && u in c.dependents[t] && c.origin[t] == Child(c.origin[u], t, 0)
    ensures t !in desired ==> c.origin[t].Child? && c.origin[t].parent != Root
  {
    hide Acyclic, Complete, Provides;
    OriginFiled(g, s, c, top, t);
    assert ContextHangs(g, desired, s.contexts, t);
    if !(t in desired && s.contexts[t] == Child(Root, t, 0)) {
      var u :| u in s.contexts && u in g.deps && t in g.deps[u] && s.contexts[t] == Child(s.contexts[u], t, 0);
      DomainsOf(g, s);
      KeysProvided(g, s, c, top);
      OriginFiled(g, s, c, top, u);
      DependentsAsListed(g, s, t, u);
      assert multiset(c.dependents[t])[u] > 0;
    }
  }

  lemma OriginFiled(g: Dag, s: Contents, c: Setup, top: nat, t: Task)
    requires Complete(g, s) && Provides(g, s, c, top) && t in c.tasks
    ensures t in s.contexts && t in s.executions && t in c.origin && c.origin[t] == s.contexts[t] && c.origin[t].Child?
    ensures t in s.records && t in c.dependents && c.dependents[t] == Ids(s.records[t].dependents)
  {
    hide Acyclic, AllDeps, Ids, Below, Owners;
    assert ProvidesFor(g, s, c, top, t) && Filed(g, {}, s, t);
  }

  lemma LinkProvided(g: Dag, s: Contents, c: Setup, top: nat, t: Task, u: Task)
    requires Complete(g, s) && Provides(g, s, c, top) && t in c.tasks && u in c.tasks && t in c.below[u]
    ensures LinkedOver(c, t, u)
  {
    hide Acyclic, Complete, Ids, Below, Owners;
    assert ProvidesFor(g, s, c, top, t) && ProvidesFor(g, s, c, top, u);
    var y := SetupLinks(g, s, t, u);
    if u !in c.dependents[t] {
      assert ProvidesFor(g, s, c, top, y);
    }
  }

  lemma SetupProvided(g: Dag, s: Contents, c: Setup, top: nat)
    requires Complete(g, s) && Provides(g, s, c, top)
    ensures WellFormed(c)
  {
    hide Acyclic, Complete, Provides, Owners, OriginOk;
    KeysProvided(g, s, c, top);
    forall t, d | t in c.tasks && d in c.below[t] ensures DepOk(c, t, d) {
      DepsProvided(g, s, c, top, t, d);
    }
    forall t, u | t in c.tasks && u in c.dependents[t] ensures DependentOk(c, t, u) {
      DependentsProvided(g, s, c, top, t, u);
    }
    forall t | t in c.tasks ensures OriginOk(c, t) { OriginProvided(g, s, c, top, t); }
  }

  lemma SetupIsLinked(g: Dag, s: Contents, c: Setup, top: nat)
    requires Complete(g, s) && Provides(g, s, c, top) && WellFormed(c)
    ensures Linked(c)
  {
    hide Acyclic, Complete, Provides, Owners, OriginOk, WellFormed;
    KeysProvided(g, s, c, top);
    forall t, u | t in c.tasks && u in c.tasks && t in c.below[u] {
      LinkProvided(g, s, c, top, t, u);
    }
  }

  /** A finished set meets every assumption that the machine makes about its configuration, and the
      machine starts from the executions that the set holds. */
  lemma BuiltIsWellFormed(g: Dag, s: Contents, c: Setup, top: nat)
    requires Complete(g, s) && Provides(g, s, c, top)
    ensures WellFormed(c) && Linked(c)
    ensures forall t :: t in c.tasks ==> t in s.records && s.records[t].view == Init(c).exec[t]
  {
    hide Acyclic, Complete, Provides, OriginOk, WellFormed, Linked;
    SetupProvided(g, s, c, top);
    SetupIsLinked(g, s, c, top);
    KeysProvided(g, s, c, top);
    forall t | t in c.tasks ensures s.records[t].view == Execution(Invalid, c.origin[t], 0, {}, 0, 0, []) {
      OriginProvided(g, s, c, top, t);
    }
  }

  lemma KeysProvided(g: Dag, s: Contents, c: Setup, top: nat)
    requires Provides(g, s, c, top)
    ensures c.tasks == c.below.Keys == c.dependents.Keys == c.origin.Keys == c.height.Keys == s.records.Keys
  {}

  lemma RecordMatches(g: Dag, tasks: TaskSet, c: Config, top: nat, t: Task)
    requires Complete(g, tasks.Stored()) && Provides(g, tasks.Stored(), c, top) && t in c.tasks
    requires c.tasks == c.below.Keys == c.dependents.Keys == tasks.Stored().records.Keys == tasks.executions.Keys
    ensures tasks.MatchesFor(c, t) && tasks.executions[t].View() == tasks.Stored().records[t].view
  {
    hide Acyclic, WellFormed, Ids, Elements, Complete, Provides, Holds;
    RecordProvided(g, tasks.Stored(), c, top, t);
    assert tasks.executions[t].Fields() == tasks.Stored().records[t];
  }

  /** So the executor can run on the set that was built, and the machine starts in the state it is in. */
  lemma BuiltMatches(g: Dag, tasks: TaskSet, c: Config, top: nat)
    requires Complete(g, tasks.Stored()) && Provides(g, tasks.Stored(), c, top)
    ensures tasks.Matches(c) && tasks.Views() == Init(c).exec
  {
    hide Acyclic, WellFormed, Linked, Complete, Provides, TaskSet.MatchesFor, TaskSet.Stored, TaskExecution.View;
    KeysProvided(g, tasks.Stored(), c, top);
    StoredKeys(tasks);
    forall t | t in c.tasks ensures tasks.MatchesFor(c, t) && tasks.executions[t].View() == Init(c).exec[t] {
      BuiltIsWellFormed(g, tasks.Stored(), c, top);
      RecordMatches(g, tasks, c, top, t);
    }
    tasks.Shows(Init(c).exec);
  }

  lemma StoredKeys(tasks: TaskSet)
    ensures tasks.Stored().records.Keys == tasks.executions.Keys
  {}

  lemma RecordProvided(g: Dag, s: Contents, c: Setup, top: nat, t: Task)
    requires Complete(g, s) && Provides(g, s, c, top) && t in c.tasks
    requires c.tasks == c.below.Keys == c.dependents.Keys == s.records.Keys
    ensures s.records[t].definition == t
    ensures Elements(Ids(s.records[t].dependencies)) == c.below[t] && Ids(s.records[t].dependents) == c.dependents[t]
    ensures forall d :: d in s.records[t].dependencies + s.records[t].dependents ==> Holds(s.executions, d)
  {
    assert Filed(g, {}, s, t);
    hide Acyclic, Ids, Elements, Sound, Lineage, Holds;
    assert ProvidesFor(g, s, c, top, t);
  }

  ghost function Heights(g: Dag, tasks: set<Task>, top: nat): (m: map<Task, nat>)
    requires tasks <= g.rank.Keys && forall t :: t in g.rank ==> g.rank[t] <= top
    ensures m.Keys == tasks && forall t :: t in tasks ==> m[t] + g.rank[t] == top
  {
    map t | t in tasks :: top - g.rank[t]
  }

  /** Such a configuration exists for every finished set. */
  lemma SetupExists(g: Dag, s: Contents, top: nat, keepAlive: set<Task>,
                    accepts: (Task, Event) -> bool) returns (c: Setup)
    requires Complete(g, s) && forall t :: t in g.rank ==> g.rank[t] <= top
    ensures Provides(g, s, c, top) && c.keepAlive == keepAlive && c.accepts == accepts
  {
    hide Acyclic, Complete, Ids, Below, Owners, Heights;
    DomainsOf(g, s);
    c := Setup(s.executions.Keys,
               map t | t in s.records :: Below(s, t),
               map t | t in s.records :: Ids(s.records[t].dependents),
               map t | t in s.records :: s.records[t].view.ctx,
               Heights(g, s.records.Keys, top),
               keepAlive, accepts);
    assert c.below.Keys == s.records.Keys && c.dependents.Keys == s.records.Keys && c.origin.Keys == s.records.Keys;
    forall t | t in c.tasks ensures ProvidesFor(g, s, c, top, t) {}
    assert c.tasks == c.below.Keys == c.dependents.Keys == c.origin.Keys == c.height.Keys == s.executions.Keys;
  }
}
