/** Task identities, invalidation events, contexts and the dependency graph of task definitions. */
module Tasks {

  /** A task is known by the identity of its definition (a pointer in the source). */
  type Task = nat

  datatype Option<+T> = None | Some(value: T)

  /** Reasons for an invalidation; `Other` stands for events defined outside the executor. */
  datatype Event =
    | FileChange(file: string)
    | DependencyChange(source: Task)
    | KeepAliveStopped
    | UserRestart
    | Other(id: nat)

  /** A cancellation context. A child is identified by the task it was made for and by how many
      contexts that task had before it. */
  datatype Ctx = Root | Child(parent: Ctx, owner: Task, gen: nat)

  /** A context is done once it or any context above it was cancelled. */
  predicate Cancelled(ctx: Ctx, cancelled: set<Ctx>) {
    ctx in cancelled || (ctx.Child? && Cancelled(ctx.parent, cancelled))
  }

  /** The tasks whose contexts lie on the chain from `ctx` up to the root. */
  function Owners(ctx: Ctx): set<Task> {
    match ctx
    case Root => {}
    case Child(parent, owner, _) => Owners(parent) + {owner}
  }

  /** Every context of the chain is the first one its task had. */
  predicate Original(ctx: Ctx) {
    ctx.Child? ==> ctx.gen == 0 && Original(ctx.parent)
  }

  /** `rank` certifies that the dependency lists are acyclic. */
  datatype Graph = Graph(deps: map<Task, seq<Task>>, rank: map<Task, nat>)

  ghost predicate Acyclic(g: Graph) {
    && g.rank.Keys == g.deps.Keys
    && forall t, d :: t in g.deps && d in g.deps[t] ==> d in g.deps && g.rank[d] < g.rank[t]
  }

  type Dag = g: Graph | Acyclic(g) witness Graph(map[], map[])
}
