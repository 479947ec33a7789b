/** The flattened dependency lists that the task set stores, and what they mean in terms of paths. */
module TaskGraph {
  import opened Tasks

  /** The flattened dependencies contributed by the first `i` entries of `t`'s dependency list. */
  function DepsUpTo(g: Dag, t: Task, i: nat): seq<Task>
    requires t in g.deps && i <= |g.deps[t]|
    decreases g.rank[t], i
  {
    if i == 0 then []
    else
      var d := g.deps[t][i - 1];
      DepsUpTo(g, t, i - 1) + DepsUpTo(g, d, |g.deps[d]|) + [d]
  }

  /** All dependencies of `t`, direct and indirect, in the order in which they are stored. */
  function AllDeps(g: Dag, t: Task): seq<Task>
    requires t in g.deps
  {
    DepsUpTo(g, t, |g.deps[t]|)
  }

  lemma DepsUpToNone(g: Dag, t: Task)
    requires t in g.deps
    ensures DepsUpTo(g, t, 0) == []
  {}

  lemma DepsUpToMore(g: Dag, t: Task, i: nat)
    requires t in g.deps && 0 < i <= |g.deps[t]|
    ensures g.deps[t][i - 1] in g.deps && g.deps[t][i - 1] in g.rank && g.rank[g.deps[t][i - 1]] < g.rank[t]
    ensures DepsUpTo(g, t, i) == DepsUpTo(g, t, i - 1) + AllDeps(g, g.deps[t][i - 1]) + [g.deps[t][i - 1]]
  {
    assert g.deps[t][i - 1] in g.deps[t];
  }

  /** `p` lists, from `t` down, which entry of each dependency list is followed to reach `x`. */
  predicate IsPath(g: Dag, t: Task, p: seq<nat>, x: Task)
    requires t in g.deps
    decreases |p|
  {
    && |p| > 0
    && p[0] < |g.deps[t]|
    && var d := g.deps[t][p[0]];
       if |p| == 1 then d == x else IsPath(g, d, p[1..], x)
  }

  /** The paths from `t` to `x` that leave `t` through one of its first `i` entries. */
  function PathsUpTo(g: Dag, t: Task, i: nat, x: Task): set<seq<nat>>
    requires t in g.deps && i <= |g.deps[t]|
    decreases g.rank[t], i
  {
    if i == 0 then {}
    else
      var d := g.deps[t][i - 1];
      PathsUpTo(g, t, i - 1, x)
      + (if d == x then {[i - 1]} else {})
      + Prefixed(i - 1, PathsUpTo(g, d, |g.deps[d]|, x))
  }

  function Prefixed(k: nat, paths: set<seq<nat>>): set<seq<nat>> {
    set q | q in paths :: [k] + q
  }

  lemma {:induction false} PrefixedSize(k: nat, paths: set<seq<nat>>)
    ensures |Prefixed(k, paths)| == |paths|
  {
    if paths != {} {
      var p :| p in paths;
      PrefixedSize(k, paths - {p});
      assert [k] + p !in Prefixed(k, paths - {p}) by {
        forall q | q in paths - {p} ensures [k] + q != [k] + p {
          assert ([k] + q)[1..] == q && ([k] + p)[1..] == p;
        }
      }
      assert Prefixed(k, paths) == Prefixed(k, paths - {p}) + {[k] + p};
    }
  }

  lemma PrefixedMember(k: nat, paths: set<seq<nat>>, p: seq<nat>)
    ensures p in Prefixed(k, paths) <==> |p| > 0 && p[0] == k && p[1..] in paths
  {
    if |p| > 0 && p[0] == k && p[1..] in paths {
      assert p == [k] + p[1..];
    }
    if p in Prefixed(k, paths) {
      var q :| q in paths && p == [k] + q;
      assert p[1..] == q;
    }
  }

  /** `PathsUpTo` enumerates exactly the paths that start with one of the first `i` entries. */
  lemma {:induction false} PathsAreEnumerated(g: Dag, t: Task, i: nat, x: Task, p: seq<nat>)
    requires t in g.deps && i <= |g.deps[t]|
    ensures p in PathsUpTo(g, t, i, x) <==> IsPath(g, t, p, x) && p[0] < i
    decreases g.rank[t], i
  {
    if i > 0 {
      var d := g.deps[t][i - 1];
      var below := PathsUpTo(g, d, |g.deps[d]|, x);
      PathsAreEnumerated(g, t, i - 1, x, p);
      PrefixedMember(i - 1, below, p);
      if |p| > 1 && p[0] == i - 1 {
        PathsAreEnumerated(g, d, |g.deps[d]|, x, p[1..]);
      } else if |p| == 1 && p[0] == i - 1 {
        PathsAreEnumerated(g, d, |g.deps[d]|, x, []);
        assert p[1..] == [] && p == [i - 1];
      }
    }
  }

  lemma DisjointSizes<T>(a: set<T>, b: set<T>, c: set<T>)
    requires a !! b && (a + b) !! c
    ensures |a + b + c| == |a| + |b| + |c|
  {}

  /** The three groups of paths that the `i`-th entry leaves do not overlap. */
  lemma PathGroupsDisjoint(g: Dag, t: Task, i: nat, x: Task, below: set<seq<nat>>)
    requires t in g.deps && 0 < i <= |g.deps[t]|
    requires [] !in below
    ensures PathsUpTo(g, t, i - 1, x) !! {[i - 1]}
    ensures (PathsUpTo(g, t, i - 1, x) + {[i - 1]}) !! Prefixed(i - 1, below)
  {
    var earlier, later := PathsUpTo(g, t, i - 1, x), Prefixed(i - 1, below);
    forall p | p in earlier ensures p != [i - 1] && p !in later {
      PathsAreEnumerated(g, t, i - 1, x, p);
      PrefixedMember(i - 1, below, p);
    }
    PrefixedMember(i - 1, below, [i - 1]);
    assert [i - 1][1..] == [];
  }

  /** A task is listed once for every distinct path that leads to it. */
  lemma {:induction false} ListedOncePerPath(g: Dag, t: Task, i: nat, x: Task)
    requires t in g.deps && i <= |g.deps[t]|
    ensures multiset(DepsUpTo(g, t, i))[x] == |PathsUpTo(g, t, i, x)|
    decreases g.rank[t], i
  {
    if i > 0 {
      var d := g.deps[t][i - 1];
      var n := |g.deps[d]|;
      ListedOncePerPath(g, t, i - 1, x);
      ListedOncePerPath(g, d, n, x);
      var below := PathsUpTo(g, d, n, x);
      PrefixedSize(i - 1, below);
      PathsAreEnumerated(g, d, n, x, []);
      PathGroupsDisjoint(g, t, i, x, below);
      DisjointSizes(PathsUpTo(g, t, i - 1, x), if d == x then {[i - 1]} else {}, Prefixed(i - 1, below));
    }
  }

  /** The stored list of `t` holds `x` exactly as often as there are paths from `t` to `x`. */
  lemma MultiplicityIsPathCount(g: Dag, t: Task, x: Task, paths: set<seq<nat>>)
    requires t in g.deps
    requires forall p :: p in paths <==> IsPath(g, t, p, x)
    ensures multiset(AllDeps(g, t))[x] == |paths|
  {
    ListedOncePerPath(g, t, |g.deps[t]|, x);
    forall p ensures p in PathsUpTo(g, t, |g.deps[t]|, x) <==> p in paths {
      PathsAreEnumerated(g, t, |g.deps[t]|, x, p);
    }
    assert paths == PathsUpTo(g, t, |g.deps[t]|, x);
  }

  /** The stored list has exactly the tasks that some path leads to as its elements. */
  lemma {:induction false} ListedIffReachable(g: Dag, t: Task, x: Task)
    requires t in g.deps
    ensures x in AllDeps(g, t) <==> exists p :: IsPath(g, t, p, x)
  {
    var n := |g.deps[t]|;
    ListedOncePerPath(g, t, n, x);
    assert x in AllDeps(g, t) <==> x in multiset(AllDeps(g, t));
    if x in AllDeps(g, t) {
      assert PathsUpTo(g, t, n, x) != {};
      var p :| p in PathsUpTo(g, t, n, x);
      PathsAreEnumerated(g, t, n, x, p);
    }
    if p :| IsPath(g, t, p, x) {
      PathsAreEnumerated(g, t, n, x, p);
      assert |PathsUpTo(g, t, n, x)| > 0;
    }
  }

  /** Membership in a partly built list, by the entry that brought the task in. */
  lemma {:induction false} ListedFrom(g: Dag, t: Task, i: nat, x: Task)
    requires t in g.deps && i <= |g.deps[t]|
    ensures x in DepsUpTo(g, t, i) <==>
            exists k :: 0 <= k < i && (g.deps[t][k] == x || x in AllDeps(g, g.deps[t][k]))
    decreases i
  {
    hide DepsUpTo, AllDeps;
    if i == 0 {
      DepsUpToNone(g, t);
    } else {
      ListedFrom(g, t, i - 1, x);
      DepsUpToMore(g, t, i);
      var d := g.deps[t][i - 1];
      assert x in DepsUpTo(g, t, i) <==> x in DepsUpTo(g, t, i - 1) || x in AllDeps(g, d) || x == d;
    }
  }

  /** Dependencies of dependencies are dependencies, and every dependency ranks lower. */
  lemma {:induction false} DepsAreClosed(g: Dag, t: Task, d: Task)
    requires t in g.deps && d in AllDeps(g, t)
    ensures d in g.deps && g.rank[d] < g.rank[t]
    ensures forall x :: x in AllDeps(g, d) ==> x in AllDeps(g, t)
    decreases g.rank[t]
  {
    ListedFrom(g, t, |g.deps[t]|, d);
    var k :| 0 <= k < |g.deps[t]| && (g.deps[t][k] == d || d in AllDeps(g, g.deps[t][k]));
    var e := g.deps[t][k];
    if e != d {
      DepsAreClosed(g, e, d);
    }
    forall x | x in AllDeps(g, d) ensures x in AllDeps(g, t) {
      ListedFrom(g, t, |g.deps[t]|, x);
    }
  }

  /** Every entry of a stored list comes after all of its own dependencies. */
  lemma {:induction false} DepsComeFirst(g: Dag, t: Task, i: nat, k: nat, x: Task)
    requires t in g.deps && i <= |g.deps[t]| && k < |DepsUpTo(g, t, i)|
    requires DepsUpTo(g, t, i)[k] in g.deps && x in AllDeps(g, DepsUpTo(g, t, i)[k])
    ensures exists j :: 0 <= j < k && DepsUpTo(g, t, i)[j] == x
    decreases g.rank[t], i
  {
    hide DepsUpTo, Acyclic;
    if i == 0 {
      DepsUpToNone(g, t);
    } else {
      DepsUpToMore(g, t, i);
      var d := g.deps[t][i - 1];
      var earlier, below := DepsUpTo(g, t, i - 1), AllDeps(g, d);
      var j: nat;
      if k < |earlier| {
        DepsComeFirst(g, t, i - 1, k, x);
        j :| 0 <= j < k && earlier[j] == x;
      } else if k < |earlier| + |below| {
        DepsComeFirst(g, d, |g.deps[d]|, k - |earlier|, x);
        var m :| 0 <= m < k - |earlier| && below[m] == x;
        j := |earlier| + m;
      } else {
        var m :| 0 <= m < |below| && below[m] == x;
        j := |earlier| + m;
      }
      assert DepsUpTo(g, t, i)[j] == x;
    }
  }
}
