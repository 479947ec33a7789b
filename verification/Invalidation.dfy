/** The depth-first walk of taskExecution.Invalidate, which has no visited set, computes exactly the
    least set of pending events that propagation along dependents asks for. */
module Invalidation {
  import opened Tasks
  import opened Machine

  predicate Takes(c: Config, invalid: set<Task>, t: Task, e: Event) {
    t !in invalid && c.accepts(t, e)
  }

  /** Every dependent of a marked task that takes the dependency's change is marked with it. */
  ghost predicate Propagated(c: Config, invalid: set<Task>, marks: set<(Task, Event)>) {
    forall p, u ::
      p in marks && p.0 in c.tasks && u in c.dependents[p.0] && Takes(c, invalid, u, DependencyChange(p.0)) ==>
        (u, DependencyChange(p.0)) in marks
  }

  lemma DependentsAreHigher(c: Config, t: Task, u: Task)
    requires t in c.tasks && u in c.dependents[t]
    ensures u in c.tasks && t in c.below[u] && c.height[u] < c.height[t]
  {
    assert DependentOk(c, t, u) && DepOk(c, u, t);
  }

  lemma {:induction false} MarkPropagates(c: Config, invalid: set<Task>, t: Task, e: Event, p: (Task, Event), u: Task)
    requires t in c.tasks && p in Marks(c, invalid, t, e) && p.0 in c.tasks && u in c.dependents[p.0]
    requires Takes(c, invalid, u, DependencyChange(p.0))
    ensures (u, DependencyChange(p.0)) in Marks(c, invalid, t, e)
    decreases c.height[t]
  {
    hide WellFormed;
    Domains(c);
    if p == (t, e) {
      assert (u, DependencyChange(t)) in Marks(c, invalid, u, DependencyChange(t));
    } else {
      var v :| v in c.dependents[t] && p in Marks(c, invalid, v, DependencyChange(t));
      MarkPropagates(c, invalid, v, DependencyChange(t), p, u);
    }
  }

  lemma MarksPropagate(c: Config, invalid: set<Task>, t: Task, e: Event)
    requires t in c.tasks
    ensures Propagated(c, invalid, Marks(c, invalid, t, e))
  {
    hide Marks;
    var marks := Marks(c, invalid, t, e);
    forall p, u | p in marks && p.0 in c.tasks && u in c.dependents[p.0] && Takes(c, invalid, u, DependencyChange(p.0))
      ensures (u, DependencyChange(p.0)) in marks
    {
      MarkPropagates(c, invalid, t, e, p, u);
    }
  }

  lemma {:induction false} MarksAreLeast(c: Config, invalid: set<Task>, t: Task, e: Event, marks: set<(Task, Event)>)
    requires t in c.tasks && Propagated(c, invalid, marks) && (Takes(c, invalid, t, e) ==> (t, e) in marks)
    ensures Marks(c, invalid, t, e) <= marks
    decreases c.height[t]
  {
    if Takes(c, invalid, t, e) {
      Domains(c);
      forall p | p in Marks(c, invalid, t, e) ensures p in marks {
        if p != (t, e) {
          var u :| u in c.dependents[t] && p in Marks(c, invalid, u, DependencyChange(t));
          DependentsAreHigher(c, t, u);
          assert (t, e) in marks;
          MarksAreLeast(c, invalid, u, DependencyChange(t), marks);
        }
      }
    }
  }

  /** The walk marks the root exactly if it returns true, and then the least propagated set around it. */
  lemma WalkIsLeastFixpoint(c: Config, invalid: set<Task>, t: Task, e: Event)
    requires t in c.tasks
    ensures Propagated(c, invalid, Marks(c, invalid, t, e))
    ensures (t, e) in Marks(c, invalid, t, e) <==> Takes(c, invalid, t, e)
    ensures Marks(c, invalid, t, e) != {} <==> Takes(c, invalid, t, e)
    ensures forall marks :: Propagated(c, invalid, marks) && (Takes(c, invalid, t, e) ==> (t, e) in marks) ==>
      Marks(c, invalid, t, e) <= marks
  {
    MarksPropagate(c, invalid, t, e);
    forall marks | Propagated(c, invalid, marks) && (Takes(c, invalid, t, e) ==> (t, e) in marks)
      ensures Marks(c, invalid, t, e) <= marks
    {
      MarksAreLeast(c, invalid, t, e, marks);
    }
    if !Takes(c, invalid, t, e) {
      assert Marks(c, invalid, t, e) == {};
    }
  }

  /** `p` tells a dependent of `q`'s task that this dependency changed. */
  predicate Justifies(c: Config, q: (Task, Event), p: (Task, Event)) {
    q.0 in c.tasks && p.0 in c.dependents[q.0] && p.1 == DependencyChange(q.0)
  }

  /** Every mark is the root's own or names a marked dependency of its task. */
  lemma {:induction false} MarksAreJustified(c: Config, invalid: set<Task>, t: Task, e: Event, p: (Task, Event))
    requires t in c.tasks && p in Marks(c, invalid, t, e)
    ensures Takes(c, invalid, p.0, p.1)
    ensures p == (t, e) || exists q :: q in Marks(c, invalid, t, e) && Justifies(c, q, p)
    decreases c.height[t]
  {
    hide WellFormed;
    Domains(c);
    if p != (t, e) {
      var u :| u in c.dependents[t] && p in Marks(c, invalid, u, DependencyChange(t));
      MarksAreJustified(c, invalid, u, DependencyChange(t), p);
      if p == (u, DependencyChange(t)) {
        assert (t, e) in Marks(c, invalid, t, e);
      } else {
        var q :| q in Marks(c, invalid, u, DependencyChange(t)) && Justifies(c, q, p);
        assert q in Marks(c, invalid, t, e);
      }
    }
  }

  lemma PendingAfter(exec: map<Task, Execution>, marks: set<(Task, Event)>, t: Task, e: Event)
    requires t in exec
    ensures e in AddMarks(exec, marks)[t].pending <==> e in exec[t].pending || (t, e) in marks
  {
    if (t, e) in marks {
      assert (t, e).0 == t && (t, e).1 == e;
    }
  }

  /** One marking after another adds both sets of marks, and changes no state. */
  lemma MarksAddUp(exec: map<Task, Execution>, a: set<(Task, Event)>, b: set<(Task, Event)>)
    ensures AddMarks(AddMarks(exec, a), b) == AddMarks(exec, a + b)
    ensures InvalidIn(AddMarks(exec, a)) == InvalidIn(exec)
  {
    var one, both := AddMarks(AddMarks(exec, a), b), AddMarks(exec, a + b);
    forall t | t in exec ensures one[t] == both[t] {
      assert one[t].pending == both[t].pending;
    }
  }

  lemma InvalidateIdempotent(c: Config, s: State, t: Task, e: Event)
    requires s.exec.Keys == c.tasks && t in c.tasks
    ensures Mark(c, Mark(c, s, t, e), t, e) == Mark(c, s, t, e)
  {
    hide WellFormed, Marks, AddMarks, InvalidIn;
    var marks := Marks(c, InvalidIn(s.exec), t, e);
    MarksAddUp(s.exec, marks, marks);
    assert marks + marks == marks;
  }

  lemma InvalidatesCommute(c: Config, s: State, t1: Task, e1: Event, t2: Task, e2: Event)
    requires s.exec.Keys == c.tasks && t1 in c.tasks && t2 in c.tasks
    ensures Mark(c, Mark(c, s, t1, e1), t2, e2) == Mark(c, Mark(c, s, t2, e2), t1, e1)
  {
    hide WellFormed, Marks, AddMarks, InvalidIn;
    var m1, m2 := Marks(c, InvalidIn(s.exec), t1, e1), Marks(c, InvalidIn(s.exec), t2, e2);
    MarksAddUp(s.exec, m1, m2);
    MarksAddUp(s.exec, m2, m1);
    assert m1 + m2 == m2 + m1;
  }
}
