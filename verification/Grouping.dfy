/** Grouping command line arguments: which flags belong to which task. */
module Grouping {
  import opened Flags

  predicate IsFlag(arg: Bytes) {
    [DASH] <= arg
  }

  /** Every argument that the flag parser takes for some flags is one that grouping keeps with its task. */
  lemma AcceptedIsFlag(index: map<Bytes, Flag>, arg: Bytes)
    requires Accepted(index, arg)
    ensures IsFlag(arg)
  {
    var name, text :| IsArgument(index, arg, name, text);
    assert arg[0] == DASH;
  }

  /** A name that can head a group. The empty name is the mark for "no current task". */
  predicate Known(registered: set<Bytes>, name: Bytes) {
    name in registered && name != [] && !IsFlag(name)
  }

  predicate AllFlags(args: seq<Bytes>) {
    forall i :: 0 <= i < |args| ==> IsFlag(args[i])
  }

  /** The flags that a list of arguments starts with. */
  function LeadingFlags(args: seq<Bytes>): (flags: seq<Bytes>)
    ensures flags <= args && AllFlags(flags)
    ensures |flags| < |args| ==> !IsFlag(args[|flags|])
  {
    if args == [] || !IsFlag(args[0]) then [] else [args[0]] + LeadingFlags(args[1..])
  }

  predicate IsLast(args: seq<Bytes>, name: Bytes, i: nat) {
    i < |args| && args[i] == name && name !in args[i + 1..]
  }

  predicate IsUnknown(registered: set<Bytes>, arg: Bytes) {
    !IsFlag(arg) && arg !in registered
  }

  /** The known names among the arguments are the keys; each has the flags directly after its last
      occurrence. */
  ghost predicate Groups(registered: set<Bytes>, args: seq<Bytes>, groups: map<Bytes, seq<Bytes>>) {
    && (forall t :: t in groups <==> Known(registered, t) && t in args)
    && forall t, i :: t in groups && IsLast(args, t, i) ==> groups[t] == LeadingFlags(args[i + 1..])
  }

  /** The loop's variables after some arguments. */
  datatype Progress = Progress(groups: map<Bytes, seq<Bytes>>, current: Bytes, flags: seq<Bytes>, unknown: bool)

  function Closed(p: Progress): map<Bytes, seq<Bytes>> {
    if p.current != [] then p.groups[p.current := p.flags] else p.groups
  }

  function Advance(registered: set<Bytes>, p: Progress, arg: Bytes): Progress {
    if IsFlag(arg) then p.(flags := if p.current != [] then p.flags + [arg] else p.flags)
    else if arg in registered then Progress(Closed(p), arg, [], p.unknown)
    else Progress(Closed(p), [], if p.current != [] then [] else p.flags, true)
  }

  function After(registered: set<Bytes>, args: seq<Bytes>): Progress {
    if args == [] then Progress(map[], [], [], false)
    else Advance(registered, After(registered, args[..|args| - 1]), args[|args| - 1])
  }

  method GroupTaskAndFlagArgs(registered: set<Bytes>, args: seq<Bytes>)
    returns (flagArgsPerTask: map<Bytes, seq<Bytes>>, foundInvalidTasks: bool)
    ensures Groups(registered, args, flagArgsPerTask)
    ensures foundInvalidTasks <==> exists i :: 0 <= i < |args| && !([DASH] <= args[i]) && args[i] !in registered
    ensures forall t :: t in flagArgsPerTask <==> t in registered && t in args && t != [] && !([DASH] <= t)
    ensures flagArgsPerTask == Closed(After(registered, args)) && foundInvalidTasks == After(registered, args).unknown
  {
    flagArgsPerTask, foundInvalidTasks := map[], false;
    var currTaskName: Bytes, currFlagsList: seq<Bytes> := [], [];
    for i := 0 to |args|
      invariant After(registered, args[..i]) == Progress(flagArgsPerTask, currTaskName, currFlagsList, foundInvalidTasks)
    {
      assert args[..i + 1][..i] == args[..i];
      var arg := args[i];
      if IsFlag(arg) {
        if currTaskName != [] {
          currFlagsList := currFlagsList + [arg];
        }
      } else {
        if currTaskName != [] {
          flagArgsPerTask := flagArgsPerTask[currTaskName := currFlagsList];
          currTaskName, currFlagsList := [], [];
        }
        if arg in registered {
          currTaskName, currFlagsList := arg, [];
        } else {
          foundInvalidTasks := true;
        }
      }
    }
    assert args[..|args|] == args;
    if currTaskName != [] {
      flagArgsPerTask := flagArgsPerTask[currTaskName := currFlagsList];
    }
    AfterGroups(registered, args);
  }

  // ---------------------------------------------------------------------------------------------
  // What the loop computes

  lemma {:induction false} LeadingOfMore(args: seq<Bytes>, arg: Bytes)
    ensures LeadingFlags(args + [arg]) == LeadingFlags(args) + if AllFlags(args) && IsFlag(arg) then [arg] else []
  {
    if args != [] {
      assert (args + [arg])[1..] == args[1..] + [arg];
      if IsFlag(args[0]) {
        LeadingOfMore(args[1..], arg);
        assert AllFlags(args) <==> AllFlags(args[1..]) by {
          assert forall i :: 0 < i < |args| ==> args[i] == args[1..][i - 1];
        }
      }
    } else {
      assert args + [arg] == [arg];
    }
  }

  lemma AllFlagsOfMore(args: seq<Bytes>, arg: Bytes)
    ensures AllFlags(args + [arg]) <==> AllFlags(args) && IsFlag(arg)
  {
    assert (args + [arg])[|args|] == arg;
    assert forall i :: 0 <= i < |args| ==> (args + [arg])[i] == args[i];
  }

  /** The current name is known, and only flags came after it. */
  ghost predicate CurrentOk(registered: set<Bytes>, args: seq<Bytes>, p: Progress) {
    forall t, i :: IsLast(args, t, i) && Known(registered, t) ==> (t == p.current <==> AllFlags(args[i + 1..]))
  }

  lemma LastOfMore(args: seq<Bytes>, arg: Bytes, t: Bytes, i: nat)
    ensures IsLast(args + [arg], t, i) <==> if t == arg then i == |args| else IsLast(args, t, i)
    ensures t in args + [arg] <==> t in args || t == arg
    ensures i < |args| ==> (args + [arg])[i + 1..] == args[i + 1..] + [arg]
  {
    var more := args + [arg];
    if i < |args| {
      assert more[i + 1..] == args[i + 1..] + [arg];
      assert more[|args|] == arg && arg in more[i + 1..];
    } else if i == |args| {
      assert more[i + 1..] == [];
    }
  }

  lemma {:induction false} AfterGroups(registered: set<Bytes>, args: seq<Bytes>)
    ensures Groups(registered, args, Closed(After(registered, args)))
    ensures CurrentOk(registered, args, After(registered, args))
    ensures After(registered, args).current != [] ==>
      Known(registered, After(registered, args).current) && After(registered, args).current in args
    ensures After(registered, args).unknown <==> exists i :: 0 <= i < |args| && IsUnknown(registered, args[i])
  {
    if args != [] {
      var init, arg := args[..|args| - 1], args[|args| - 1];
      AfterGroups(registered, init);
      assert args == init + [arg];
      AdvanceGroups(registered, init, arg, After(registered, init));
      assert forall i :: 0 <= i < |init| ==> init[i] == args[i];
    }
  }

  lemma AdvanceKeys(registered: set<Bytes>, args: seq<Bytes>, arg: Bytes, p: Progress)
    requires Groups(registered, args, Closed(p))
    requires p.current != [] ==> Known(registered, p.current) && p.current in args
    ensures forall t :: t in Closed(Advance(registered, p, arg)) <==> Known(registered, t) && t in args + [arg]
  {
    hide LeadingFlags, IsLast;
    forall t ensures t in Closed(Advance(registered, p, arg)) <==> Known(registered, t) && t in args + [arg] {}
  }

  lemma AdvanceGroups(registered: set<Bytes>, args: seq<Bytes>, arg: Bytes, p: Progress)
    requires Groups(registered, args, Closed(p)) && CurrentOk(registered, args, p)
    requires p.current != [] ==> Known(registered, p.current) && p.current in args
    ensures Groups(registered, args + [arg], Closed(Advance(registered, p, arg)))
    ensures CurrentOk(registered, args + [arg], Advance(registered, p, arg))
    ensures Advance(registered, p, arg).current != [] ==>
      Known(registered, Advance(registered, p, arg).current) && Advance(registered, p, arg).current in args + [arg]
  {
    var q := Advance(registered, p, arg);
    AdvanceKeys(registered, args, arg, p);
    forall t, i | Known(registered, t) && IsLast(args + [arg], t, i)
      ensures t in Closed(q) && Closed(q)[t] == LeadingFlags((args + [arg])[i + 1..])
      ensures t == q.current <==> AllFlags((args + [arg])[i + 1..])
    {
      LastOfMore(args, arg, t, i);
      if t != arg {
        assert t in args;
        LeadingOfMore(args[i + 1..], arg);
        AllFlagsOfMore(args[i + 1..], arg);
      }
    }
  }

  lemma {:induction false} LastExists(args: seq<Bytes>, t: Bytes) returns (i: nat)
    requires t in args
    ensures IsLast(args, t, i)
  {
    var init, arg := args[..|args| - 1], args[|args| - 1];
    assert args == init + [arg];
    if t == arg {
      i := |init|;
    } else {
      i := LastExists(init, t);
    }
    LastOfMore(init, arg, t, i);
  }

  /** The three conditions leave no choice: only one map meets them. */
  lemma GroupsAreDetermined(registered: set<Bytes>, args: seq<Bytes>, a: map<Bytes, seq<Bytes>>,
                            b: map<Bytes, seq<Bytes>>)
    requires Groups(registered, args, a) && Groups(registered, args, b)
    ensures a == b
  {
    forall t ensures t in a <==> t in b {}
    forall t | t in a ensures a[t] == b[t] {
      var i := LastExists(args, t);
    }
  }

  // ---------------------------------------------------------------------------------------------
  // Grouping undoes flattening

  function Flatten(order: seq<Bytes>, groups: map<Bytes, seq<Bytes>>): seq<Bytes>
    requires forall t :: t in order ==> t in groups
  {
    if order == [] then []
    else
      var last := order[|order| - 1];
      Flatten(order[..|order| - 1], groups) + [last] + groups[last]
  }

  lemma {:induction false} AfterFlags(registered: set<Bytes>, args: seq<Bytes>, flags: seq<Bytes>)
    requires AllFlags(flags) && After(registered, args).current != []
    ensures After(registered, args + flags) == After(registered, args).(flags := After(registered, args).flags + flags)
    decreases |flags|
  {
    if flags == [] {
      assert args + flags == args;
    } else {
      var init := flags[..|flags| - 1];
      AfterFlags(registered, args, init);
      assert (args + flags)[..|args + flags| - 1] == args + init;
      assert flags == init + [flags[|flags| - 1]];
    }
  }

  lemma AfterName(registered: set<Bytes>, args: seq<Bytes>, name: Bytes)
    requires Known(registered, name)
    ensures name != []
    ensures After(registered, args + [name]) == Progress(Closed(After(registered, args)), name, [], After(registered, args).unknown)
  {
    assert (args + [name])[..|args|] == args;
  }

  lemma NothingGrouped(registered: set<Bytes>, groups: map<Bytes, seq<Bytes>>)
    ensures Closed(After(registered, [])) == Restricted(groups, []) && !After(registered, []).unknown
  {}

  /** Flattening a map from known names to flags, in any order of the names, and grouping the result gives
      the map back, with nothing unknown. */
  lemma {:induction false} GroupUndoesFlatten(registered: set<Bytes>, order: seq<Bytes>, groups: map<Bytes, seq<Bytes>>)
    requires forall t :: t in order ==> t in groups && Known(registered, t)
    requires forall t :: t in groups ==> AllFlags(groups[t])
    requires Distinct(order)
    ensures var p := After(registered, Flatten(order, groups));
      !p.unknown && Closed(p) == Restricted(groups, order)
  {
    hide After, Restricted, Known;
    if order == [] {
      NothingGrouped(registered, groups);
    } else {
      var init, last := order[..|order| - 1], order[|order| - 1];
      GroupUndoesFlatten(registered, init, groups);
      var args := Flatten(init, groups);
      assert order == init + [last] && last !in init;
      AfterName(registered, args, last);
      AfterFlags(registered, args + [last], groups[last]);
      assert [] + groups[last] == groups[last];
      RestrictedOfMore(groups, init, last);
    }
  }

  function Restricted(groups: map<Bytes, seq<Bytes>>, order: seq<Bytes>): map<Bytes, seq<Bytes>> {
    map t | t in groups && t in order :: groups[t]
  }

  lemma RestrictedOfMore(groups: map<Bytes, seq<Bytes>>, order: seq<Bytes>, last: Bytes)
    requires last in groups
    ensures Restricted(groups, order + [last]) == Restricted(groups, order)[last := groups[last]]
  {
    assert forall t :: t in order + [last] <==> t in order || t == last;
  }

  /** If all of its keys are flattened, that is the whole map. */
  lemma RoundTrip(registered: set<Bytes>, order: seq<Bytes>, groups: map<Bytes, seq<Bytes>>)
    requires forall t :: t in order <==> t in groups
    requires forall t :: t in groups ==> Known(registered, t) && AllFlags(groups[t])
    requires Distinct(order)
    ensures Closed(After(registered, Flatten(order, groups))) == groups && !After(registered, Flatten(order, groups)).unknown
  {
    GroupUndoesFlatten(registered, order, groups);
  }
}
