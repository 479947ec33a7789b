/** Registration of task flags under their two names, and the parser of flag arguments. Names and arguments
    are byte strings, as in the source; only the length in bytes tells short names from long ones. */
module Flags {
  import opened Tasks

  newtype byte = x: int | 0 <= x < 256

  type Bytes = seq<byte>

  const DASH: byte := 45
  const EQUALS: byte := 61
  // "help" and "h"
  const HELP: Bytes := [104, 101, 108, 112]
  const H: Bytes := [104]

  /** The UTF-8 encoding of a rune; what is no code point becomes the replacement character. */
  function RuneString(r: int): (s: Bytes)
    ensures 1 <= |s| <= 4
    ensures |s| == 1 <==> 0 <= r < 0x80
    ensures |s| == 1 ==> s[0] as int == r
    ensures |s| > 1 ==> forall i :: 0 <= i < |s| ==> s[i] >= 0x80
  {
    if 0 <= r < 0x80 then [r as byte]
    else if 0x80 <= r < 0x800 then [(0xC0 + r / 0x40) as byte, (0x80 + r % 0x40) as byte]
    else if r < 0 || r > 0x10FFFF || 0xD800 <= r < 0xE000 then [0xEF, 0xBF, 0xBD]
    else if r < 0x10000 then
      [(0xE0 + r / 0x1000) as byte, (0x80 + r / 0x40 % 0x40) as byte, (0x80 + r % 0x40) as byte]
    else
      [(0xF0 + r / 0x40000) as byte, (0x80 + r / 0x1000 % 0x40) as byte,
       (0x80 + r / 0x40 % 0x40) as byte, (0x80 + r % 0x40) as byte]
  }

  /** The rune that a string of one to four bytes encodes. */
  function RuneOf(s: Bytes): int
    requires 1 <= |s| <= 4
  {
    if |s| == 1 then s[0] as int
    else if |s| == 2 then (s[0] as int - 0xC0) * 0x40 + (s[1] as int - 0x80)
    else if |s| == 3 then (s[0] as int - 0xE0) * 0x1000 + (s[1] as int - 0x80) * 0x40 + (s[2] as int - 0x80)
    else (s[0] as int - 0xF0) * 0x40000 + (s[1] as int - 0x80) * 0x1000 + (s[2] as int - 0x80) * 0x40 + (s[3] as int - 0x80)
  }

  /** So no two short names that are code points share a key. */
  lemma RuneRoundTrip(r: int)
    ensures RuneOf(RuneString(r)) == if 0 <= r <= 0x10FFFF && !(0xD800 <= r < 0xE000) then r else 0xFFFD
  {
    if 0x800 <= r < 0x10000 && !(0xD800 <= r < 0xE000) {
      Digits(r);
    } else if 0x10000 <= r <= 0x10FFFF {
      Digits(r);
    }
  }

  lemma Digits(r: int)
    requires 0 <= r
    ensures r == r / 0x1000 * 0x1000 + r / 0x40 % 0x40 * 0x40 + r % 0x40
    ensures r == r / 0x40000 * 0x40000 + r / 0x1000 % 0x40 * 0x1000 + r / 0x40 % 0x40 * 0x40 + r % 0x40
  {
    var q := r / 0x40;
    assert r / 0x1000 == q / 0x40;
    assert r / 0x40000 == q / 0x40 / 0x40;
  }

  datatype ValueType = StringType | BoolType | IntType | Float64Type | DurationType | OtherType(name: string)

  datatype Flag = Flag(description: string, shortName: int, longName: Bytes, default: Bytes, valueType: ValueType)

  /** The part of a task that registration looks at. */
  datatype Definition = Definition(name: Bytes, hasRun: bool, hasRunWithFlags: bool, flags: seq<Flag>)

  datatype Panic =
    | DuplicateTask
    | BothRuns
    | NameIsLongName
    | NameIsShortName
    | NoName
    | HelpIsReserved
    | HIsReserved
    | NoDescription
    | NoValueType
    | DuplicateLongName
    | DuplicateShortName

  /** The first objection to a flag by itself. */
  function Objection(task: Bytes, f: Flag): Option<Panic> {
    if task == f.longName then Some(NameIsLongName)
    else if task == RuneString(f.shortName) then Some(NameIsShortName)
    else if f.longName == [] && f.shortName == 0 then Some(NoName)
    else if f.longName == HELP then Some(HelpIsReserved)
    else if RuneString(f.shortName) == H then Some(HIsReserved)
    else if f.description == "" then Some(NoDescription)
    else if f.valueType.OtherType? then Some(NoValueType)
    else None
  }

  /** The names under which a flag can be found. */
  function Names(f: Flag): seq<Bytes> {
    (if f.longName != [] then [f.longName] else []) + if f.shortName != 0 then [RuneString(f.shortName)] else []
  }

  datatype Indexed = Index(flags: map<Bytes, Flag>) | Panicked(panic: Panic)

  function AddFlag(task: Bytes, index: map<Bytes, Flag>, f: Flag): Indexed {
    if Objection(task, f).Some? then Panicked(Objection(task, f).value)
    else if f.longName != [] && f.longName in index then Panicked(DuplicateLongName)
    else
      var long := if f.longName != [] then index[f.longName := f] else index;
      if f.shortName != 0 && RuneString(f.shortName) in long then Panicked(DuplicateShortName)
      else Index(if f.shortName != 0 then long[RuneString(f.shortName) := f] else long)
  }

  function IndexOf(task: Bytes, flags: seq<Flag>): Indexed {
    if flags == [] then Index(map[])
    else match IndexOf(task, flags[..|flags| - 1])
      case Panicked(p) => Panicked(p)
      case Index(index) => AddFlag(task, index, flags[|flags| - 1])
  }

  /** What the index holds after a flag was added, or after the panic that stopped it: the long name is stored
      before the short one is looked at. */
  function Kept(task: Bytes, index: map<Bytes, Flag>, f: Flag): map<Bytes, Flag> {
    if Objection(task, f).Some? || (f.longName != [] && f.longName in index) then index
    else
      var long := if f.longName != [] then index[f.longName := f] else index;
      if f.shortName != 0 && RuneString(f.shortName) !in long then long[RuneString(f.shortName) := f] else long
  }

  function KeptOf(task: Bytes, flags: seq<Flag>): map<Bytes, Flag> {
    if flags == [] then map[]
    else
      var before := IndexOf(task, flags[..|flags| - 1]);
      if before.Panicked? then KeptOf(task, flags[..|flags| - 1]) else Kept(task, before.flags, flags[|flags| - 1])
  }

  /** Without a panic that is the whole index. */
  lemma {:induction false} KeptIsIndex(task: Bytes, flags: seq<Flag>)
    requires IndexOf(task, flags).Index?
    ensures KeptOf(task, flags) == IndexOf(task, flags).flags
  {
    if flags != [] {
      KeptIsIndex(task, flags[..|flags| - 1]);
    }
  }

  class Registry {
    var definitions: map<Bytes, Definition>
    var flagsByTask: map<Bytes, map<Bytes, Flag>>

    constructor ()
      ensures definitions == map[] && flagsByTask == map[]
    {
      definitions, flagsByTask := map[], map[];
    }

    /** Registers a task; `Some` is the reason of a panic. */
    method Add(t: Definition) returns (panic: Option<Panic>)
      modifies this
      ensures panic.None? <==>
        t.name !in old(definitions) && !(t.hasRun && t.hasRunWithFlags) && AllRegistrable(t.name, t.flags)
      ensures t.name !in old(definitions) && !(t.hasRun && t.hasRunWithFlags) ==>
        forall p :: panic == Some(p) <==> FirstBlamed(t.name, t.flags, p)
      ensures panic == if t.name in old(definitions) then Some(DuplicateTask)
                       else if t.hasRun && t.hasRunWithFlags then Some(BothRuns)
                       else match IndexOf(t.name, t.flags)
                         case Panicked(p) => Some(p)
                         case Index(_) => None
      ensures t.name in old(definitions) || (t.hasRun && t.hasRunWithFlags) ==>
        definitions == old(definitions) && flagsByTask == old(flagsByTask)
      ensures t.name !in old(definitions) && !(t.hasRun && t.hasRunWithFlags) ==>
        && definitions == old(definitions)[t.name := t]
        && flagsByTask == old(flagsByTask)[t.name := KeptOf(t.name, t.flags)]
      ensures panic.None? ==> KeptOf(t.name, t.flags) == IndexOf(t.name, t.flags).flags
    {
      hide AddFlag, Objection, RuneString, Kept, KeptOf, FirstBlamed, AllRegistrable;
      Demands(t.name, t.flags);
      if t.name in definitions {
        return Some(DuplicateTask);
      }
      if t.hasRun && t.hasRunWithFlags {
        return Some(BothRuns);
      }
      definitions := definitions[t.name := t];
      flagsByTask := flagsByTask[t.name := map[]];
      for i := 0 to |t.flags|
        invariant definitions == old(definitions)[t.name := t]
        invariant t.name in flagsByTask && flagsByTask == old(flagsByTask)[t.name := flagsByTask[t.name]]
        invariant IndexOf(t.name, t.flags[..i]) == Index(flagsByTask[t.name])
      {
        assert t.flags[..i + 1][..i] == t.flags[..i];
        ghost var index := flagsByTask[t.name];
        panic := AddOne(t.name, t.flags[i]);
        KeptOfOne(t.name, t.flags, i, index);
        if panic.Some? {
          FirstPanic(t.name, t.flags, i + 1);
          return;
        }
      }
      assert t.flags[..|t.flags|] == t.flags;
      KeptIsIndex(t.name, t.flags);
      return None;
    }

    /** One round of Add's loop. */
    method AddOne(task: Bytes, flag: Flag) returns (panic: Option<Panic>)
      requires task in flagsByTask
      modifies this`flagsByTask
      ensures task in flagsByTask && flagsByTask == old(flagsByTask)[task := Kept(task, old(flagsByTask[task]), flag)]
      ensures AddFlag(task, old(flagsByTask[task]), flag)
           == if panic.Some? then Panicked(panic.value) else Index(flagsByTask[task])
    {
      panic := Objection(task, flag);
      if panic.Some? {
        return;
      }
      if flag.longName != [] {
        if flag.longName in flagsByTask[task] {
          return Some(DuplicateLongName);
        }
        flagsByTask := flagsByTask[task := flagsByTask[task][flag.longName := flag]];
      }
      if flag.shortName != 0 {
        if RuneString(flag.shortName) in flagsByTask[task] {
          return Some(DuplicateShortName);
        }
        flagsByTask := flagsByTask[task := flagsByTask[task][RuneString(flag.shortName) := flag]];
      }
    }
  }

  lemma KeptOfOne(task: Bytes, flags: seq<Flag>, i: nat, index: map<Bytes, Flag>)
    requires i < |flags| && IndexOf(task, flags[..i]) == Index(index)
    ensures KeptOf(task, flags[..i + 1]) == Kept(task, index, flags[i])
    ensures IndexOf(task, flags[..i + 1]) == AddFlag(task, index, flags[i])
  {
    hide Kept, AddFlag;
    assert flags[..i + 1][..i] == flags[..i];
  }

  lemma {:induction false} FirstPanic(task: Bytes, flags: seq<Flag>, i: nat)
    requires i <= |flags| && IndexOf(task, flags[..i]).Panicked?
    ensures IndexOf(task, flags) == IndexOf(task, flags[..i]) && KeptOf(task, flags) == KeptOf(task, flags[..i])
    decreases |flags|
  {
    hide Kept, AddFlag;
    if i < |flags| {
      assert flags[..|flags| - 1][..i] == flags[..i];
      FirstPanic(task, flags[..|flags| - 1], i);
    } else {
      assert flags[..i] == flags;
    }
  }
  // ---------------------------------------------------------------------------------------------
  // What registration accepts, and what the index then holds

  function AllNames(flags: seq<Flag>): seq<Bytes> {
    if flags == [] then [] else AllNames(flags[..|flags| - 1]) + Names(flags[|flags| - 1])
  }

  predicate Distinct<T(==)>(xs: seq<T>) {
    forall i, j :: 0 <= i < j < |xs| ==> xs[i] != xs[j]
  }

  /** `index` leads from each name of each flag to that flag, and from nothing else. */
  ghost predicate IsIndex(flags: seq<Flag>, index: map<Bytes, Flag>) {
    && (forall k :: k in index ==> index[k] in flags && k in Names(index[k]))
    && (forall f, k :: f in flags && k in Names(f) ==> k in index && index[k] == f)
  }

  lemma AddFlagIff(task: Bytes, index: map<Bytes, Flag>, f: Flag)
    ensures AddFlag(task, index, f).Index?
       <==> Objection(task, f).None? && Distinct(Names(f)) && forall k :: k in Names(f) ==> k !in index
    ensures AddFlag(task, index, f).Index? ==> var more := AddFlag(task, index, f).flags;
      forall k :: (k in more <==> k in index || k in Names(f)) && (k in more ==> more[k] == if k in Names(f) then f else index[k])
  {
    var names := Names(f);
    if f.longName != [] && f.shortName != 0 {
      assert names == [f.longName, RuneString(f.shortName)];
      assert names[0] == f.longName && names[1] == RuneString(f.shortName);
    } else if f.longName != [] {
      assert names == [f.longName];
    } else if f.shortName != 0 {
      assert names == [RuneString(f.shortName)];
    }
  }

  lemma DistinctConcat<T>(xs: seq<T>, ys: seq<T>)
    ensures Distinct(xs + ys) <==> Distinct(xs) && Distinct(ys) && forall x :: x in ys ==> x !in xs
  {
    var both := xs + ys;
    assert forall i :: 0 <= i < |ys| ==> both[|xs| + i] == ys[i];
    if Distinct(both) {
      forall i, j | 0 <= i < |xs| && 0 <= j < |ys| ensures xs[i] != ys[j] {
        assert both[i] != both[|xs| + j];
      }
      forall i, j | 0 <= i < j < |ys| ensures ys[i] != ys[j] {
        assert both[|xs| + i] != both[|xs| + j];
      }
      forall i, j | 0 <= i < j < |xs| ensures xs[i] != xs[j] {
        assert both[i] != both[j];
      }
    } else {
      var i, j :| 0 <= i < j < |both| && both[i] == both[j];
      if i < |xs| <= j {
        assert ys[j - |xs|] in xs;
      } else if |xs| <= i {
        assert ys[i - |xs|] == ys[j - |xs|];
      }
    }
  }

  lemma EmptyIndex()
    ensures IsIndex([], map[])
  {}

  lemma IndexGrows(flags: seq<Flag>, f: Flag, index: map<Bytes, Flag>, more: map<Bytes, Flag>)
    requires IsIndex(flags, index) && forall k :: k in Names(f) ==> k !in index
    requires forall k :: (k in more <==> k in index || k in Names(f)) && (k in more ==> more[k] == if k in Names(f) then f else index[k])
    ensures IsIndex(flags + [f], more)
  {
    hide Names;
  }

  lemma NoNames()
    ensures Distinct(AllNames([]))
  {}

  // ---------------------------------------------------------------------------------------------
  // What registration demands, in terms of the fields

  /** The flag has a name, a description and one of the five types; no name of it is the task's; and it is
      neither "help" nor "h". A short name of 0 counts as the one-byte string of that byte where it is compared
      with the task's name. */
  predicate Registrable(task: Bytes, f: Flag) {
    && (f.longName != [] || f.shortName != 0) && f.description != "" && HasType(f)
    && f.longName != task && RuneString(f.shortName) != task
    && f.longName != [104, 101, 108, 112] && f.shortName != 104
  }

  predicate HasType(f: Flag) {
    f.valueType in {StringType, BoolType, IntType, Float64Type, DurationType}
  }

  /** The flag `f` gives the reason `p`, and no check made before that one applies to it. `names` are those of
      the flags before it. */
  predicate Blames(task: Bytes, names: seq<Bytes>, f: Flag, p: Panic) {
    match p
    case DuplicateTask => false
    case BothRuns => false
    case NameIsLongName => f.longName == task
    case NameIsShortName => f.longName != task && RuneString(f.shortName) == task
    case NoName => f.longName != task && RuneString(f.shortName) != task && f.longName == [] && f.shortName == 0
    case HelpIsReserved =>
      f.longName == [104, 101, 108, 112] && f.longName != task && RuneString(f.shortName) != task
    case HIsReserved =>
      && f.shortName == 104 && f.longName != task && RuneString(f.shortName) != task
      && f.longName != [104, 101, 108, 112]
    case NoDescription => f.description == "" && NamesAreFree(task, f)
    case NoValueType => !HasType(f) && f.description != "" && NamesAreFree(task, f)
    case DuplicateLongName => Registrable(task, f) && f.longName != [] && f.longName in names
    case DuplicateShortName =>
      && Registrable(task, f) && f.shortName != 0 && (f.longName == [] || f.longName !in names)
      && (RuneString(f.shortName) in names || RuneString(f.shortName) == f.longName)
  }

  predicate NamesAreFree(task: Bytes, f: Flag) {
    && (f.longName != [] || f.shortName != 0) && f.longName != task && RuneString(f.shortName) != task
    && f.longName != [104, 101, 108, 112] && f.shortName != 104
  }

  /** The first flag that is not registrable, or has a name that was used, gives the reason of the panic. */
  ghost predicate FirstBlamed(task: Bytes, flags: seq<Flag>, p: Panic) {
    exists i :: 0 <= i < |flags| && AllRegistrable(task, flags[..i]) && Blames(task, AllNames(flags[..i]), flags[i], p)
  }

  ghost predicate AllRegistrable(task: Bytes, flags: seq<Flag>) {
    Distinct(AllNames(flags)) && forall f :: f in flags ==> Registrable(task, f)
  }

  lemma RuneIsH(r: int)
    ensures RuneString(r) == [104] <==> r == 104
  {}

  lemma ObjectionIs(task: Bytes, f: Flag)
    ensures Objection(task, f).None? <==> Registrable(task, f)
    ensures Objection(task, f) != Some(DuplicateLongName) && Objection(task, f) != Some(DuplicateShortName)
    ensures forall p: Panic :: !p.DuplicateLongName? && !p.DuplicateShortName? ==>
      (Objection(task, f) == Some(p) <==> Blames(task, [], f, p))
  {
    hide RuneString;
    RuneIsH(f.shortName);
  }

  /** What AddFlag finds out about the next flag. */
  lemma AddFlagIs(task: Bytes, index: map<Bytes, Flag>, f: Flag, names: seq<Bytes>, p: Panic)
    requires forall k :: k in index <==> k in names
    ensures AddFlag(task, index, f) == Panicked(p) <==> Blames(task, names, f, p)
  {
    hide RuneString, Objection;
    ObjectionIs(task, f);
    if !p.DuplicateLongName? && !p.DuplicateShortName? { assert Blames(task, names, f, p) <==> Blames(task, [], f, p); }
  }

  /** Registration of a list of flags panics with `p` iff the first flag to blame is to blame for `p`. */
  lemma {:induction false} PanicsIff(task: Bytes, flags: seq<Flag>, p: Panic)
    ensures IndexOf(task, flags) == Panicked(p) <==> FirstBlamed(task, flags, p)
  {
    hide AddFlag, Objection, Names, Distinct, Blames, Registrable;
    if flags == [] {
      NothingBlamed(task, p);
    } else {
      var init, last := flags[..|flags| - 1], flags[|flags| - 1];
      PanicsIff(task, init, p);
      AcceptedIff(task, init);
      BlamedLater(task, flags, p);
      if IndexOf(task, init).Index? {
        AddFlagIs(task, IndexOf(task, init).flags, last, AllNames(init), p);
      }
    }
  }

  ghost predicate LastBlamed(task: Bytes, flags: seq<Flag>, p: Panic)
    requires flags != []
  {
    var init, last := flags[..|flags| - 1], flags[|flags| - 1];
    AllRegistrable(task, init) && Blames(task, AllNames(init), last, p)
  }

  lemma BlamedLater(task: Bytes, flags: seq<Flag>, p: Panic)
    requires flags != []
    ensures FirstBlamed(task, flags, p) <==> FirstBlamed(task, flags[..|flags| - 1], p) || LastBlamed(task, flags, p)
  {
    hide Blames, AllRegistrable;
    var init := flags[..|flags| - 1];
    assert forall i :: 0 <= i <= |init| ==> flags[..i] == init[..i];
    assert init[..|init|] == init;
    if i :| 0 <= i < |flags| && AllRegistrable(task, flags[..i]) && Blames(task, AllNames(flags[..i]), flags[i], p) {
      assert flags[..i] == init[..i] && (i < |init| ==> flags[i] == init[i]);
    }
    if i :| 0 <= i < |init| && AllRegistrable(task, init[..i]) && Blames(task, AllNames(init[..i]), init[i], p) {
      assert flags[..i] == init[..i] && flags[i] == init[i];
    }
  }

  lemma Demands(task: Bytes, flags: seq<Flag>)
    ensures IndexOf(task, flags).Index? <==> AllRegistrable(task, flags)
    ensures forall p :: IndexOf(task, flags) == Panicked(p) <==> FirstBlamed(task, flags, p)
  {
    hide IndexOf, Names, Distinct, Registrable, FirstBlamed;
    AcceptedIff(task, flags);
    forall p ensures IndexOf(task, flags) == Panicked(p) <==> FirstBlamed(task, flags, p) { PanicsIff(task, flags, p); }
  }

  lemma NothingBlamed(task: Bytes, p: Panic)
    ensures !FirstBlamed(task, [], p)
  {}

  /** After a panic the index has the names of the flags before the one to blame, and the long name of that one
      if its short name is the reason. */
  lemma KeptAfterPanic(task: Bytes, flags: seq<Flag>, i: nat, p: Panic)
    requires i < |flags| && AllRegistrable(task, flags[..i]) && Blames(task, AllNames(flags[..i]), flags[i], p)
    ensures IndexOf(task, flags[..i]).Index? && IsIndex(flags[..i], IndexOf(task, flags[..i]).flags)
    ensures var index, f := IndexOf(task, flags[..i]).flags, flags[i];
      KeptOf(task, flags) == if p.DuplicateShortName? && f.longName != [] then index[f.longName := f] else index
  {
    hide AddFlag, Objection, Names, Distinct, IsIndex, Kept;
    AcceptedIff(task, flags[..i]);
    var index := IndexOf(task, flags[..i]).flags;
    KeptOfOne(task, flags, i, index);
    AddFlagIs(task, index, flags[i], AllNames(flags[..i]), p);
    FirstPanic(task, flags, i + 1);
    KeptByOne(task, index, flags[i], AllNames(flags[..i]), p);
  }

  lemma KeptByOne(task: Bytes, index: map<Bytes, Flag>, f: Flag, names: seq<Bytes>, p: Panic)
    requires (forall k :: k in index <==> k in names) && Blames(task, names, f, p)
    ensures Kept(task, index, f) == if p.DuplicateShortName? && f.longName != [] then index[f.longName := f] else index
  {
    hide RuneString, Objection;
    ObjectionIs(task, f);
    if !p.DuplicateLongName? && !p.DuplicateShortName? { assert Blames(task, [], f, p); }
  }

  /** Registration takes a list of flags iff each is registrable and no name occurs twice; then
      every name belongs to exactly one flag. */
  lemma {:induction false} AcceptedIff(task: Bytes, flags: seq<Flag>)
    ensures IndexOf(task, flags).Index?
       <==> (forall f :: f in flags ==> Registrable(task, f)) && Distinct(AllNames(flags))
    ensures IndexOf(task, flags).Index? ==> IsIndex(flags, IndexOf(task, flags).flags)
    ensures IndexOf(task, flags).Index? ==> forall k :: k in IndexOf(task, flags).flags <==> k in AllNames(flags)
  {
    hide AddFlag, Objection, Names, Distinct, Registrable, IsIndex;
    if flags == [] {
      NoNames();
      assert IsIndex([], map[]) by { EmptyIndex(); }
    } else {
      var init, last := flags[..|flags| - 1], flags[|flags| - 1];
      AcceptedIff(task, init);
      assert flags == init + [last];
      DistinctConcat(AllNames(init), Names(last));
      if IndexOf(task, init).Index? {
        AddFlagIff(task, IndexOf(task, init).flags, last);
        ObjectionIs(task, last);
        if IndexOf(task, flags).Index? {
          IndexGrows(init, last, IndexOf(task, init).flags, IndexOf(task, flags).flags);
        }
      }
    }
  }

  // ---------------------------------------------------------------------------------------------
  // Parsing flag arguments

  /** The value under a key of the flag map: the flag's default, or the text that was passed. */
  datatype Value = Default(text: Bytes) | Passed(text: Bytes)

  function Split(s: Bytes): (parts: seq<Bytes>)
    ensures |parts| > 0
  {
    if s == [] then [[]]
    else
      var parts := Split(s[..|s| - 1]);
      if s[|s| - 1] == EQUALS then parts + [[]]
      else parts[..|parts| - 1] + [parts[|parts| - 1] + [s[|s| - 1]]]
  }

  /** getVerifiedFlagKey: `None` stands for its errors. */
  function VerifiedKey(index: map<Bytes, Flag>, flagKey: Bytes): Option<Bytes> {
    if [DASH, DASH] <= flagKey then
      if |flagKey| <= 3 || flagKey[2..] !in index then None else Some(flagKey[2..])
    else if [DASH] <= flagKey then
      if |flagKey| != 2 || flagKey[1..] !in index then None else Some(flagKey[1..])
    else None
  }

  /** The other key that gets the value as well. */
  function OtherKey(f: Flag, key: Bytes): Option<Bytes> {
    if |key| == 1 && key != f.longName && f.longName != [] then Some(f.longName)
    else if |key| > 1 && key == f.longName && f.shortName != 0 then Some(RuneString(f.shortName))
    else None
  }

  function Store(values: map<Bytes, Value>, f: Flag, key: Bytes, text: Bytes): map<Bytes, Value> {
    var one := values[key := Passed(text)];
    if OtherKey(f, key).Some? then one[OtherKey(f, key).value := Passed(text)] else one
  }

  /** The key and the text of an argument; `None` if the parser panics. */
  function Parsed(index: map<Bytes, Flag>, arg: Bytes): Option<(Bytes, Bytes)> {
    var parts := Split(arg);
    var key := VerifiedKey(index, parts[0]);
    if key.None? || |parts| > 2 then None else Some((key.value, if |parts| == 2 then parts[1] else []))
  }

  /** The flag map after `args`, or `None` if one of them makes the parser panic. */
  function FlagMap(index: map<Bytes, Flag>, args: seq<Bytes>): (r: Option<map<Bytes, Value>>)
    ensures r.Some? ==> index.Keys <= r.value.Keys
  {
    if args == [] then Some(map k | k in index :: Default(index[k].default))
    else
      var before, parsed := FlagMap(index, args[..|args| - 1]), Parsed(index, args[|args| - 1]);
      if before.None? || parsed.None? then None
      else if parsed.value.1 == [] then before
      else Some(Store(before.value, index[parsed.value.0], parsed.value.0, parsed.value.1))
  }

  method ParseTaskFlagsIntoMap(index: map<Bytes, Flag>, args: seq<Bytes>) returns (r: Option<map<Bytes, Value>>)
    ensures r == FlagMap(index, args)
    ensures r.Some? <==> forall i :: 0 <= i < |args| ==> Accepted(index, args[i])
  {
    hide FlagMap, Split, VerifiedKey, RuneString, Accepted;
    TakesIff(index, args);
    FlagMapEmpty(index);
    var values: map<Bytes, Value> := map k | k in index :: Default(index[k].default);
    for i := 0 to |args|
      invariant FlagMap(index, args[..i]) == Some(values)
    {
      FlagMapNext(index, args, i);
      var parts := Split(args[i]);
      var verified := VerifiedKey(index, parts[0]);
      if verified.None? || |parts| > 2 {
        PanicsForGood(index, args, i + 1);
        return None;
      }
      var key := verified.value;
      var val := if |parts| == 2 then parts[1] else [];
      if val != [] {
        var flag := index[key];
        values := values[key := Passed(val)];
        if |key| == 1 && key != flag.longName && flag.longName != [] {
          values := values[flag.longName := Passed(val)];
        } else if |key| > 1 && key == flag.longName && flag.shortName != 0 {
          values := values[RuneString(flag.shortName) := Passed(val)];
        }
      }
    }
    assert args[..|args|] == args;
    return Some(values);
  }

  lemma FlagMapEmpty(index: map<Bytes, Flag>)
    ensures FlagMap(index, []) == Some(map k | k in index :: Default(index[k].default))
  {}

  lemma FlagMapNext(index: map<Bytes, Flag>, args: seq<Bytes>, i: nat)
    requires i < |args|
    ensures FlagMap(index, args[..i]).None? || Parsed(index, args[i]).None? ==> FlagMap(index, args[..i + 1]).None?
    ensures FlagMap(index, args[..i]).Some? && Parsed(index, args[i]).Some? ==>
      var (key, text) := Parsed(index, args[i]).value;
      var values := FlagMap(index, args[..i]).value;
      key in index && FlagMap(index, args[..i + 1]) == Some(if text == [] then values else Store(values, index[key], key, text))
  {
    hide Split, Store;
    assert args[..i + 1][..i] == args[..i];
  }

  lemma {:induction false} PanicsForGood(index: map<Bytes, Flag>, args: seq<Bytes>, i: nat)
    requires i <= |args| && FlagMap(index, args[..i]).None?
    ensures FlagMap(index, args).None?
    decreases |args|
  {
    if i < |args| {
      assert args[..|args| - 1][..i] == args[..i];
      PanicsForGood(index, args[..|args| - 1], i);
    } else {
      assert args[..i] == args;
    }
  }

  // ---------------------------------------------------------------------------------------------
  // Agreement of the two keys of a flag

  /** The last non-empty value that the arguments give the flag, under either of its names. */
  function LastValue(index: map<Bytes, Flag>, args: seq<Bytes>, f: Flag): Value {
    if args == [] then Default(f.default)
    else
      var parsed := Parsed(index, args[|args| - 1]);
      if parsed.Some? && parsed.value.1 != [] && parsed.value.0 in Names(f) then Passed(parsed.value.1)
      else LastValue(index, args[..|args| - 1], f)
  }

  /** Every key of the flag that an argument can name takes the other one along. A single byte can be named
      unless it is a dash, which looks like a second dash, or the separator. */
  predicate Coupled(f: Flag) {
    f.longName != [] && f.shortName != 0 ==>
      |RuneString(f.shortName)| == 1 && (|f.longName| != 1 || f.longName == [DASH] || f.longName == [EQUALS])
  }

  function Join(parts: seq<Bytes>): Bytes
    requires |parts| > 0
  {
    if |parts| == 1 then parts[0] else Join(parts[..|parts| - 1]) + [EQUALS] + parts[|parts| - 1]
  }

  lemma JoinStartsAnew(parts: seq<Bytes>)
    requires |parts| > 0
    ensures Join(parts + [[]]) == Join(parts) + [EQUALS]
  {
    assert (parts + [[]])[..|parts|] == parts;
  }

  lemma JoinGrows(parts: seq<Bytes>, c: byte)
    requires |parts| > 0
    ensures Join(parts[..|parts| - 1] + [parts[|parts| - 1] + [c]]) == Join(parts) + [c]
  {
    var init, last := parts[..|parts| - 1], parts[|parts| - 1];
    var grown := init + [last + [c]];
    assert grown[..|parts| - 1] == init && grown[|parts| - 1] == last + [c];
    if |parts| > 1 {
      Regroup(Join(init) + [EQUALS], last, [c]);
    }
  }

  lemma Regroup(a: Bytes, b: Bytes, c: Bytes)
    ensures a + (b + c) == a + b + c
  {}

  /** Splitting takes an argument apart at every separator, and loses nothing. */
  lemma {:induction false} SplitJoins(s: Bytes)
    ensures Join(Split(s)) == s
    ensures forall i :: 0 <= i < |Split(s)| ==> EQUALS !in Split(s)[i]
  {
    hide Join;
    forall i | 0 <= i < |Split(s)| ensures EQUALS !in Split(s)[i] { SplitHasNoSeparator(s, i); }
    if s != [] {
      SplitJoins(s[..|s| - 1]);
      JoinStartsAnew(Split(s[..|s| - 1]));
      JoinGrows(Split(s[..|s| - 1]), s[|s| - 1]);
      assert s == s[..|s| - 1] + [s[|s| - 1]];
    } else {
      JoinOne([]);
    }
  }

  lemma JoinOne(s: Bytes)
    ensures Join([s]) == s
  {}

  lemma {:induction false} SplitHasNoSeparator(s: Bytes, i: nat)
    requires i < |Split(s)|
    ensures EQUALS !in Split(s)[i]
  {
    if s != [] {
      var parts := Split(s[..|s| - 1]);
      if i < |parts| { SplitHasNoSeparator(s[..|s| - 1], i); }
    }
  }

  lemma KeyCanBeNamed(index: map<Bytes, Flag>, arg: Bytes)
    requires Parsed(index, arg).Some?
    ensures Parsed(index, arg).value.0 in index && Parsed(index, arg).value.0 != []
    ensures Parsed(index, arg).value.0 != [DASH] && Parsed(index, arg).value.0 != [EQUALS]
  {
    SplitHasNoSeparator(arg, 0);
    var flagKey := Split(arg)[0];
    if !([DASH, DASH] <= flagKey) {
      assert flagKey[1..] == [flagKey[1]] && flagKey[1] in flagKey;
      assert flagKey[1] != DASH && flagKey[1] != EQUALS;
    }
  }

  /** Storing a value for a coupled flag stores it under all of its names, and under no name of another. */
  lemma StoreIsCoupled(flags: seq<Flag>, index: map<Bytes, Flag>, values: map<Bytes, Value>, f: Flag, key: Bytes,
                       text: Bytes, k: Bytes)
    requires IsIndex(flags, index) && f in flags && k in Names(f) && key in index && key != []
    requires key != [DASH] && key != [EQUALS] && k in values
    requires Coupled(f)
    ensures k in Store(values, index[key], key, text)
    ensures Store(values, index[key], key, text)[k] == if key in Names(f) then Passed(text) else values[k]
  {
    var g := index[key];
    assert key in Names(g) && index[k] == f;
    if key in Names(f) {
      assert g == f;
    } else {
      assert k !in Names(g);
      if OtherKey(g, key).Some? {
        assert OtherKey(g, key).value in Names(g);
      }
    }
  }

  /** For a coupled flag, both keys yield the last non-empty value given under either name, else the default. */
  lemma {:induction false} KeysYieldLastValue(task: Bytes, flags: seq<Flag>, args: seq<Bytes>, f: Flag, k: Bytes)
    requires IndexOf(task, flags).Index? && f in flags && k in Names(f) && Coupled(f)
    requires FlagMap(IndexOf(task, flags).flags, args).Some?
    ensures k in FlagMap(IndexOf(task, flags).flags, args).value
    ensures FlagMap(IndexOf(task, flags).flags, args).value[k] == LastValue(IndexOf(task, flags).flags, args, f)
    decreases |args|
  {
    AcceptedIff(task, flags);
    var index := IndexOf(task, flags).flags;
    if args != [] {
      var arg := args[|args| - 1];
      KeysYieldLastValue(task, flags, args[..|args| - 1], f, k);
      KeyCanBeNamed(index, arg);
      var key, text := Parsed(index, arg).value.0, Parsed(index, arg).value.1;
      if text != [] {
        StoreIsCoupled(flags, index, FlagMap(index, args[..|args| - 1]).value, f, key, text, k);
      }
    }
  }

  /** A name and a text in one argument. */
  function Argument(dashes: Bytes, name: Bytes, text: Bytes): Bytes {
    dashes + name + [EQUALS] + text
  }

  lemma SplitMore(s: Bytes, c: byte)
    ensures c == EQUALS ==> Split(s + [c]) == Split(s) + [[]]
    ensures c != EQUALS ==> Split(s + [c]) == Split(s)[..|Split(s)| - 1] + [Split(s)[|Split(s)| - 1] + [c]]
  {
    assert (s + [c])[..|s|] == s && (s + [c])[|s|] == c;
  }

  lemma SplitNone()
    ensures Split([]) == [[]]
  {}

  lemma {:induction false} SplitOne(s: Bytes)
    requires EQUALS !in s
    ensures Split(s) == [s]
  {
    hide Split;
    if s == [] {
      SplitNone();
    } else {
      var init, last := s[..|s| - 1], s[|s| - 1];
      SplitOne(init);
      SplitMore(init, last);
      assert s == init + [last];
    }
  }

  lemma {:induction false} SplitTwo(a: Bytes, b: Bytes)
    requires EQUALS !in a && EQUALS !in b
    ensures Split(a + [EQUALS] + b) == [a, b]
    decreases |b|
  {
    hide Split;
    if b == [] {
      SplitOne(a);
      SplitMore(a, EQUALS);
      assert a + [EQUALS] + b == a + [EQUALS];
    } else {
      var init, last := b[..|b| - 1], b[|b| - 1];
      SplitTwo(a, init);
      SplitMore(a + [EQUALS] + init, last);
      assert b == init + [last];
      assert a + [EQUALS] + b == a + [EQUALS] + init + [last];
    }
  }

  // ---------------------------------------------------------------------------------------------
  // Which arguments the parser takes, spelled out

  function Dashes(name: Bytes): Bytes {
    if |name| == 1 then [DASH] else [DASH, DASH]
  }

  /** One dash and a registered one-byte name, or two dashes and a longer one, alone or with a text after the
      separator. The bare dash cannot be named. */
  predicate IsArgument(index: map<Bytes, Flag>, arg: Bytes, name: Bytes, text: Bytes) {
    && name in index && name != [] && name != [DASH] && EQUALS !in name && EQUALS !in text
    && (arg == Dashes(name) + name + [EQUALS] + text || (text == [] && arg == Dashes(name) + name))
  }

  ghost predicate Accepted(index: map<Bytes, Flag>, arg: Bytes) {
    exists name, text :: IsArgument(index, arg, name, text)
  }

  lemma VerifiedIff(index: map<Bytes, Flag>, flagKey: Bytes, name: Bytes)
    ensures VerifiedKey(index, flagKey) == Some(name)
       <==> name in index && name != [] && name != [DASH] && flagKey == Dashes(name) + name
  {
    if flagKey == Dashes(name) + name && |name| > 0 {
      assert flagKey[|Dashes(name)|..] == name;
      assert |name| == 1 ==> flagKey == [DASH, name[0]] && name == [name[0]];
      assert |name| > 1 ==> flagKey[0] == DASH && flagKey[1] == DASH && flagKey[2..] == name;
    }
    if [DASH, DASH] <= flagKey {
      assert flagKey == [DASH, DASH] + flagKey[2..];
    } else if [DASH] <= flagKey {
      assert flagKey == [DASH] + flagKey[1..];
      assert |flagKey| == 2 && flagKey[1] == DASH ==> flagKey == [DASH, DASH];
    }
  }

  lemma JoinTwo(a: Bytes, b: Bytes)
    ensures Join([a, b]) == a + [EQUALS] + b
  {
    assert [a, b][..1] == [a];
    JoinOne(a);
  }

  /** The parser finds exactly the name and the text that the argument is made of. */
  lemma ParsedIff(index: map<Bytes, Flag>, arg: Bytes, name: Bytes, text: Bytes)
    ensures Parsed(index, arg) == Some((name, text)) <==> IsArgument(index, arg, name, text)
  {
    hide Split, VerifiedKey, Join;
    if Parsed(index, arg) == Some((name, text)) {
      var parts := Split(arg);
      SplitJoins(arg);
      VerifiedIff(index, parts[0], name);
      assert EQUALS !in name by {
        assert forall i :: 0 <= i < |name| ==> parts[0][|Dashes(name)| + i] == name[i];
      }
      if |parts| == 1 {
        assert parts == [parts[0]];
        JoinOne(parts[0]);
      } else {
        assert parts == [parts[0], parts[1]];
        JoinTwo(parts[0], parts[1]);
      }
    }
    if IsArgument(index, arg, name, text) {
      var key := Dashes(name) + name;
      assert EQUALS !in key;
      VerifiedIff(index, key, name);
      if arg == key { SplitOne(key); } else { SplitTwo(key, text); }
    }
  }

  lemma ParsedSome(index: map<Bytes, Flag>, arg: Bytes)
    ensures Parsed(index, arg).Some? <==> Accepted(index, arg)
  {
    hide Parsed, IsArgument;
    if Parsed(index, arg).Some? {
      ParsedIff(index, arg, Parsed(index, arg).value.0, Parsed(index, arg).value.1);
    }
    if name, text :| IsArgument(index, arg, name, text) {
      ParsedIff(index, arg, name, text);
    }
  }

  /** The parser does not panic iff every argument has that form. */
  lemma {:induction false} TakesIff(index: map<Bytes, Flag>, args: seq<Bytes>)
    ensures FlagMap(index, args).Some? <==> forall i :: 0 <= i < |args| ==> Accepted(index, args[i])
    decreases |args|
  {
    hide Parsed, Accepted, Store;
    if args != [] {
      TakesIff(index, args[..|args| - 1]);
      ParsedSome(index, args[|args| - 1]);
    }
  }

  /** An argument without a text, or with an empty one, leaves the map as it is. */
  lemma EmptyTextKeeps(index: map<Bytes, Flag>, args: seq<Bytes>, arg: Bytes, name: Bytes)
    requires FlagMap(index, args).Some? && IsArgument(index, arg, name, [])
    ensures FlagMap(index, args + [arg]) == FlagMap(index, args)
  {
    hide Parsed, IsArgument, Store;
    ParsedIff(index, arg, name, []);
    assert (args + [arg])[..|args|] == args;
  }

  /** A flag that is not coupled has an argument that reaches one of its keys only. */
  lemma UncoupledArgument(task: Bytes, flags: seq<Flag>, f: Flag, text: Bytes) returns (arg: Bytes, key: Bytes,
                          other: Bytes)
    requires IndexOf(task, flags).Index? && f in flags && !Coupled(f) && EQUALS !in text
    ensures Names(f) == [key, other] || Names(f) == [other, key]
    ensures Parsed(IndexOf(task, flags).flags, arg) == Some((key, text)) && OtherKey(f, key).None? && key != other
    ensures key in IndexOf(task, flags).flags && IndexOf(task, flags).flags[key] == f
  {
    hide IndexOf, RuneString, Parsed, Argument, OtherKey, Coupled;
    UncoupledNames(f);
    NamesDiffer(task, flags, f);
    Named(task, flags, f, RuneString(f.shortName));
    Named(task, flags, f, f.longName);
    var index, short := IndexOf(task, flags).flags, RuneString(f.shortName);
    assert Names(f)[0] == f.longName && Names(f)[1] == short;
    if |short| > 1 {
      key, other := short, f.longName;
      arg := Argument([DASH, DASH], short, text);
      LongArgument(index, short, text);
    } else {
      key, other := f.longName, short;
      arg := Argument([DASH], f.longName, text);
      ShortArgument(index, f.longName, text);
    }
  }

  lemma Named(task: Bytes, flags: seq<Flag>, f: Flag, k: Bytes)
    requires IndexOf(task, flags).Index? && f in flags && k in Names(f)
    ensures k in IndexOf(task, flags).flags && IndexOf(task, flags).flags[k] == f
  {
    hide IndexOf, Names, Distinct, Objection;
    AcceptedIff(task, flags);
  }

  /** The two names of a flag that is not coupled, and the one of them that is stored alone. */
  lemma UncoupledNames(f: Flag)
    requires !Coupled(f)
    ensures Names(f) == [f.longName, RuneString(f.shortName)] && f.longName != [] && f.shortName != 0
    ensures |RuneString(f.shortName)| > 1 && f.longName != RuneString(f.shortName) ==>
      OtherKey(f, RuneString(f.shortName)).None?
    ensures |RuneString(f.shortName)| <= 1 ==>
      |f.longName| == 1 && f.longName != [DASH] && f.longName != [EQUALS] && OtherKey(f, f.longName).None?
  {
    hide RuneString;
  }

  lemma LongArgument(index: map<Bytes, Flag>, name: Bytes, text: Bytes)
    requires |name| > 1 && name in index && EQUALS !in name && EQUALS !in text
    ensures Parsed(index, Argument([DASH, DASH], name, text)) == Some((name, text))
  {
    hide Split;
    SplitTwo([DASH, DASH] + name, text);
    assert ([DASH, DASH] + name)[2..] == name;
  }

  lemma ShortArgument(index: map<Bytes, Flag>, name: Bytes, text: Bytes)
    requires |name| == 1 && name in index && name != [DASH] && name != [EQUALS] && EQUALS !in text
    ensures Parsed(index, Argument([DASH], name, text)) == Some((name, text))
  {
    hide Split;
    SplitTwo([DASH] + name, text);
    assert ([DASH] + name)[1..] == name && name[0] != DASH && name == [name[0]];
  }

  lemma {:induction false} NamesDiffer(task: Bytes, flags: seq<Flag>, f: Flag)
    requires IndexOf(task, flags).Index? && f in flags && f.longName != [] && f.shortName != 0
    ensures f.longName != RuneString(f.shortName)
  {
    var init, last := flags[..|flags| - 1], flags[|flags| - 1];
    if f != last {
      NamesDiffer(task, init, f);
    }
  }

  /** The keys of an accepted flag agree on all arguments that the parser takes iff the flag is coupled. */
  lemma KeysAgreeIff(task: Bytes, flags: seq<Flag>, f: Flag)
    requires IndexOf(task, flags).Index? && f in flags
    ensures Coupled(f) <==> forall args, j, k :: AgreeOn(IndexOf(task, flags).flags, args, f, j, k)
  {
    hide *;
    var index := IndexOf(task, flags).flags;
    if Coupled(f) {
      forall args, j, k ensures AgreeOn(index, args, f, j, k) {
        CoupledAgree(task, flags, f, args, j, k);
      }
    } else {
      var arg, key, other := UncoupledDiffers(task, flags, f);
    }
  }

  lemma CoupledAgree(task: Bytes, flags: seq<Flag>, f: Flag, args: seq<Bytes>, j: Bytes, k: Bytes)
    requires IndexOf(task, flags).Index? && f in flags && Coupled(f)
    ensures AgreeOn(IndexOf(task, flags).flags, args, f, j, k)
  {
    hide IndexOf, FlagMap, Names, Coupled, LastValue;
    var index := IndexOf(task, flags).flags;
    if FlagMap(index, args).Some? && j in Names(f) && k in Names(f) {
      KeysYieldLastValue(task, flags, args, f, j);
      KeysYieldLastValue(task, flags, args, f, k);
    }
  }

  lemma UncoupledDiffers(task: Bytes, flags: seq<Flag>, f: Flag) returns (arg: Bytes, key: Bytes, other: Bytes)
    requires IndexOf(task, flags).Index? && f in flags && !Coupled(f)
    ensures !AgreeOn(IndexOf(task, flags).flags, [arg], f, key, other)
  {
    hide IndexOf, Coupled, Names, Parsed, OtherKey;
    var index := IndexOf(task, flags).flags;
    arg, key, other := UncoupledArgument(task, flags, f, [65]);
    OneArgument(index, arg);
  }

  /** Such flags are accepted: one with a short name of two bytes, whose own key misses the long name. */
  lemma WideShortNameDiffers() returns (f: Flag, arg: Bytes, key: Bytes, other: Bytes)
    ensures f == Flag("d", 0xE9, [101, 101], [], StringType) && IndexOf([116], [f]).Index?
    ensures !AgreeOn(IndexOf([116], [f]).flags, [arg], f, key, other)
  {
    f := Flag("d", 0xE9, [101, 101], [], StringType);
    assert [f][..0] == [] && RuneString(0xE9) == [0xC3, 0xA9];
    arg, key, other := UncoupledDiffers([116], [f], f);
  }

  /** And one with a long name of one byte, which is taken for a short name. */
  lemma NarrowLongNameDiffers() returns (f: Flag, arg: Bytes, key: Bytes, other: Bytes)
    ensures f == Flag("d", 98, [97], [], StringType) && IndexOf([116], [f]).Index?
    ensures !AgreeOn(IndexOf([116], [f]).flags, [arg], f, key, other)
  {
    f := Flag("d", 98, [97], [], StringType);
    assert [f][..0] == [] && RuneString(98) == [98];
    arg, key, other := UncoupledDiffers([116], [f], f);
  }

  predicate AgreeOn(index: map<Bytes, Flag>, args: seq<Bytes>, f: Flag, j: Bytes, k: Bytes) {
    var values := FlagMap(index, args);
    values.Some? && j in Names(f) && k in Names(f) ==>
      j in values.value && k in values.value && values.value[j] == values.value[k]
  }

  lemma OneArgument(index: map<Bytes, Flag>, arg: Bytes)
    ensures FlagMap(index, [arg]) ==
      if Parsed(index, arg).None? then None
      else if Parsed(index, arg).value.1 == [] then FlagMap(index, [])
      else Some(Store(FlagMap(index, []).value, index[Parsed(index, arg).value.0], Parsed(index, arg).value.0, Parsed(index, arg).value.1))
  {
    assert [arg][..0] == [];
  }
}
