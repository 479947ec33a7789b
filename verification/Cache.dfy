/** The persistent cache: which runs of a task it skips. */
module Cache {
  import opened Tasks
  import opened Snapshot
  import opened Detector
  import opened Watch

  datatype Outcome = Skipped | Ran | Fatal

  /** What the cache remembers, as a value. */
  datatype Memory = Memory(ranOnce: set<Task>, allDirty: bool, dirtyFiles: seq<Path>)

  /** No file that is known to differ is a source of the task. */
  predicate Clean(glob: Glob, m: Memory, task: Sources) {
    !m.allDirty && forall i :: 0 <= i < |m.dirtyFiles| ==> !IsSource(glob, task, m.dirtyFiles[i])
  }

  /** Every file matches no source pattern, or an ignore pattern as well. */
  predicate NoneIsSource(glob: Glob, sources: seq<string>, ignore: seq<string>, files: seq<Path>) {
    forall i :: 0 <= i < |files| && AnyMatch(glob, sources, files[i]) ==> AnyMatch(glob, ignore, files[i])
  }

  predicate IsInvalid(glob: Glob, task: Sources, path: Path) {
    AnyInvalid(glob, task.sources, path) || AnyInvalid(glob, task.ignore, path)
  }

  /** The loop over the files comes to the `i`-th one, on which some pattern is not valid. */
  predicate MeetsInvalid(glob: Glob, task: Sources, files: seq<Path>, i: nat)
    requires i < |files|
  {
    IsInvalid(glob, task, files[i]) && forall k :: 0 <= k < i ==> !IsSource(glob, task, files[k])
  }

  class Cache {
    var ranOnce: map<Task, bool>
    var allDirty: bool
    var dirtyFiles: seq<Path>

    constructor ()
      ensures Remembers() == Memory({}, false, [])
    {
      ranOnce, allDirty, dirtyFiles := map[], false, [];
    }

    ghost function Remembers(): Memory
      reads this
    {
      Memory((set t | t in ranOnce && ranOnce[t]), allDirty, dirtyFiles)
    }

    method Ignore()
      modifies this`allDirty
      ensures Remembers() == old(Remembers()).(allDirty := true)
    {
      allDirty := true;
    }

    method IsFirstRun(task: Task) returns (first: bool)
      modifies this`ranOnce
      ensures first <==> task !in old(Remembers()).ranOnce
      ensures Remembers() == old(Remembers()).(ranOnce := old(Remembers()).ranOnce + {task})
    {
      first := !(task in ranOnce && ranOnce[task]);
      ranOnce := ranOnce[task := true];
    }

    /** `Failed` is the fatal exit on a pattern that is not valid. */
    method IsValid(glob: Glob, task: Sources) returns (r: Result<bool>)
      ensures r.Ok? ==> (r.value <==> Clean(glob, Remembers(), task))
      ensures r.Ok? ==> (r.value <==> !allDirty && NoneIsSource(glob, task.sources, task.ignore, dirtyFiles))
      ensures r.Failed? <==> !allDirty && exists i :: 0 <= i < |dirtyFiles| && MeetsInvalid(glob, task, dirtyFiles, i)
    {
      if allDirty {
        return Ok(false);
      }
      for i := 0 to |dirtyFiles|
        invariant forall k :: 0 <= k < i ==> !IsSource(glob, task, dirtyFiles[k]) && !IsInvalid(glob, task, dirtyFiles[k])
      {
        var source := IsTaskSource(glob, task, dirtyFiles[i]);
        if source.Failed? {
          assert MeetsInvalid(glob, task, dirtyFiles, i);
          return Failed;
        }
        if source.value {
          return Ok(false);
        }
      }
      return Ok(true);
    }

    /** The Run function that the cache puts in place of the task's own. */
    method MaybeRun(glob: Glob, task: Sources, hasLogger: bool) returns (r: Outcome)
      modifies this`ranOnce
      ensures Remembers() == After(old(Remembers()), Run(task, hasLogger))
      ensures r == Skipped <==> Skips(glob, old(Remembers()), Run(task, hasLogger)) && r != Fatal
      ensures r == Skipped <==>
        && hasLogger && !old(task.task in ranOnce && ranOnce[task.task])
        && !allDirty && NoneIsSource(glob, task.sources, task.ignore, dirtyFiles) && r != Fatal
      ensures r == Fatal <==>
        && !old(task.task in ranOnce && ranOnce[task.task])
        && !allDirty && exists i :: 0 <= i < |dirtyFiles| && MeetsInvalid(glob, task, dirtyFiles, i)
    {
      var first := IsFirstRun(task.task);
      if first {
        var valid := IsValid(glob, task);
        if valid.Failed? {
          return Fatal;
        }
        if valid.value && hasLogger {
          return Skipped;
        }
      }
      return Ran;
    }

    /** Reads the last snapshot and looks for files that differ from it. If either fails, everything
        counts as dirty. */
    method Start(snapshotter: Snapshotter, read: Result<Snapshot>)
      requires read.Ok? ==> read.value.Loaded()
      modifies this`allDirty, this`dirtyFiles
      ensures ranOnce == old(ranOnce)
      ensures allDirty <==> old(allDirty) || read.Failed? || !DiffWorks(snapshotter, read)
      ensures dirtyFiles == if DiffWorks(snapshotter, read) then StartFiles(snapshotter, read) else old(dirtyFiles)
    {
      var s: Snapshot;
      if read.Failed? {
        allDirty := true;
        s := new Snapshot("");
      } else {
        s := read.value;
      }
      var files, failed := snapshotter.Diff(s);
      if failed {
        allDirty := true;
        return;
      }
      dirtyFiles := files;
    }
  }

  /** The commit that Start compares with: the one of the snapshot, or none if that could not be read. */
  ghost function StartSha(read: Result<Snapshot>): Sha
    reads if read.Ok? then {read.value} else {}
  {
    if read.Ok? then read.value.commitSha else ""
  }

  ghost function StartEntries(read: Result<Snapshot>): seq<Entry>
    reads if read.Ok? then {read.value} else {}
  {
    if read.Ok? then read.value.uncommittedFiles else []
  }

  /** Neither the tools nor the last rehash fail. */
  ghost predicate DiffWorks(snapshotter: Snapshotter, read: Result<Snapshot>)
    reads if read.Ok? then {read.value} else {}
  {
    && snapshotter.CanSnapshot(false) && snapshotter.diffFunc(StartSha(read)).Ok?
    && var current := Entries(snapshotter.Listed(false).value, snapshotter.hashFunc);
       !LastHashFailed(StartEntries(read), current, snapshotter.hashFunc)
  }

  ghost function StartFiles(snapshotter: Snapshotter, read: Result<Snapshot>): seq<Path>
    requires DiffWorks(snapshotter, read)
    reads if read.Ok? then {read.value} else {}
  {
    var current := Entries(snapshotter.Listed(false).value, snapshotter.hashFunc);
    Reported(snapshotter.diffFunc(StartSha(read)).value, StartEntries(read),
             Hits(StartEntries(read), current, snapshotter.hashFunc))
  }

  // ---------------------------------------------------------------------------------------------
  // Sequences of runs

  datatype Op = Run(task: Sources, hasLogger: bool) | Ignore

  function After(m: Memory, op: Op): Memory {
    match op
    case Run(task, _) => m.(ranOnce := m.ranOnce + {task.task})
    case Ignore => m.(allDirty := true)
  }

  predicate Skips(glob: Glob, m: Memory, op: Op) {
    op.Run? && op.hasLogger && op.task.task !in m.ranOnce && Clean(glob, m, op.task)
  }

  function AfterAll(m: Memory, ops: seq<Op>): Memory {
    if ops == [] then m else After(AfterAll(m, ops[..|ops| - 1]), ops[|ops| - 1])
  }

  /** How many of the runs of `t` are skipped. */
  function SkipCount(glob: Glob, m: Memory, ops: seq<Op>, t: Task): nat {
    if ops == [] then 0
    else
      var init, op := ops[..|ops| - 1], ops[|ops| - 1];
      SkipCount(glob, m, init, t) + if Skips(glob, AfterAll(m, init), op) && op.task.task == t then 1 else 0
  }

  predicate RunsIn(ops: seq<Op>, t: Task) {
    exists i :: 0 <= i < |ops| && ops[i].Run? && ops[i].task.task == t
  }

  /** Over any sequence of runs a task is skipped at most once, and never after it was run or skipped. */
  lemma {:induction false} SkippedAtMostOnce(glob: Glob, m: Memory, ops: seq<Op>, t: Task)
    ensures SkipCount(glob, m, ops, t) <= 1
    ensures t in m.ranOnce ==> SkipCount(glob, m, ops, t) == 0
    ensures SkipCount(glob, m, ops, t) == 1 ==> t in AfterAll(m, ops).ranOnce
    ensures t in m.ranOnce ==> t in AfterAll(m, ops).ranOnce
  {
    if ops != [] {
      SkippedAtMostOnce(glob, m, ops[..|ops| - 1], t);
    }
  }

  /** What a skip tells, wherever in the sequence it happens: it is the first run of the task, the cache was
      not bypassed before, and none of the files found at the start is a source of the task. */
  lemma {:induction false} SkipMeans(glob: Glob, m: Memory, ops: seq<Op>, op: Op)
    requires Skips(glob, AfterAll(m, ops), op)
    ensures !RunsIn(ops, op.task.task) && op.task.task !in m.ranOnce && Ignore !in ops && Clean(glob, m, op.task)
  {
    MemoryAfter(m, ops, op.task.task);
  }

  lemma {:induction false} MemoryAfter(m: Memory, ops: seq<Op>, t: Task)
    ensures AfterAll(m, ops).dirtyFiles == m.dirtyFiles
    ensures AfterAll(m, ops).allDirty <==> m.allDirty || Ignore in ops
    ensures t in AfterAll(m, ops).ranOnce <==> t in m.ranOnce || RunsIn(ops, t)
  {
    if ops != [] {
      var init, op := ops[..|ops| - 1], ops[|ops| - 1];
      MemoryAfter(m, init, t);
      assert ops == init + [op];
      assert RunsIn(ops, t) <==> RunsIn(init, t) || (op.Run? && op.task.task == t) by {
        if RunsIn(init, t) {
          var i :| 0 <= i < |init| && init[i].Run? && init[i].task.task == t;
          assert ops[i] == init[i];
        }
      }
    }
  }

  // ---------------------------------------------------------------------------------------------
  // The cache on top of the detector

  /** A run that is skipped after `ops`, in a process whose Start found `dirtyFiles`, does not miss `p`. */
  predicate NoticesChange(glob: Glob, m: Memory, ops: seq<Op>, op: Op, dirtyFiles: seq<Path>, was: Repo, now: Repo, p: Path) {
    m.dirtyFiles == dirtyFiles && Skips(glob, AfterAll(m, ops), op) && Changed(was, now, p) ==> !IsSource(glob, op.task, p)
  }

  /** The snapshot that Start read is the record of `was`, and the tools answer for `now`. */
  ghost predicate Started(sn: Snapshotter, snap: Snapshot, h: History, was: Repo, now: Repo, hash: Hash)
    reads snap
  {
    && Separates(hash) && snap.commitSha in h && IsRecord(h, was, hash, snap.commitSha, snap.uncommittedFiles)
    && Reflects(sn, h, now, hash)
  }

  /** The paths that Start finds by a comparison of hashes, in order. */
  ghost function StartHits(sn: Snapshotter, snap: Snapshot): seq<Path>
    requires sn.CanSnapshot(false)
    reads snap
  {
    Hits(snap.uncommittedFiles, Entries(sn.Listed(false).value, sn.hashFunc), sn.hashFunc)
  }

  lemma StartObserves(sn: Snapshotter, snap: Snapshot, h: History, was: Repo, now: Repo, hash: Hash)
    requires Started(sn, snap, h, was, now, hash)
    ensures DiffWorks(sn, Ok(snap)) && sn.CanSnapshot(false)
    ensures (forall p :: Changed(was, now, p) ==> p in StartFiles(sn, Ok(snap)))
       <==> forall p :: Hidden(h, was, now, snap.commitSha, p) ==> LastHit(StartHits(sn, snap), p)
  {
    DiffObserves(sn, h, was, now, hash, snap.commitSha, snap.uncommittedFiles);
    CompleteIff(h, was, now, hash, snap.commitSha, snap.uncommittedFiles,
                Entries(sn.Listed(false).value, sn.hashFunc), sn.diffFunc(snap.commitSha).value, sn.hashFunc);
  }

  /** From Start to any later skip: the cache skips no task with a changed source, whatever the patterns and
      whatever ran before, iff each file that changed without the commit diff showing it is the last hit. */
  lemma SkipsSoundIff(sn: Snapshotter, snap: Snapshot, h: History, was: Repo, now: Repo, hash: Hash)
    requires Started(sn, snap, h, was, now, hash)
    ensures DiffWorks(sn, Ok(snap)) && sn.CanSnapshot(false)
    ensures (forall glob, m, ops, op, p :: NoticesChange(glob, m, ops, op, StartFiles(sn, Ok(snap)), was, now, p))
       <==> forall p :: Hidden(h, was, now, snap.commitSha, p) ==> LastHit(StartHits(sn, snap), p)
  {
    hide *;
    StartObserves(sn, snap, h, was, now, hash);
    var files := StartFiles(sn, Ok(snap));
    if forall p :: Changed(was, now, p) ==> p in files {
      forall glob, m, ops, op, p ensures NoticesChange(glob, m, ops, op, files, was, now, p) {
        ReportedIsNoticed(glob, m, ops, op, files, was, now, p);
      }
    } else {
      var p :| Changed(was, now, p) && p !in files;
      var glob := MissedBySkip(files, was, now, p);
    }
  }

  lemma ReportedIsNoticed(glob: Glob, m: Memory, ops: seq<Op>, op: Op, files: seq<Path>, was: Repo, now: Repo, p: Path)
    requires Changed(was, now, p) ==> p in files
    ensures NoticesChange(glob, m, ops, op, files, was, now, p)
  {
    if m.dirtyFiles == files && Skips(glob, AfterAll(m, ops), op) {
      SkipMeans(glob, m, ops, op);
    }
  }

  /** A task whose only source is a changed file that Start did not report is skipped on its first run. */
  lemma MissedBySkip(files: seq<Path>, was: Repo, now: Repo, p: Path) returns (glob: Glob)
    requires Changed(was, now, p) && p !in files
    ensures !NoticesChange(glob, Memory({}, false, files), [], Run(Sources(0, [p], []), true), files, was, now, p)
  {
    glob := (pattern, path) => Ok(pattern == path);
    var task := Sources(0, [p], []);
    assert task.sources[0] == p;
    assert IsSource(glob, task, p);
  }
}
