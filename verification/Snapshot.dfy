/** The change detector: snapshots of a repository, and the difference between a recorded snapshot and the
    present state. */
module Snapshot {
  import opened Tasks

  type Path = string
  type Sha = string

  /** Outcome of a call that can fail; which error it was does not matter here. */
  datatype Result<+T> = Ok(value: T) | Failed

  datatype Entry = Entry(path: Path, md5: string)

  /** The hash recorded for `path`, or "": of several entries the last one counts. */
  function HashIn(entries: seq<Entry>, path: Path): string {
    if entries == [] then ""
    else if entries[|entries| - 1].path == path then entries[|entries| - 1].md5
    else HashIn(entries[..|entries| - 1], path)
  }

  class Snapshot {
    var commitSha: Sha
    var uncommittedFiles: seq<Entry>
    var uncommittedFilesMap: map<Path, string>

    constructor (commitSha: Sha)
      ensures this.commitSha == commitSha && uncommittedFiles == [] && Loaded()
    {
      this.commitSha, uncommittedFiles, uncommittedFilesMap := commitSha, [], map[];
    }

    /** The map agrees with the list. */
    ghost predicate Loaded()
      reads this
    {
      forall p :: HashFor(p) == HashIn(uncommittedFiles, p)
    }

    function HashFor(path: Path): string
      reads this
    {
      if path in uncommittedFilesMap then uncommittedFilesMap[path] else ""
    }

    method LoadMap()
      modifies this`uncommittedFilesMap
      ensures Loaded()
    {
      uncommittedFilesMap := map[];
      for i := 0 to |uncommittedFiles|
        invariant forall p :: HashFor(p) == HashIn(uncommittedFiles[..i], p)
      {
        uncommittedFilesMap := uncommittedFilesMap[uncommittedFiles[i].path := uncommittedFiles[i].md5];
        assert uncommittedFiles[..i + 1][..i] == uncommittedFiles[..i];
      }
      assert uncommittedFiles[..|uncommittedFiles|] == uncommittedFiles;
    }
  }

  // ---------------------------------------------------------------------------------------------
  // What Diff reports, as a function of what the tools answer

  /** The files of the commit diff that were not uncommitted when the previous snapshot was taken. */
  function Committed(git: seq<Path>, previous: seq<Entry>): seq<Path> {
    if git == [] then []
    else
      Committed(git[..|git| - 1], previous)
      + if HashIn(previous, git[|git| - 1]) == "" then [git[|git| - 1]] else []
  }

  /** The present hash of a file that was uncommitted before; "" if there is none. */
  function Rehash(current: seq<Entry>, hash: Path -> Result<string>, path: Path): string {
    if HashIn(current, path) != "" then HashIn(current, path)
    else match hash(path)
      case Ok(md5) => md5
      case Failed => ""
  }

  predicate Stale(current: seq<Entry>, hash: Path -> Result<string>, e: Entry) {
    Rehash(current, hash, e.path) == "" || Rehash(current, hash, e.path) != e.md5
  }

  predicate Unrecorded(previous: seq<Entry>, e: Entry) {
    HashIn(previous, e.path) == "" || HashIn(previous, e.path) != e.md5
  }

  /** The paths that fail a comparison of hashes, in the order in which they are found. */
  function StaleAmong(entries: seq<Entry>, current: seq<Entry>, hash: Path -> Result<string>): seq<Path> {
    if entries == [] then []
    else
      StaleAmong(entries[..|entries| - 1], current, hash)
      + if Stale(current, hash, entries[|entries| - 1]) then [entries[|entries| - 1].path] else []
  }

  function UnrecordedAmong(entries: seq<Entry>, previous: seq<Entry>): seq<Path> {
    if entries == [] then []
    else
      UnrecordedAmong(entries[..|entries| - 1], previous)
      + if Unrecorded(previous, entries[|entries| - 1]) then [entries[|entries| - 1].path] else []
  }

  function Hits(previous: seq<Entry>, current: seq<Entry>, hash: Path -> Result<string>): seq<Path> {
    StaleAmong(previous, current, hash) + UnrecordedAmong(current, previous)
  }

  /** What the code reports: every hit starts over from the commit diff. */
  function Reported(git: seq<Path>, previous: seq<Entry>, hits: seq<Path>): seq<Path> {
    if hits == [] then Committed(git, previous) else git + [hits[|hits| - 1]]
  }

  /** What it would report if every hit were added to the files found so far. */
  function Accumulated(git: seq<Path>, previous: seq<Entry>, hits: seq<Path>): seq<Path> {
    Committed(git, previous) + hits
  }

  /** Whether the last of the files that had to be hashed again could not be hashed. */
  function LastHashFailed(entries: seq<Entry>, current: seq<Entry>, hash: Path -> Result<string>): bool {
    if entries == [] then false
    else if HashIn(current, entries[|entries| - 1].path) == "" then hash(entries[|entries| - 1].path).Failed?
    else LastHashFailed(entries[..|entries| - 1], current, hash)
  }

  function Entries(files: seq<Path>, hash: Path -> Result<string>): (entries: seq<Entry>)
    requires forall f :: f in files ==> hash(f).Ok?
    ensures |entries| == |files|
    ensures forall i :: 0 <= i < |files| ==> entries[i] == Entry(files[i], hash(files[i]).value)
  {
    seq(|files|, i requires 0 <= i < |files| => Entry(files[i], hash(files[i]).value))
  }

  class Snapshotter {
    const commitFunc: () -> Result<Sha>
    const diffFunc: Sha -> Result<seq<Path>>
    // New files and modified files.
    const uncommittedFilesFunc: () -> Result<(seq<Path>, seq<Path>)>
    const hashFunc: Path -> Result<string>

    constructor (commitFunc: () -> Result<Sha>, diffFunc: Sha -> Result<seq<Path>>,
                 uncommittedFilesFunc: () -> Result<(seq<Path>, seq<Path>)>, hashFunc: Path -> Result<string>)
      ensures this.commitFunc == commitFunc && this.diffFunc == diffFunc
      ensures this.uncommittedFilesFunc == uncommittedFilesFunc && this.hashFunc == hashFunc
    {
      this.commitFunc, this.diffFunc := commitFunc, diffFunc;
      this.uncommittedFilesFunc, this.hashFunc := uncommittedFilesFunc, hashFunc;
    }

    /** What a snapshot lists: modified files only if it is going to be recorded. */
    function Listed(withChanged: bool): Result<seq<Path>> {
      match uncommittedFilesFunc()
      case Failed => Failed
      case Ok(files) => Ok(if withChanged then files.0 + files.1 else files.0)
    }

    predicate CanSnapshot(withChanged: bool) {
      && commitFunc().Ok? && Listed(withChanged).Ok?
      && forall f :: f in Listed(withChanged).value ==> hashFunc(f).Ok?
    }

    method TakeSnapshot(withChanged: bool) returns (r: Result<Snapshot>)
      ensures r.Ok? <==> CanSnapshot(withChanged)
      ensures r.Ok? ==> fresh(r.value) && r.value.Loaded() && r.value.commitSha == commitFunc().value
      ensures r.Ok? ==> r.value.uncommittedFiles == Entries(Listed(withChanged).value, hashFunc)
      ensures r.Ok? ==> var (added, modified) := uncommittedFilesFunc().value;
        && |r.value.uncommittedFiles| == |added| + (if withChanged then |modified| else 0)
        && forall i :: 0 <= i < |r.value.uncommittedFiles| ==>
          var path := if i < |added| then added[i] else modified[i - |added|];
          hashFunc(path).Ok? && r.value.uncommittedFiles[i] == Entry(path, hashFunc(path).value)
    {
      var sha := commitFunc();
      if sha.Failed? {
        return Failed;
      }
      var listed := uncommittedFilesFunc();
      if listed.Failed? {
        return Failed;
      }
      var files := listed.value.0;
      if withChanged {
        files := files + listed.value.1;
      }
      var s := new Snapshot(sha.value);
      for i := 0 to |files|
        invariant fresh(s) && s.commitSha == sha.value
        invariant forall k :: 0 <= k < i ==> hashFunc(files[k]).Ok?
        invariant |s.uncommittedFiles| == i
        invariant forall k :: 0 <= k < i ==> s.uncommittedFiles[k] == Entry(files[k], hashFunc(files[k]).value)
      {
        var hash := hashFunc(files[i]);
        if hash.Failed? {
          assert files[i] in Listed(withChanged).value;
          return Failed;
        }
        s.uncommittedFiles := s.uncommittedFiles + [Entry(files[i], hash.value)];
      }
      s.LoadMap();
      return Ok(s);
    }

    /** Which files differ from a previous snapshot; `failed` is whether an error comes with the answer. */
    method Diff(previous: Snapshot) returns (files: seq<Path>, failed: bool)
      requires previous.Loaded()
      ensures !CanSnapshot(false) || diffFunc(previous.commitSha).Failed? ==> files == [] && failed
      ensures CanSnapshot(false) && diffFunc(previous.commitSha).Ok? ==>
        && var current := Entries(Listed(false).value, hashFunc);
        && files == Reported(diffFunc(previous.commitSha).value, previous.uncommittedFiles, Hits(previous.uncommittedFiles, current, hashFunc))
        && failed == LastHashFailed(previous.uncommittedFiles, current, hashFunc)
    {
      var taken := TakeSnapshot(false);
      if taken.Failed? {
        return [], true;
      }
      var current := taken.value;
      var git := diffFunc(previous.commitSha);
      if git.Failed? {
        return [], true;
      }
      ghost var stale: seq<Path>;
      files := KeepCommitted(git.value, previous);
      files, failed, stale := CompareRecorded(git.value, files, previous, current);
      files := CompareNew(git.value, files, previous, current, stale);
    }

    /** The first loop of Diff: committed files only, the others are compared by their hashes. */
    method KeepCommitted(git: seq<Path>, previous: Snapshot) returns (files: seq<Path>)
      requires previous.Loaded()
      ensures files == Committed(git, previous.uncommittedFiles)
    {
      files := [];
      for i := 0 to |git|
        invariant files == Committed(git[..i], previous.uncommittedFiles)
      {
        assert git[..i + 1][..i] == git[..i];
        if previous.HashFor(git[i]) == "" {
          files := files + [git[i]];
        }
      }
      assert git[..|git|] == git;
    }

    /** The second loop: the files that were uncommitted before. */
    method CompareRecorded(git: seq<Path>, sofar: seq<Path>, previous: Snapshot, current: Snapshot)
      returns (files: seq<Path>, failed: bool, ghost hits: seq<Path>)
      requires previous.Loaded() && current.Loaded() && sofar == Committed(git, previous.uncommittedFiles)
      ensures hits == StaleAmong(previous.uncommittedFiles, current.uncommittedFiles, hashFunc)
      ensures files == Reported(git, previous.uncommittedFiles, hits)
      ensures failed == LastHashFailed(previous.uncommittedFiles, current.uncommittedFiles, hashFunc)
    {
      files, failed, hits := sofar, false, [];
      for i := 0 to |previous.uncommittedFiles|
        invariant hits == StaleAmong(previous.uncommittedFiles[..i], current.uncommittedFiles, hashFunc)
        invariant files == Reported(git, previous.uncommittedFiles, hits)
        invariant failed == LastHashFailed(previous.uncommittedFiles[..i], current.uncommittedFiles, hashFunc)
      {
        assert previous.uncommittedFiles[..i + 1][..i] == previous.uncommittedFiles[..i];
        var file := previous.uncommittedFiles[i];
        // If the file isn't uncommitted any more, it is hashed again.
        var md5 := current.HashFor(file.path);
        if md5 == "" {
          var hash := hashFunc(file.path);
          failed := hash.Failed?;
          md5 := if hash.Ok? then hash.value else "";
        }
        if md5 == "" || md5 != file.md5 {
          files := git + [file.path];
          hits := hits + [file.path];
        }
      }
      assert previous.uncommittedFiles[..|previous.uncommittedFiles|] == previous.uncommittedFiles;
    }

    /** The third loop: the files that are new now. */
    method CompareNew(git: seq<Path>, sofar: seq<Path>, previous: Snapshot, current: Snapshot, ghost stale: seq<Path>)
      returns (files: seq<Path>)
      requires previous.Loaded() && sofar == Reported(git, previous.uncommittedFiles, stale)
      ensures files == Reported(git, previous.uncommittedFiles,
                                stale + UnrecordedAmong(current.uncommittedFiles, previous.uncommittedFiles))
    {
      files := sofar;
      for i := 0 to |current.uncommittedFiles|
        invariant files == Reported(git, previous.uncommittedFiles,
                                    stale + UnrecordedAmong(current.uncommittedFiles[..i], previous.uncommittedFiles))
      {
        assert current.uncommittedFiles[..i + 1][..i] == current.uncommittedFiles[..i];
        var file := current.uncommittedFiles[i];
        var sha := previous.HashFor(file.path);
        if sha == "" || sha != file.md5 {
          files := git + [file.path];
        }
      }
      assert current.uncommittedFiles[..|current.uncommittedFiles|] == current.uncommittedFiles;
    }
  }
}
