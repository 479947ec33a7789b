/** Which files are sources of a task. */
module Watch {
  import opened Tasks
  import opened Snapshot

  /** The part of a task's definition that says which files it depends on. */
  datatype Sources = Sources(task: Task, sources: seq<string>, ignore: seq<string>)

  /** Glob matching; a pattern that is not valid fails. */
  type Glob = (string, Path) -> Result<bool>

  predicate AnyMatch(glob: Glob, patterns: seq<string>, path: Path) {
    exists i :: 0 <= i < |patterns| && glob(patterns[i], path) == Ok(true)
  }

  predicate AnyInvalid(glob: Glob, patterns: seq<string>, path: Path) {
    exists i :: 0 <= i < |patterns| && glob(patterns[i], path).Failed?
  }

  /** The path matches a source and no ignore. */
  predicate IsSource(glob: Glob, task: Sources, path: Path) {
    AnyMatch(glob, task.sources, path) && !AnyMatch(glob, task.ignore, path)
  }

  /** IsTaskSource. `Failed` stands for the fatal exit on a pattern that is not valid. */
  method IsTaskSource(glob: Glob, task: Sources, path: Path) returns (r: Result<bool>)
    ensures r.Failed? <==> AnyInvalid(glob, task.sources, path) || AnyInvalid(glob, task.ignore, path)
    ensures r.Ok? ==> (r.value <==> IsSource(glob, task, path))
  {
    var matches := false;
    for i := 0 to |task.sources|
      invariant matches <==> AnyMatch(glob, task.sources[..i], path)
      invariant !AnyInvalid(glob, task.sources[..i], path)
    {
      var ok := glob(task.sources[i], path);
      OneMorePattern(glob, task.sources, i, path);
      match ok
      case Failed => return Failed;
      case Ok(b) =>
        if b {
          matches := true;
        }
    }
    ghost var matched := matches;
    assert task.sources[..|task.sources|] == task.sources;
    for i := 0 to |task.ignore|
      invariant matches <==> matched && !AnyMatch(glob, task.ignore[..i], path)
      invariant !AnyInvalid(glob, task.ignore[..i], path)
    {
      var ok := glob(task.ignore[i], path);
      OneMorePattern(glob, task.ignore, i, path);
      match ok
      case Failed => return Failed;
      case Ok(b) =>
        if b {
          matches := false;
        }
    }
    assert task.ignore[..|task.ignore|] == task.ignore;
    return Ok(matches);
  }

  lemma OneMorePattern(glob: Glob, patterns: seq<string>, i: nat, path: Path)
    requires i < |patterns|
    ensures AnyMatch(glob, patterns[..i + 1], path) <==> AnyMatch(glob, patterns[..i], path) || glob(patterns[i], path) == Ok(true)
    ensures AnyInvalid(glob, patterns[..i + 1], path) <==> AnyInvalid(glob, patterns[..i], path) || glob(patterns[i], path).Failed?
    ensures glob(patterns[i], path).Failed? ==> AnyInvalid(glob, patterns, path)
  {
    var sofar, more := patterns[..i], patterns[..i + 1];
    assert more[i] == patterns[i];
    assert forall k :: 0 <= k < i ==> more[k] == sofar[k];
  }
}
