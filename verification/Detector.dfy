/** What the change detector finds out, compared with a full comparison of two working trees. */
module Detector {
  import opened Tasks
  import opened Snapshot

  type Content = nat

  /** `tracked` is what git's index lists; everything else in the working tree is untracked. */
  datatype Repo = Repo(head: Sha, tracked: set<Path>, work: map<Path, Content>)

  /** The trees of all commits. */
  type History = map<Sha, map<Path, Content>>

  type Hash = (Path, Option<Content>) -> string

  function In(tree: map<Path, Content>, p: Path): Option<Content> {
    if p in tree then Some(tree[p]) else None
  }

  function InCommit(h: History, sha: Sha, p: Path): Option<Content> {
    if sha in h then In(h[sha], p) else None
  }

  function TrackedContent(r: Repo, p: Path): Option<Content> {
    if p in r.tracked then In(r.work, p) else None
  }

  /** `git diff --name-only`: what differs between the commit and the tracked part of the working tree. */
  ghost predicate IsGitDiff(h: History, r: Repo, sha: Sha, files: seq<Path>) {
    forall p :: p in files <==> InCommit(h, sha, p) != TrackedContent(r, p)
  }

  /** `git status`: `added` has the untracked files, `modified` at least those that differ from HEAD. */
  ghost predicate IsStatus(h: History, r: Repo, added: seq<Path>, modified: seq<Path>) {
    && (forall p :: p in added <==> p in r.work && p !in r.tracked)
    && (forall p :: InCommit(h, r.head, p) != TrackedContent(r, p) ==> p in modified)
  }

  /** Hashes are not empty and tell contents apart, a missing file included. */
  ghost predicate Separates(hash: Hash) {
    forall p, a, b {:trigger hash(p, a), hash(p, b)} :: hash(p, a) != "" && (hash(p, a) == hash(p, b) ==> a == b)
  }

  ghost predicate Hashes(r: Repo, hash: Hash, f: Path -> Result<string>) {
    forall p :: f(p) == Ok(hash(p, In(r.work, p)))
  }

  /** The tools answer for the repository `r`. */
  ghost predicate Reflects(sn: Snapshotter, h: History, r: Repo, hash: Hash) {
    && sn.commitFunc() == Ok(r.head) && Hashes(r, hash, sn.hashFunc)
    && sn.uncommittedFilesFunc().Ok?
    && IsStatus(h, r, sn.uncommittedFilesFunc().value.0, sn.uncommittedFilesFunc().value.1)
    && forall sha :: sha in h ==> sn.diffFunc(sha).Ok? && IsGitDiff(h, r, sha, sn.diffFunc(sha).value)
  }

  predicate Lists(entries: seq<Entry>, p: Path) {
    exists i :: 0 <= i < |entries| && entries[i].path == p
  }

  ghost predicate HashedFrom(r: Repo, hash: Hash, entries: seq<Entry>) {
    forall i :: 0 <= i < |entries| ==> entries[i].md5 == hash(entries[i].path, In(r.work, entries[i].path))
  }

  /** A recorded snapshot: whatever it does not list is in the working tree as it was committed. */
  ghost predicate IsRecord(h: History, r: Repo, hash: Hash, sha: Sha, entries: seq<Entry>) {
    && sha == r.head && HashedFrom(r, hash, entries)
    && forall p :: !Lists(entries, p) ==> In(r.work, p) == InCommit(h, r.head, p)
  }

  ghost predicate IsCurrent(r: Repo, hash: Hash, entries: seq<Entry>) {
    HashedFrom(r, hash, entries) && forall p :: Lists(entries, p) <==> p in r.work && p !in r.tracked
  }

  /** What TakeSnapshot returns for a repository is a record of it, or lists its new files. */
  lemma SnapshotIsRecord(sn: Snapshotter, h: History, r: Repo, hash: Hash)
    requires Reflects(sn, h, r, hash)
    ensures sn.CanSnapshot(true) && IsRecord(h, r, hash, sn.commitFunc().value, Entries(sn.Listed(true).value, sn.hashFunc))
    ensures sn.CanSnapshot(false) && IsCurrent(r, hash, Entries(sn.Listed(false).value, sn.hashFunc))
  {
    var status := sn.uncommittedFilesFunc().value;
    ListsOf(status.0 + status.1, sn.hashFunc);
    ListsOf(status.0, sn.hashFunc);
  }

  lemma ListsOf(files: seq<Path>, f: Path -> Result<string>)
    requires forall p :: p in files ==> f(p).Ok?
    ensures forall p :: Lists(Entries(files, f), p) <==> p in files
  {
    var entries := Entries(files, f);
    forall p | p in files ensures Lists(entries, p) {
      var i :| 0 <= i < |files| && files[i] == p;
      assert entries[i].path == p;
    }
  }

  // ---------------------------------------------------------------------------------------------
  // Membership in the lists of Diff

  lemma {:induction false} HashInIs(r: Repo, hash: Hash, entries: seq<Entry>, p: Path)
    requires Separates(hash) && HashedFrom(r, hash, entries)
    ensures HashIn(entries, p) == if Lists(entries, p) then hash(p, In(r.work, p)) else ""
    ensures hash(p, In(r.work, p)) != ""
  {
    if entries != [] {
      var init := entries[..|entries| - 1];
      HashInIs(r, hash, init, p);
      assert Lists(entries, p) <==> Lists(init, p) || entries[|entries| - 1].path == p by {
        if Lists(init, p) {
          var i :| 0 <= i < |init| && init[i].path == p;
          assert entries[i].path == p;
        }
      }
    }
  }

  lemma {:induction false} InCommitted(git: seq<Path>, previous: seq<Entry>, p: Path)
    ensures p in Committed(git, previous) <==> p in git && HashIn(previous, p) == ""
  {
    if git != [] {
      InCommitted(git[..|git| - 1], previous, p);
      assert git == git[..|git| - 1] + [git[|git| - 1]];
    }
  }

  lemma {:induction false} InStale(entries: seq<Entry>, current: seq<Entry>, hash: Path -> Result<string>, p: Path)
    ensures p in StaleAmong(entries, current, hash)
       <==> exists i :: 0 <= i < |entries| && entries[i].path == p && Stale(current, hash, entries[i])
  {
    if entries != [] {
      var init := entries[..|entries| - 1];
      InStale(init, current, hash, p);
      assert forall i :: 0 <= i < |init| ==> init[i] == entries[i];
    }
  }

  lemma {:induction false} InUnrecorded(entries: seq<Entry>, previous: seq<Entry>, p: Path)
    ensures p in UnrecordedAmong(entries, previous)
       <==> exists i :: 0 <= i < |entries| && entries[i].path == p && Unrecorded(previous, entries[i])
  {
    if entries != [] {
      var init := entries[..|entries| - 1];
      InUnrecorded(init, previous, p);
      assert forall i :: 0 <= i < |init| ==> init[i] == entries[i];
    }
  }

  // ---------------------------------------------------------------------------------------------
  // The detector against a full comparison

  /** The file has another content now than when the snapshot was recorded, or came or went. */
  predicate Changed(was: Repo, now: Repo, p: Path) {
    In(was.work, p) != In(now.work, p)
  }

  /** The file was committed and unmodified then, and is in the working tree but not tracked now. */
  predicate NowUntracked(previous: seq<Entry>, now: Repo, p: Path) {
    !Lists(previous, p) && p in now.work && p !in now.tracked
  }

  /** Everything that Diff sees: the record of `was`, and what the tools say about `now`. */
  ghost predicate Observed(h: History, was: Repo, now: Repo, hash: Hash, sha: Sha, previous: seq<Entry>,
                           current: seq<Entry>, git: seq<Path>, f: Path -> Result<string>) {
    && Separates(hash) && IsRecord(h, was, hash, sha, previous)
    && IsCurrent(now, hash, current) && IsGitDiff(h, now, sha, git) && Hashes(now, hash, f)
  }

  lemma HitIff(h: History, was: Repo, now: Repo, hash: Hash, sha: Sha, previous: seq<Entry>,
               current: seq<Entry>, git: seq<Path>, f: Path -> Result<string>, p: Path)
    requires Observed(h, was, now, hash, sha, previous, current, git, f)
    ensures p in Hits(previous, current, f)
       <==> (Lists(previous, p) && Changed(was, now, p)) || NowUntracked(previous, now, p)
  {
    InStale(previous, current, f, p);
    InUnrecorded(current, previous, p);
    HashInIs(was, hash, previous, p);
    HashInIs(now, hash, current, p);
    assert forall i :: 0 <= i < |previous| && previous[i].path == p ==> (Stale(current, f, previous[i]) <==> Changed(was, now, p));
    assert forall i :: 0 <= i < |current| && current[i].path == p ==>
      (Unrecorded(previous, current[i]) <==> !Lists(previous, p) || Changed(was, now, p));
  }

  /** Adding every hit, the detector finds exactly the changed files and those that are untracked by now. */
  lemma AccumulatingIsComparison(h: History, was: Repo, now: Repo, hash: Hash, sha: Sha, previous: seq<Entry>,
                                 current: seq<Entry>, git: seq<Path>, f: Path -> Result<string>, p: Path)
    requires Observed(h, was, now, hash, sha, previous, current, git, f)
    ensures p in Accumulated(git, previous, Hits(previous, current, f))
       <==> Changed(was, now, p) || NowUntracked(previous, now, p)
  {
    HitIff(h, was, now, hash, sha, previous, current, git, f, p);
    InCommitted(git, previous, p);
    HashInIs(was, hash, previous, p);
  }

  /** As written, Diff returns an empty list iff no file differs and none is untracked by now. */
  lemma EmptyIffSame(h: History, was: Repo, now: Repo, hash: Hash, sha: Sha, previous: seq<Entry>,
                     current: seq<Entry>, git: seq<Path>, f: Path -> Result<string>)
    requires Observed(h, was, now, hash, sha, previous, current, git, f)
    ensures Reported(git, previous, Hits(previous, current, f)) == []
       <==> forall p :: !Changed(was, now, p) && !NowUntracked(previous, now, p)
  {
    var hits := Hits(previous, current, f);
    assert Reported(git, previous, hits) == [] <==> Accumulated(git, previous, hits) == [];
    forall p ensures p in Accumulated(git, previous, hits) <==> Changed(was, now, p) || NowUntracked(previous, now, p) {
      AccumulatingIsComparison(h, was, now, hash, sha, previous, current, git, f, p);
    }
    if Accumulated(git, previous, hits) != [] {
      assert Accumulated(git, previous, hits)[0] in Accumulated(git, previous, hits);
    }
  }

  /** Every file that Diff returns is in the commit diff or changed or untracked by now. */
  lemma ReportedIsJustified(h: History, was: Repo, now: Repo, hash: Hash, sha: Sha, previous: seq<Entry>,
                            current: seq<Entry>, git: seq<Path>, f: Path -> Result<string>, p: Path)
    requires Observed(h, was, now, hash, sha, previous, current, git, f)
    requires p in Reported(git, previous, Hits(previous, current, f))
    ensures Changed(was, now, p) || NowUntracked(previous, now, p) || (p in git && Lists(previous, p))
  {
    var hits := Hits(previous, current, f);
    AccumulatingIsComparison(h, was, now, hash, sha, previous, current, git, f, p);
    InCommitted(git, previous, p);
    HashInIs(was, hash, previous, p);
    if hits != [] {
      assert hits[|hits| - 1] in hits;
    }
  }

  /** The files that changed although the commit diff does not show it: only their hashes give them away. */
  predicate Hidden(h: History, was: Repo, now: Repo, sha: Sha, p: Path) {
    Changed(was, now, p) && InCommit(h, sha, p) == TrackedContent(now, p)
  }

  /** As written, Diff reports every changed file iff each hidden one is the last hit. */
  lemma CompleteIff(h: History, was: Repo, now: Repo, hash: Hash, sha: Sha, previous: seq<Entry>,
                    current: seq<Entry>, git: seq<Path>, f: Path -> Result<string>)
    requires Observed(h, was, now, hash, sha, previous, current, git, f)
    ensures (forall p :: Changed(was, now, p) ==> p in Reported(git, previous, Hits(previous, current, f)))
       <==> forall p :: Hidden(h, was, now, sha, p) ==> LastHit(Hits(previous, current, f), p)
  {
    var hits := Hits(previous, current, f);
    forall p | Changed(was, now, p) && p in git ensures p in Reported(git, previous, hits) {
      AccumulatingIsComparison(h, was, now, hash, sha, previous, current, git, f, p);
      InCommitted(git, previous, p);
      HashInIs(was, hash, previous, p);
      HitIff(h, was, now, hash, sha, previous, current, git, f, p);
    }
    forall p | Changed(was, now, p) && p !in git ensures p in Reported(git, previous, hits) <==> LastHit(hits, p) {
      AccumulatingIsComparison(h, was, now, hash, sha, previous, current, git, f, p);
      InCommitted(git, previous, p);
    }
  }

  predicate LastHit(hits: seq<Path>, p: Path) {
    hits != [] && p == hits[|hits| - 1]
  }

  /** In particular if at most one path fails a comparison of hashes. */
  lemma CompleteForOne(h: History, was: Repo, now: Repo, hash: Hash, sha: Sha, previous: seq<Entry>,
                       current: seq<Entry>, git: seq<Path>, f: Path -> Result<string>, p: Path)
    requires Observed(h, was, now, hash, sha, previous, current, git, f)
    requires forall x, y :: x in Hits(previous, current, f) && y in Hits(previous, current, f) ==> x == y
    requires Changed(was, now, p)
    ensures p in Reported(git, previous, Hits(previous, current, f))
  {
    CompleteIff(h, was, now, hash, sha, previous, current, git, f);
    var hits := Hits(previous, current, f);
    forall x | Hidden(h, was, now, sha, x) ensures LastHit(hits, x) {
      AccumulatingIsComparison(h, was, now, hash, sha, previous, current, git, f, x);
      InCommitted(git, previous, x);
      assert hits[|hits| - 1] in hits;
    }
  }

  /** What the method Diff works on for a recorded snapshot, when the tools answer. */
  lemma DiffObserves(sn: Snapshotter, h: History, was: Repo, now: Repo, hash: Hash, sha: Sha, previous: seq<Entry>)
    requires Separates(hash) && sha in h && IsRecord(h, was, hash, sha, previous) && Reflects(sn, h, now, hash)
    ensures sn.CanSnapshot(false) && sn.diffFunc(sha).Ok?
    ensures var current := Entries(sn.Listed(false).value, sn.hashFunc);
      && Observed(h, was, now, hash, sha, previous, current, sn.diffFunc(sha).value, sn.hashFunc)
      && !LastHashFailed(previous, current, sn.hashFunc)
  {
    SnapshotIsRecord(sn, h, now, hash);
    HashesNeverFail(now, hash, previous, Entries(sn.Listed(false).value, sn.hashFunc), sn.hashFunc);
  }

  lemma {:induction false} HashesNeverFail(r: Repo, hash: Hash, entries: seq<Entry>, current: seq<Entry>,
                                           f: Path -> Result<string>)
    requires Hashes(r, hash, f)
    ensures !LastHashFailed(entries, current, f)
  {
    if entries != [] {
      HashesNeverFail(r, hash, entries[..|entries| - 1], current, f);
    }
  }

  // ---------------------------------------------------------------------------------------------
  // Where the code falls short

  /** With two changed files that only their hashes give away, one of them is not reported. */
  lemma DropsAChange() returns (h: History, was: Repo, now: Repo, hash: Hash, previous: seq<Entry>,
                                current: seq<Entry>, f: Path -> Result<string>, p: Path)
    ensures Observed(h, was, now, hash, "c", previous, current, [], f)
    ensures Changed(was, now, p) && p !in Reported([], previous, Hits(previous, current, f))
  {
    hash := HashesExist();
    h := map["c" := map[]];
    was, now := Repo("c", {}, map["a" := 1, "b" := 1]), Repo("c", {}, map["a" := 2, "b" := 2]);
    previous := [Entry("a", hash("a", Some(1))), Entry("b", hash("b", Some(1)))];
    current := [Entry("a", hash("a", Some(2))), Entry("b", hash("b", Some(2)))];
    var work := now.work;
    f := q => Ok(hash(q, In(work, q)));
    p := "a";
    assert previous[0].path == "a" && previous[1].path == "b" && current[0].path == "a" && current[1].path == "b";
    assert HashedFrom(was, hash, previous) && HashedFrom(now, hash, current);
    LastIsCurrent(h, was, now, hash, "c", previous, current, [], f);
  }

  lemma LastIsCurrent(h: History, was: Repo, now: Repo, hash: Hash, sha: Sha, previous: seq<Entry>,
                current: seq<Entry>, git: seq<Path>, f: Path -> Result<string>)
    requires Observed(h, was, now, hash, sha, previous, current, git, f)
    requires current != [] && Changed(was, now, current[|current| - 1].path)
    ensures var hits := Hits(previous, current, f);
      hits != [] && hits[|hits| - 1] == current[|current| - 1].path
  {
    var e := current[|current| - 1];
    HashInIs(was, hash, previous, e.path);
    assert Unrecorded(previous, e);
  }

  /** Without any change, a file that is no longer tracked is reported. */
  lemma ReportsUntracked() returns (h: History, was: Repo, now: Repo, hash: Hash, current: seq<Entry>, git: seq<Path>,
                                    f: Path -> Result<string>)
    ensures Observed(h, was, now, hash, "c", [], current, git, f)
    ensures (forall p :: !Changed(was, now, p)) && Reported(git, [], Hits([], current, f)) != []
  {
    hash := HashesExist();
    h := map["c" := map["a" := 1]];
    was, now := Repo("c", {"a"}, map["a" := 1]), Repo("c", {}, map["a" := 1]);
    current, git := [Entry("a", hash("a", Some(1)))], ["a"];
    var work := now.work;
    f := q => Ok(hash(q, In(work, q)));
    assert current[0].path == "a";
    assert HashIn([], "a") == "";
    EmptyIffSame(h, was, now, hash, "c", [], current, git, f);
    assert NowUntracked([], now, "a");
  }

  /** Hashes as the detector assumes them exist. */
  lemma HashesExist() returns (hash: Hash)
    ensures Separates(hash)
  {
    hash := (p, a) => Unary(a);
    assert forall p, a {:trigger hash(p, a)} :: |hash(p, a)| == if a.None? then 1 else a.value + 2;
  }

  function Unary(a: Option<Content>): (s: string)
    ensures |s| == if a.None? then 1 else a.value + 2
  {
    match a
    case None => "-"
    case Some(n) => "-" + seq(n + 1, i => '+')
  }
}
