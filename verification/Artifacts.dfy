// Keeping the artifacts of a conversation in the database in step with its output
// directory (clareon-core/src/tools/artifacts.rs, workspace.rs and storage/artifacts.rs).

module Artifacts {
  import opened Types
  import opened Trees

  // SHA-256 in hexadecimal, left abstract.
  type Hasher = string -> string

  ghost predicate Injective(hash: Hasher) { forall a, b :: hash(a) == hash(b) ==> a == b }

  type Hashes = map<Path, string>

  // ---------------------------------------------------------------- scanning

  function HashAll(hash: Hasher, files: seq<Found>): Hashes {
    if files == [] then map[]
    else
      var n := |files| - 1;
      HashAll(hash, files[..n])[files[n].path := hash(files[n].content)]
  }

  // The files whose hash is not the one remembered.
  function Changed(hash: Hasher, previous: Hashes, files: seq<Found>): seq<Found> {
    if files == [] then []
    else
      var n := |files| - 1;
      Changed(hash, previous, files[..n]) + (if Skipped(hash, previous, files[n]) then [] else [files[n]])
  }

  predicate Skipped(hash: Hasher, previous: Hashes, f: Found) {
    f.path in previous && previous[f.path] == hash(f.content)
  }

  lemma WalkStep(stack: seq<Job>)
    requires stack != []
    ensures var n := |stack| - 1;
      var job := stack[n];
      Walk(stack) == FilesIn(job.at, job.entries) + Walk(stack[..n] + DirsIn(job.at, job.entries))
    ensures var n := |stack| - 1;
      StackWeight(stack[..n] + DirsIn(stack[n].at, stack[n].entries)) < StackWeight(stack)
  {
    var n := |stack| - 1;
    DirsWeight(stack[..n], stack[n].at, stack[n].entries);
  }

  lemma EntryFiles(at: Path, entries: seq<Entry>, i: nat)
    requires i < |entries|
    ensures var node, path := entries[i].node, at + [entries[i].name];
      && FilesIn(at, entries[..i + 1])
         == FilesIn(at, entries[..i]) + (if node.File? then [Found(path, node.content)] else [])
      && DirsIn(at, entries[..i + 1])
         == DirsIn(at, entries[..i]) + (if node.Dir? then [Job(path, node.entries)] else [])
  {
    assert entries[..i + 1][..i] == entries[..i];
  }

  lemma NoFiles(job: Job)
    ensures FilesIn(job.at, job.entries[..0]) == [] && DirsIn(job.at, job.entries[..0]) == []
    ensures job.entries[..|job.entries|] == job.entries && Walk([]) == []
  {}

  lemma HashOne(hash: Hasher, files: seq<Found>, f: Found)
    ensures HashAll(hash, files + [f]) == HashAll(hash, files)[f.path := hash(f.content)]
  {
    assert (files + [f])[..|files|] == files;
  }

  lemma ChangedOne(hash: Hasher, previous: Hashes, files: seq<Found>, f: Found)
    ensures Changed(hash, previous, files + [f])
         == Changed(hash, previous, files) + (if Skipped(hash, previous, f) then [] else [f])
  {
    assert (files + [f])[..|files|] == files;
  }

  // scan_output_directory; None is a directory that does not exist.
  method ScanOutputDirectory(hash: Hasher, root: Option<seq<Entry>>) returns (hashes: Hashes)
    ensures hashes == HashAll(hash, if root.Some? then WalkOf(root.value) else [])
  {
    hide Walk, FilesIn, DirsIn, HashAll, StackWeight;
    hashes := map[];
    ghost var seen: seq<Found> := [];
    NothingHashed(hash);
    if root.None? { return; }
    var stack := [Job([], root.value)];
    while stack != []
      invariant seen + Walk(stack) == WalkOf(root.value) && hashes == HashAll(hash, seen)
      decreases StackWeight(stack)
    {
      WalkStep(stack);
      var n := |stack| - 1;
      var job := stack[n];
      ghost var seen0, rest := seen, stack[..n];
      stack := stack[..n];
      NoFiles(job);
      for i := 0 to |job.entries|
        invariant seen == seen0 + FilesIn(job.at, job.entries[..i]) && hashes == HashAll(hash, seen)
        invariant stack == rest + DirsIn(job.at, job.entries[..i])
      {
        EntryFiles(job.at, job.entries, i);
        var path := job.at + [job.entries[i].name];
        match job.entries[i].node {
          case Dir(inner) =>
            stack := stack + [Job(path, inner)];
          case File(content) =>
            HashOne(hash, seen, Found(path, content));
            hashes := hashes[path := hash(content)];
            seen := seen + [Found(path, content)];
          case Other =>
        }
      }
    }
    NoFiles(Job([], []));
    assert seen + [] == seen;
  }

  lemma NothingHashed(hash: Hasher)
    ensures HashAll(hash, []) == map[]
  {}

  // collect_artifacts: the new and modified files, with their contents.
  method CollectArtifacts(hash: Hasher, root: seq<Entry>, previous: Hashes) returns (artifacts: seq<Found>)
    ensures artifacts == Changed(hash, previous, WalkOf(root))
  {
    hide Walk, FilesIn, DirsIn, StackWeight, Skipped;
    artifacts := [];
    ghost var seen: seq<Found> := [];
    var stack := [Job([], root)];
    while stack != []
      invariant seen + Walk(stack) == WalkOf(root) && artifacts == Changed(hash, previous, seen)
      decreases StackWeight(stack)
    {
      hide Changed;
      WalkStep(stack);
      var n := |stack| - 1;
      var job := stack[n];
      ghost var seen0, rest := seen, stack[..n];
      stack := stack[..n];
      NoFiles(job);
      for i := 0 to |job.entries|
        invariant seen == seen0 + FilesIn(job.at, job.entries[..i]) && artifacts == Changed(hash, previous, seen)
        invariant stack == rest + DirsIn(job.at, job.entries[..i])
      {
        EntryFiles(job.at, job.entries, i);
        var path := job.at + [job.entries[i].name];
        match job.entries[i].node {
          case Dir(inner) =>
            stack := stack + [Job(path, inner)];
          case File(content) =>
            ChangedOne(hash, previous, seen, Found(path, content));
            if !Skipped(hash, previous, Found(path, content)) {
              artifacts := artifacts + [Found(path, content)];
            }
            seen := seen + [Found(path, content)];
          case Other =>
        }
      }
    }
    NoFiles(Job([], []));
    assert seen + [] == seen;
  }

  lemma {:induction false} HashAllIsExact(hash: Hasher, files: seq<Found>)
    requires DistinctPaths(files)
    ensures forall f :: f in files ==> f.path in HashAll(hash, files) && HashAll(hash, files)[f.path] == hash(f.content)
    ensures forall p :: p in HashAll(hash, files) ==> HasPath(files, p)
  {
    if files != [] {
      var n := |files| - 1;
      var front, last := files[..n], files[n];
      assert files == front + [last];
      HashAllIsExact(hash, front);
      HashOne(hash, front, last);
      forall f | f in front ensures f.path != last.path {}
      hide HashAll, DistinctPaths;
      forall p | p in HashAll(hash, files) ensures HasPath(files, p) {
        if p == last.path { PathOf(files, last); } else { MorePaths(front, last, p); }
      }
    }
  }

  predicate HasPath(files: seq<Found>, p: Path) { exists f :: f in files && f.path == p }

  lemma PathOf(files: seq<Found>, f: Found)
    requires f in files
    ensures HasPath(files, f.path)
  {}

  lemma MorePaths(files: seq<Found>, last: Found, p: Path)
    requires HasPath(files, p)
    ensures HasPath(files + [last], p)
  {
    var f :| f in files && f.path == p;
    assert f in files + [last];
  }

  // The scan visits every file exactly once: its map has each file's hash under its
  // relative path and nothing else.
  lemma ScanIsExact(hash: Hasher, root: seq<Entry>)
    requires Proper(root)
    ensures var hashes, files := HashAll(hash, WalkOf(root)), Listing([], root);
      && (forall f :: f in files ==> f.path in hashes && hashes[f.path] == hash(f.content))
      && (forall p :: p in hashes ==> HasPath(files, p))
      && |WalkOf(root)| == |files|
  {
    hide Listing, WalkOf, HashAll, HasPath;
    WalkVisitsAll(root);
    HashAllIsExact(hash, WalkOf(root));
    SameMembers(WalkOf(root), Listing([], root));
    forall p | p in HashAll(hash, WalkOf(root)) ensures HasPath(Listing([], root), p) {
      SamePathsIn(WalkOf(root), Listing([], root), p);
    }
  }

  lemma SamePathsIn(a: seq<Found>, b: seq<Found>, p: Path)
    requires HasPath(a, p) && forall f :: f in a <==> f in b
    ensures HasPath(b, p)
  {
    var f :| f in a && f.path == p;
    assert f in b;
  }

  lemma SameMembers(a: seq<Found>, b: seq<Found>)
    requires multiset(a) == multiset(b)
    ensures |a| == |b| && forall f :: f in a <==> f in b
  {
    assert |multiset(a)| == |a| && |multiset(b)| == |b|;
    forall f ensures f in a <==> f in b { assert f in multiset(a) <==> f in multiset(b); }
  }

  lemma {:induction false} ChangedIsFilter(hash: Hasher, previous: Hashes, files: seq<Found>)
    ensures forall f :: f in Changed(hash, previous, files) <==> f in files && !Skipped(hash, previous, f)
    ensures DistinctPaths(files) ==> DistinctPaths(Changed(hash, previous, files))
  {
    if files != [] {
      var n := |files| - 1;
      assert files == files[..n] + [files[n]];
      ChangedIsFilter(hash, previous, files[..n]);
      if DistinctPaths(files) {
        var front := Changed(hash, previous, files[..n]);
        forall f | f in front ensures f.path != files[n].path {}
      }
    }
  }

  // ---------------------------------------------------------------- the database

  datatype Artifact = Artifact(path: Path, content: string, messageId: int)

  predicate UniqueNames(rows: seq<Artifact>) { forall i, j :: 0 <= i < j < |rows| ==> rows[i].path != rows[j].path }

  predicate HasName(rows: seq<Artifact>, p: Path) { exists k :: 0 <= k < |rows| && rows[k].path == p }

  // UPDATE ... WHERE filename = ?
  function UpdateRows(rows: seq<Artifact>, f: Found, messageId: int): (r: seq<Artifact>)
    ensures |r| == |rows| && forall k :: 0 <= k < |rows| ==>
              r[k] == if rows[k].path == f.path then Artifact(f.path, f.content, messageId) else rows[k]
  {
    seq(|rows|, k requires 0 <= k < |rows| =>
      if rows[k].path == f.path then Artifact(f.path, f.content, messageId) else rows[k])
  }

  function Put(rows: seq<Artifact>, f: Found, messageId: int): seq<Artifact> {
    if HasName(rows, f.path) then UpdateRows(rows, f, messageId)
    else rows + [Artifact(f.path, f.content, messageId)]
  }

  function PutAll(rows: seq<Artifact>, files: seq<Found>, messageId: int): seq<Artifact> {
    if files == [] then rows
    else Put(PutAll(rows, files[..|files| - 1], messageId), files[|files| - 1], messageId)
  }

  class ArtifactStore {
    var rows: seq<Artifact>

    constructor ()
      ensures rows == []
    {
      rows := [];
    }

    // sync_artifacts.
    method SyncArtifacts(hash: Hasher, messageId: int, root: seq<Entry>, previous: Hashes) returns (count: nat)
      modifies this
      ensures rows == PutAll(old(rows), Changed(hash, previous, WalkOf(root)), messageId)
      ensures count == |Changed(hash, previous, WalkOf(root))|
    {
      hide Changed, WalkOf;
      var artifacts := CollectArtifacts(hash, root, previous);
      count := |artifacts|;
      for i := 0 to |artifacts|
        invariant rows == PutAll(old(rows), artifacts[..i], messageId)
      {
        assert artifacts[..i + 1][..i] == artifacts[..i];
        var f := artifacts[i];
        if exists k :: 0 <= k < |rows| && rows[k].path == f.path {
          rows := UpdateRows(rows, f, messageId);
        } else {
          rows := rows + [Artifact(f.path, f.content, messageId)];
        }
      }
      assert artifacts[..|artifacts|] == artifacts;
    }
  }

  // ---------------------------------------------------------------- diff and full

  // The database has the file as it is.
  predicate HasFile(rows: seq<Artifact>, f: Found) {
    HasName(rows, f.path) && forall k :: 0 <= k < |rows| && rows[k].path == f.path ==> rows[k].content == f.content
  }

  predicate Agrees(rows: seq<Artifact>, files: seq<Found>) { forall f :: f in files ==> HasFile(rows, f) }

  lemma PutOne(rows: seq<Artifact>, f: Found, messageId: int)
    ensures var r := Put(rows, f, messageId);
      && HasFile(r, f)
      && (UniqueNames(rows) ==> UniqueNames(r))
      && (forall g: Found :: g.path != f.path ==> (HasFile(r, g) <==> HasFile(rows, g)))
      && (forall p :: HasName(r, p) <==> HasName(rows, p) || p == f.path)
  {
    var r := Put(rows, f, messageId);
    if !HasName(rows, f.path) {
      assert r[|rows|].path == f.path;
    } else {
      var k :| 0 <= k < |rows| && rows[k].path == f.path;
      assert r[k].path == f.path;
    }
    forall p ensures HasName(r, p) <==> HasName(rows, p) || p == f.path { NamesAfterPut(rows, f, messageId, p); }
    forall g: Found | g.path != f.path ensures HasFile(r, g) <==> HasFile(rows, g) {
      FileAfterPut(rows, f, messageId, g);
    }
  }

  lemma NamesAfterPut(rows: seq<Artifact>, f: Found, messageId: int, p: Path)
    ensures HasName(Put(rows, f, messageId), p) <==> HasName(rows, p) || p == f.path
  {
    var r := Put(rows, f, messageId);
    if HasName(rows, p) {
      var k :| 0 <= k < |rows| && rows[k].path == p;
      assert r[k].path == p;
    } else if p == f.path {
      assert r[|rows|].path == p;
    } else {
      forall k | 0 <= k < |r| ensures r[k].path != p {
        if k < |rows| { assert rows[k].path != p; }
      }
    }
  }

  lemma FileAfterPut(rows: seq<Artifact>, f: Found, messageId: int, g: Found)
    requires g.path != f.path
    ensures HasFile(Put(rows, f, messageId), g) <==> HasFile(rows, g)
  {
    var r := Put(rows, f, messageId);
    NamesAfterPut(rows, f, messageId, g.path);
    forall k | 0 <= k < |rows| && g.path == rows[k].path ensures r[k] == rows[k] {}
  }

  lemma {:induction false} PutAllIs(rows: seq<Artifact>, files: seq<Found>, messageId: int)
    requires DistinctPaths(files)
    ensures var r := PutAll(rows, files, messageId);
      && Agrees(r, files)
      && (UniqueNames(rows) ==> UniqueNames(r))
      && (forall g: Found :: (forall f :: f in files ==> f.path != g.path) ==> (HasFile(r, g) <==> HasFile(rows, g)))
  {
    hide Put, HasFile, HasName, UniqueNames;
    if files != [] {
      var n := |files| - 1;
      var front, last := files[..n], files[n];
      assert files == front + [last];
      PutAllIs(rows, front, messageId);
      PutOne(PutAll(rows, front, messageId), last, messageId);
      forall f | f in front ensures f.path != last.path {}
    }
  }

  // What putting files does to one row: a row of one of the files has its content and the
  // message of this sync, any other stays as it was.
  predicate Renewed(row: Artifact, after: Artifact, files: seq<Found>, messageId: int) {
    if HasPath(files, row.path) then
      after.path == row.path && after.messageId == messageId && Found(after.path, after.content) in files
    else after == row
  }

  predicate AddedBy(after: Artifact, files: seq<Found>, messageId: int) {
    after.messageId == messageId && Found(after.path, after.content) in files
  }

  lemma RenewedByMore(row: Artifact, mid: Artifact, after: Artifact, front: seq<Found>, last: Found, messageId: int)
    requires Renewed(row, mid, front, messageId)
    requires after == if mid.path == last.path then Artifact(last.path, last.content, messageId) else mid
    ensures Renewed(row, after, front + [last], messageId)
  {
    var files := front + [last];
    assert forall f :: f in files <==> f in front || f == last;
    if HasPath(front, row.path) { MorePaths(front, last, row.path); }
    if row.path == last.path { PathOf(files, last); }
  }

  // Rows stay in their places, each renewed by the files, and new ones come behind.
  lemma {:induction false} RowsAreRenewed(rows: seq<Artifact>, files: seq<Found>, messageId: int)
    ensures var r := PutAll(rows, files, messageId);
      && |rows| <= |r|
      && (forall k :: 0 <= k < |rows| ==> Renewed(rows[k], r[k], files, messageId))
      && (forall k :: |rows| <= k < |r| ==> AddedBy(r[k], files, messageId))
  {
    if files != [] {
      var front, last := files[..|files| - 1], files[|files| - 1];
      assert files == front + [last];
      RowsAreRenewed(rows, front, messageId);
      var mid, r := PutAll(rows, front, messageId), PutAll(rows, files, messageId);
      hide PutAll, Renewed, HasPath;
      forall k | 0 <= k < |rows| ensures Renewed(rows[k], r[k], files, messageId) {
        assert mid[k].path == last.path ==> HasName(mid, last.path);
        RenewedByMore(rows[k], mid[k], r[k], front, last, messageId);
      }
      forall k | |rows| <= k < |r| ensures AddedBy(r[k], files, messageId) {
        if k < |mid| {
          assert AddedBy(mid[k], front, messageId);
          assert mid[k].path == last.path ==> HasName(mid, last.path);
        }
        assert last in files;
      }
    } else {
      forall k | 0 <= k < |rows| ensures Renewed(rows[k], rows[k], files, messageId) {}
    }
  }

  // A sync files what changed under its message, in place or as a new row, and leaves every
  // other row to the message it had.
  lemma ChangesAreAttributed(hash: Hasher, previous: Hashes, rows: seq<Artifact>, root: seq<Entry>, messageId: int)
    requires Proper(root)
    ensures var r := PutAll(rows, Changed(hash, previous, WalkOf(root)), messageId);
      && |rows| <= |r|
      && (forall k, f :: 0 <= k < |rows| && f in Listing([], root) && f.path == rows[k].path ==>
            r[k] == if Skipped(hash, previous, f) then rows[k] else Artifact(f.path, f.content, messageId))
      && (forall k :: 0 <= k < |rows| && !HasPath(Listing([], root), rows[k].path) ==> r[k] == rows[k])
      && (forall k :: |rows| <= k < |r| ==>
            && r[k].messageId == messageId && Found(r[k].path, r[k].content) in Listing([], root)
            && !Skipped(hash, previous, Found(r[k].path, r[k].content)))
  {
    hide Walk, WalkOf, Listing, PutAll, Changed, Skipped;
    var files, walk := Listing([], root), WalkOf(root);
    var changed := Changed(hash, previous, walk);
    WalkVisitsAll(root);
    SameMembers(walk, files);
    ChangedIsFilter(hash, previous, walk);
    RowsAreRenewed(rows, changed, messageId);
    var r := PutAll(rows, changed, messageId);
    forall k | 0 <= k < |rows| && !HasPath(files, rows[k].path) ensures r[k] == rows[k] {
      assert Renewed(rows[k], r[k], changed, messageId);
      if HasPath(changed, rows[k].path) { SamePathsAmong(changed, files, rows[k].path); }
    }
    forall k, f | 0 <= k < |rows| && f in files && f.path == rows[k].path
      ensures r[k] == if Skipped(hash, previous, f) then rows[k] else Artifact(f.path, f.content, messageId)
    {
      assert Renewed(rows[k], r[k], changed, messageId);
      OneRowRenewed(rows[k], r[k], walk, changed, f, messageId);
    }
  }

  lemma SamePathsAmong(some: seq<Found>, all: seq<Found>, p: Path)
    requires HasPath(some, p) && forall f :: f in some ==> f in all
    ensures HasPath(all, p)
  {}

  lemma OneRowRenewed(row: Artifact, after: Artifact, walk: seq<Found>, changed: seq<Found>, f: Found, messageId: int)
    requires DistinctPaths(walk) && f in walk && f.path == row.path && forall g :: g in changed ==> g in walk
    requires Renewed(row, after, changed, messageId)
    ensures after == if f in changed then Artifact(f.path, f.content, messageId) else row
  {
    if f in changed {
      PathOf(changed, f);
      OneOfPath(walk, f, Found(after.path, after.content));
    } else if HasPath(changed, row.path) {
      var g :| g in changed && g.path == row.path;
      OneOfPath(walk, f, g);
      assert false;
    }
  }

  // The diff leaves the database agreeing with the tree exactly when it agreed before
  // with every file whose remembered hash is still right. Files no longer there keep
  // their rows, and names stay unique.
  lemma DiffSync(hash: Hasher, previous: Hashes, rows: seq<Artifact>, root: seq<Entry>, messageId: int)
    requires Proper(root)
    ensures var files := Listing([], root);
      var r := PutAll(rows, Changed(hash, previous, WalkOf(root)), messageId);
      && (Agrees(r, files) <==> forall f :: f in files && Skipped(hash, previous, f) ==> HasFile(rows, f))
      && (UniqueNames(rows) ==> UniqueNames(r))
      && (forall g: Found :: (forall f :: f in files ==> f.path != g.path) ==> (HasFile(r, g) <==> HasFile(rows, g)))
  {
    hide Walk, WalkOf, Listing, HasFile, UniqueNames, PutAll, Changed, Skipped;
    var files, walk := Listing([], root), WalkOf(root);
    var changed := Changed(hash, previous, walk);
    var r := PutAll(rows, changed, messageId);
    WalkVisitsAll(root);
    SameMembers(walk, files);
    ChangedIsFilter(hash, previous, walk);
    PutAllIs(rows, changed, messageId);
    forall f | f in files && Skipped(hash, previous, f)
      ensures HasFile(r, f) <==> HasFile(rows, f)
    {
      forall g | g in changed ensures g.path != f.path {
        if g.path == f.path { OneOfPath(walk, f, g); }
      }
    }
  }

  lemma OneOfPath(files: seq<Found>, f: Found, g: Found)
    requires DistinctPaths(files) && f in files && g in files && f.path == g.path
    ensures f == g
  {}

  // With an injective hash and a database that agreed with the tree when it was scanned,
  // the diff does what copying every file would do.
  lemma DiffEqualsFull(hash: Hasher, rows: seq<Artifact>, before: seq<Entry>, after: seq<Entry>, messageId: int)
    requires Injective(hash) && Proper(before) && Proper(after)
    requires Agrees(rows, Listing([], before))
    ensures var previous := HashAll(hash, WalkOf(before));
      var diff := PutAll(rows, Changed(hash, previous, WalkOf(after)), messageId);
      var full := PutAll(rows, WalkOf(after), messageId);
      && Agrees(diff, Listing([], after))
      && (forall g: Found :: HasFile(diff, g) <==> HasFile(full, g))
  {
    hide Walk, WalkOf, Listing, HasFile, PutAll, Changed, HashAll;
    var previous := HashAll(hash, WalkOf(before));
    var files, walk := Listing([], after), WalkOf(after);
    var diff, full := PutAll(rows, Changed(hash, previous, walk), messageId), PutAll(rows, walk, messageId);
    forall f | f in files && Skipped(hash, previous, f) ensures HasFile(rows, f) {
      var g := ScannedFile(hash, before, f);
      assert g == f;
    }
    DiffSync(hash, previous, rows, after, messageId);
    WalkVisitsAll(after);
    SameMembers(walk, files);
    PutAllIs(rows, walk, messageId);
    forall g: Found ensures HasFile(diff, g) <==> HasFile(full, g) {
      if f :| f in files && f.path == g.path {
        OneContent(diff, f, g);
        OneContent(full, f, g);
      }
    }
  }

  // The file of the scanned tree a remembered hash is of.
  lemma ScannedFile(hash: Hasher, before: seq<Entry>, f: Found) returns (g: Found)
    requires Proper(before) && Skipped(hash, HashAll(hash, WalkOf(before)), f)
    ensures g in Listing([], before) && g.path == f.path && hash(g.content) == hash(f.content)
  {
    hide Walk, WalkOf, Listing, HashAll;
    ScanIsExact(hash, before);
    var previous := HashAll(hash, WalkOf(before));
    assert f.path in previous;
    g :| g in Listing([], before) && g.path == f.path;
  }

  lemma OneContent(rows: seq<Artifact>, f: Found, g: Found)
    requires HasFile(rows, f) && f.path == g.path
    ensures HasFile(rows, g) <==> f == g
  {}

  // ---------------------------------------------------------------- restoring

  // A directory as restoring leaves it: its files by path, and its subdirectories.
  datatype Disk = Disk(files: map<Path, string>, dirs: set<Path>)

  const EMPTY_DISK := Disk(map[], {})

  // The directories a file lies in, below the root.
  function Parents(p: Path): (s: set<Path>)
    ensures forall q :: q in s <==> q != [] && q < p
  {
    assert forall q: Path :: q != [] && q < p ==> q == p[..|q|];
    set k | 0 < k < |p| :: p[..k]
  }

  // create_dir_all and write: a directory cannot be made where a file is, nor a file
  // where a directory is.
  predicate CanWrite(d: Disk, p: Path) { p !in d.dirs && forall q :: q in Parents(p) ==> q !in d.files }

  function Written(d: Disk, a: Artifact): Disk {
    Disk(d.files[a.path := a.content], d.dirs + Parents(a.path))
  }

  // No name is a directory of another.
  predicate PrefixFree(rows: seq<Artifact>) {
    forall i, j :: 0 <= i < |rows| && 0 <= j < |rows| ==> !(rows[i].path < rows[j].path)
  }

  ghost predicate Holds(d: Disk, rows: seq<Artifact>) {
    && (forall k :: 0 <= k < |rows| ==> rows[k].path in d.files && d.files[rows[k].path] == rows[k].content)
    && (forall p :: p in d.files ==> HasName(rows, p))
    && (forall p :: p in d.dirs ==> exists k :: 0 <= k < |rows| && p in Parents(rows[k].path))
    && (forall k :: 0 <= k < |rows| ==> Parents(rows[k].path) <= d.dirs)
  }

  lemma WriteOne(d: Disk, rows: seq<Artifact>, a: Artifact)
    requires Holds(d, rows) && !HasName(rows, a.path)
    ensures Holds(Written(d, a), rows + [a])
  {
    var all, d' := rows + [a], Written(d, a);
    forall k | 0 <= k < |all| ensures all[k].path in d'.files && d'.files[all[k].path] == all[k].content {}
    forall p | p in d'.files ensures HasName(all, p) {
      if p == a.path {
        assert all[|rows|].path == p;
      } else {
        var k :| 0 <= k < |rows| && rows[k].path == p;
        assert all[k].path == p;
      }
    }
    forall p | p in d'.dirs ensures exists k :: 0 <= k < |all| && p in Parents(all[k].path) {
      if p in Parents(a.path) {
        assert p in Parents(all[|rows|].path);
      } else {
        var k :| 0 <= k < |rows| && p in Parents(rows[k].path);
        assert p in Parents(all[k].path);
      }
    }
  }

  // Writing one more file works exactly when it is in no other's way.
  lemma CanWriteIff(d: Disk, rows: seq<Artifact>, a: Artifact)
    requires Holds(d, rows) && a.path != [] && forall k :: 0 <= k < |rows| ==> rows[k].path != []
    ensures CanWrite(d, a.path) <==>
      forall k :: 0 <= k < |rows| ==> !(a.path < rows[k].path) && !(rows[k].path < a.path)
  {
    if !CanWrite(d, a.path) {
      if a.path in d.dirs {
        var k :| 0 <= k < |rows| && a.path in Parents(rows[k].path);
        assert a.path < rows[k].path;
      } else {
        var q :| q in Parents(a.path) && q in d.files;
        var k :| 0 <= k < |rows| && rows[k].path == q;
        assert rows[k].path < a.path;
      }
    } else {
      forall k | 0 <= k < |rows| ensures !(a.path < rows[k].path) && !(rows[k].path < a.path) {
        var p := rows[k].path;
        assert p in d.files && Parents(p) <= d.dirs;
        assert (p < a.path ==> p in Parents(a.path)) && (a.path < p ==> a.path in Parents(p));
      }
    }
  }

  lemma PrefixFreePush(rows: seq<Artifact>, a: Artifact)
    ensures PrefixFree(rows + [a]) <==>
      PrefixFree(rows) && forall k :: 0 <= k < |rows| ==> !(a.path < rows[k].path) && !(rows[k].path < a.path)
  {
    var all := rows + [a];
    if PrefixFree(all) {
      forall i, j | 0 <= i < |rows| && 0 <= j < |rows| ensures !(rows[i].path < rows[j].path) {
        assert !(all[i].path < all[j].path);
      }
      forall k | 0 <= k < |rows| ensures !(a.path < rows[k].path) && !(rows[k].path < a.path) {
        assert !(all[|rows|].path < all[k].path) && !(all[k].path < all[|rows|].path);
      }
    }
  }

  // restore_artifacts into an empty output directory. It succeeds exactly when no stored
  // name is a directory of another, and then every artifact is back and nothing else.
  method RestoreArtifacts(rows: seq<Artifact>) returns (disk: Option<Disk>)
    requires UniqueNames(rows) && forall k :: 0 <= k < |rows| ==> rows[k].path != []
    ensures disk.Some? <==> PrefixFree(rows)
    ensures disk.Some? ==> Holds(disk.value, rows)
  {
    hide CanWrite, Written, Holds, PrefixFree;
    var d := EMPTY_DISK;
    NothingWritten();
    for i := 0 to |rows|
      invariant Holds(d, rows[..i]) && PrefixFree(rows[..i])
    {
      assert rows[..i + 1] == rows[..i] + [rows[i]];
      CanWriteIff(d, rows[..i], rows[i]);
      PrefixFreePush(rows[..i], rows[i]);
      if !CanWrite(d, rows[i].path) {
        PartOfPrefixFree(rows, i + 1);
        return None;
      }
      assert !HasName(rows[..i], rows[i].path);
      WriteOne(d, rows[..i], rows[i]);
      d := Written(d, rows[i]);
    }
    assert rows[..|rows|] == rows;
    return Some(d);
  }

  lemma NothingWritten()
    ensures Holds(EMPTY_DISK, []) && PrefixFree([])
  {}

  lemma PartOfPrefixFree(rows: seq<Artifact>, i: nat)
    requires i <= |rows|
    ensures PrefixFree(rows) ==> PrefixFree(rows[..i])
  {}

  // A database that agrees with a tree gives every file of the tree back.
  lemma RestoredTree(rows: seq<Artifact>, root: seq<Entry>, d: Disk)
    requires Agrees(rows, Listing([], root)) && Holds(d, rows)
    ensures forall f :: f in Listing([], root) ==> f.path in d.files && d.files[f.path] == f.content
  {
    hide Listing;
    forall f | f in Listing([], root) ensures f.path in d.files && d.files[f.path] == f.content {
      assert HasFile(rows, f);
      var k :| 0 <= k < |rows| && rows[k].path == f.path;
    }
  }

  // The files of one tree never stand in each other's way, so what blocks a restore is
  // always a row whose file is gone.
  lemma {:induction false} TreeIsPrefixFree(at: Path, entries: seq<Entry>, f: Found, g: Found)
    requires Proper(entries) && f in Listing(at, entries) && g in Listing(at, entries)
    ensures !(f.path < g.path)
    decreases entries
  {
    var n := |entries| - 1;
    var inside, front := at + [entries[n].name], Listing(at, entries[..n]);
    PathsExtend(at, entries, f);
    PathsExtend(at, entries, g);
    if f in front && g in front {
      TreeIsPrefixFree(at, entries[..n], f, g);
    } else if f !in front && g !in front {
      if entries[n].node.Dir? { TreeIsPrefixFree(inside, entries[n].node.entries, f, g); }
    } else if f in front {
      NamesDiffer(at, entries, f, g);
    } else {
      NamesDiffer(at, entries, g, f);
    }
  }

  // A file that only the last entry can account for carries that entry's name.
  lemma LastName(at: Path, entries: seq<Entry>, g: Found)
    requires entries != [] && g in Listing(at, entries) && g !in Listing(at, entries[..|entries| - 1])
    ensures |g.path| > |at| && g.path[|at|] == entries[|entries| - 1].name
  {
    var n := |entries| - 1;
    var inside := at + [entries[n].name];
    match entries[n].node {
      case Dir(inner) =>
        assert g in Listing(inside, inner);
        PathsExtend(inside, inner, g);
        assert g.path[|at|] == g.path[..|at| + 1][|at|];
      case _ =>
    }
  }

  // Rows that all belong to files of one tree never block the restore.
  lemma RowsOfTreeRestore(rows: seq<Artifact>, root: seq<Entry>)
    requires Proper(root)
    requires forall k :: 0 <= k < |rows| ==> exists f :: f in Listing([], root) && f.path == rows[k].path
    ensures PrefixFree(rows)
  {
    hide Listing;
    forall i, j | 0 <= i < |rows| && 0 <= j < |rows| ensures !(rows[i].path < rows[j].path) {
      var f :| f in Listing([], root) && f.path == rows[i].path;
      var g :| g in Listing([], root) && g.path == rows[j].path;
      TreeIsPrefixFree([], root, f, g);
    }
  }

  // Files below different entries part at the entry's name.
  lemma NamesDiffer(at: Path, entries: seq<Entry>, f: Found, g: Found)
    requires Proper(entries) && entries != []
    requires f in Listing(at, entries[..|entries| - 1])
    requires g in Listing(at, entries) && g !in Listing(at, entries[..|entries| - 1])
    ensures |f.path| > |at| && |g.path| > |at| && f.path[|at|] != g.path[|at|]
  {
    hide Listing;
    var n := |entries| - 1;
    LastName(at, entries, g);
    PathsExtend(at, entries[..n], f);
    var k :| 0 <= k < n && entries[..n][k].name == f.path[|at|];
    assert entries[k].name != entries[n].name;
  }

  // ---------------------------------------------------------------- two syncs and a restore

  lemma {:induction false} PutAllNames(rows: seq<Artifact>, files: seq<Found>, messageId: int, p: Path)
    ensures HasName(PutAll(rows, files, messageId), p) <==> HasName(rows, p) || HasPath(files, p)
  {
    hide Put, HasName;
    if files != [] {
      var front, last := files[..|files| - 1], files[|files| - 1];
      assert files == front + [last];
      PutAllNames(rows, front, messageId, p);
      NamesAfterPut(PutAll(rows, front, messageId), last, messageId, p);
      assert forall f :: f in files <==> f in front || f == last;
    }
  }

  // The rows after a tree was synchronised into an empty database and then, by the hashes
  // remembered of it, the tree it had become.
  function Synced(hash: Hasher, before: seq<Entry>, after: seq<Entry>, first: int, second: int): seq<Artifact> {
    var rows := PutAll([], Changed(hash, map[], WalkOf(before)), first);
    PutAll(rows, Changed(hash, HashAll(hash, WalkOf(before)), WalkOf(after)), second)
  }

  lemma WalkedPaths(root: seq<Entry>, p: Path)
    ensures HasPath(WalkOf(root), p) <==> HasPath(Listing([], root), p)
  {
    hide Walk, WalkOf, Listing;
    WalkVisitsAll(root);
    SameMembers(WalkOf(root), Listing([], root));
    if HasPath(WalkOf(root), p) { SamePathsIn(WalkOf(root), Listing([], root), p); }
    if HasPath(Listing([], root), p) { SamePathsIn(Listing([], root), WalkOf(root), p); }
  }

  lemma ChangedPaths(hash: Hasher, previous: Hashes, files: seq<Found>, p: Path)
    ensures HasPath(Changed(hash, previous, files), p) ==> HasPath(files, p)
    ensures HasPath(files, p) && p !in previous ==> HasPath(Changed(hash, previous, files), p)
  {
    hide Changed;
    ChangedIsFilter(hash, previous, files);
    if f :| f in files && f.path == p && p !in previous { assert f in Changed(hash, previous, files); }
  }

  // Rows of the files of either tree, and no others: nothing is ever deleted.
  lemma SyncedNames(hash: Hasher, before: seq<Entry>, after: seq<Entry>, first: int, second: int, p: Path)
    requires Proper(before)
    ensures HasName(Synced(hash, before, after, first, second), p)
       <==> HasPath(Listing([], before), p) || HasPath(Listing([], after), p)
  {
    hide Walk, WalkOf, Listing, PutAll, Changed, HashAll, HasPath;
    var rows := PutAll([], Changed(hash, map[], WalkOf(before)), first);
    PutAllNames([], Changed(hash, map[], WalkOf(before)), first, p);
    PutAllNames(rows, Changed(hash, HashAll(hash, WalkOf(before)), WalkOf(after)), second, p);
    ChangedPaths(hash, map[], WalkOf(before), p);
    ChangedPaths(hash, HashAll(hash, WalkOf(before)), WalkOf(after), p);
    ScanIsExact(hash, before);
    WalkedPaths(before, p);
    WalkedPaths(after, p);
  }

  lemma PrefixFreeNames(rows: seq<Artifact>)
    ensures PrefixFree(rows) <==> forall p, q :: HasName(rows, p) && HasName(rows, q) ==> !(p < q)
  {
    if forall p, q :: HasName(rows, p) && HasName(rows, q) ==> !(p < q) {
      forall i, j | 0 <= i < |rows| && 0 <= j < |rows| ensures !(rows[i].path < rows[j].path) {
        assert HasName(rows, rows[i].path) && HasName(rows, rows[j].path);
      }
    }
  }

  // No path of a file in the one tree runs through a file of the other.
  ghost predicate NoneReplaced(before: seq<Entry>, after: seq<Entry>) {
    forall p, q :: HasPath(Listing([], before), p) && HasPath(Listing([], after), q) ==> !(p < q) && !(q < p)
  }

  lemma PathsPrefixFree(root: seq<Entry>, p: Path, q: Path)
    requires Proper(root) && HasPath(Listing([], root), p) && HasPath(Listing([], root), q)
    ensures !(p < q)
  {
    hide Listing;
    var f :| f in Listing([], root) && f.path == p;
    var g :| g in Listing([], root) && g.path == q;
    TreeIsPrefixFree([], root, f, g);
  }

  // A stale row blocks the restore exactly when, between the two syncs, a file became a
  // directory with files in it or such a directory a file.
  lemma StaleRowBlocksRestore(hash: Hasher, before: seq<Entry>, after: seq<Entry>, first: int, second: int)
    requires Proper(before) && Proper(after)
    ensures PrefixFree(Synced(hash, before, after, first, second)) <==> NoneReplaced(before, after)
  {
    hide Listing, Synced, HasPath, PrefixFree, HasName;
    var rows, a, b := Synced(hash, before, after, first, second), Listing([], before), Listing([], after);
    PrefixFreeNames(rows);
    forall p ensures HasName(rows, p) <==> HasPath(a, p) || HasPath(b, p) {
      SyncedNames(hash, before, after, first, second, p);
    }
    if NoneReplaced(before, after) {
      forall p, q | HasName(rows, p) && HasName(rows, q) ensures !(p < q) {
        if HasPath(a, p) && HasPath(a, q) {
          PathsPrefixFree(before, p, q);
        } else if HasPath(b, p) && HasPath(b, q) {
          PathsPrefixFree(after, p, q);
        }
      }
    }
  }

  // The file "a" becomes a directory with a file "b" in it.
  lemma FileBecomesDirectory(hash: Hasher, content: string, content': string, first: int, second: int)
    ensures var before, after := [Entry("a", File(content))], [Entry("a", Dir([Entry("b", File(content'))]))];
      !PrefixFree(Synced(hash, before, after, first, second))
  {
    hide Synced, PrefixFree;
    var inner := [Entry("b", File(content'))];
    var before, after := [Entry("a", File(content))], [Entry("a", Dir(inner))];
    SingleEntry(["a"], inner[0]);
    SingleEntry([], before[0]);
    SingleEntry([], after[0]);
    assert ["a"] + ["b"] == ["a", "b"] && [] + ["a"] == ["a"];
    assert HasPath(Listing([], before), ["a"]) by { PathOf(Listing([], before), Found(["a"], content)); }
    assert HasPath(Listing([], after), ["a", "b"]) by { PathOf(Listing([], after), Found(["a", "b"], content')); }
    assert ["a"] < ["a", "b"];
    StaleRowBlocksRestore(hash, before, after, first, second);
  }

  lemma SingleEntry(at: Path, e: Entry)
    ensures Listing(at, [e]) == match e.node
                                case File(content) => [Found(at + [e.name], content)]
                                case Dir(inner) => Listing(at + [e.name], inner)
                                case Other => []
    ensures Proper([e]) <==> (e.node.Dir? ==> Proper(e.node.entries))
  {
    assert [e][..0] == [];
  }
}
