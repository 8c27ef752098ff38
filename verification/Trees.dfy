// Walking a directory tree with a stack of directories still to read
// (clareon-core/src/tools/artifacts.rs and workspace.rs).

module Trees {
  import opened Types

  // What read_dir yields; links and the like are neither files nor directories.
  datatype Node = File(content: string) | Dir(entries: seq<Entry>) | Other
  datatype Entry = Entry(name: string, node: Node)

  // A path relative to the root, by components.
  type Path = seq<string>

  datatype Found = Found(path: Path, content: string)

  // ---------------------------------------------------------------- recursive definitions

  function Listing(at: Path, entries: seq<Entry>): seq<Found>
    decreases entries
  {
    if entries == [] then []
    else
      var n := |entries| - 1;
      Listing(at, entries[..n])
      + (match entries[n].node
         case File(content) => [Found(at + [entries[n].name], content)]
         case Dir(inner) => Listing(at + [entries[n].name], inner)
         case Other => [])
  }

  function DirSize(entries: seq<Entry>): nat {
    if entries == [] then 0
    else
      var n := |entries| - 1;
      DirSize(entries[..n])
      + (match entries[n].node
         case File(content) => |content|
         case Dir(inner) => DirSize(inner)
         case Other => 0)
  }

  // Entries in all, for termination.
  function Weight(entries: seq<Entry>): (w: nat)
    ensures w >= 1
  {
    if entries == [] then 1
    else
      var n := |entries| - 1;
      Weight(entries[..n]) + (match entries[n].node case Dir(inner) => Weight(inner) case _ => 0)
  }

  // Names within one directory are distinct.
  predicate Proper(entries: seq<Entry>) {
    entries == [] ||
    (var n := |entries| - 1;
     && Proper(entries[..n])
     && (forall k :: 0 <= k < n ==> entries[k].name != entries[n].name)
     && (entries[n].node.Dir? ==> Proper(entries[n].node.entries)))
  }

  // ---------------------------------------------------------------- paths

  // Every file below a directory carries its path and the name of one of its entries.
  lemma {:induction false} PathsExtend(at: Path, entries: seq<Entry>, f: Found)
    requires f in Listing(at, entries)
    ensures |f.path| > |at| && f.path[..|at|] == at
    ensures exists k :: 0 <= k < |entries| && entries[k].name == f.path[|at|]
    decreases entries
  {
    var n := |entries| - 1;
    if f in Listing(at, entries[..n]) {
      PathsExtend(at, entries[..n], f);
      var k :| 0 <= k < n && entries[..n][k].name == f.path[|at|];
      assert entries[k].name == f.path[|at|];
    } else {
      var inside := at + [entries[n].name];
      assert inside[..|at|] == at;
      if entries[n].node.Dir? {
        PathsExtend(inside, entries[n].node.entries, f);
        assert f.path[..|at| + 1] == inside;
        assert f.path[..|at|] == f.path[..|at| + 1][..|at|];
        assert f.path[|at|] == f.path[..|at| + 1][|at|];
      }
    }
  }

  predicate DistinctPaths(files: seq<Found>) {
    forall i, j :: 0 <= i < j < |files| ==> files[i].path != files[j].path
  }

  lemma DistinctAppend(a: seq<Found>, b: seq<Found>)
    requires DistinctPaths(a) && DistinctPaths(b)
    requires forall f, g :: f in a && g in b ==> f.path != g.path
    ensures DistinctPaths(a + b)
  {}

  // A path leads to at most one file, and the listing has it once.
  lemma {:induction false} OneFilePerPath(at: Path, entries: seq<Entry>)
    requires Proper(entries)
    ensures DistinctPaths(Listing(at, entries))
    decreases entries
  {
    if entries != [] {
      var n := |entries| - 1;
      var front, inside := Listing(at, entries[..n]), at + [entries[n].name];
      OneFilePerPath(at, entries[..n]);
      if entries[n].node.Dir? { OneFilePerPath(inside, entries[n].node.entries); }
      var last := match entries[n].node
                  case File(content) => [Found(inside, content)]
                  case Dir(inner) => Listing(inside, inner)
                  case Other => [];
      assert Listing(at, entries) == front + last;
      assert DistinctPaths(last);
      forall f, g | f in front && g in last ensures f.path != g.path {
        PathsExtend(at, entries[..n], f);
        var k :| 0 <= k < n && entries[..n][k].name == f.path[|at|];
        if entries[n].node.Dir? {
          PathsExtend(inside, entries[n].node.entries, g);
          assert g.path[..|at| + 1][|at|] == entries[n].name;
        }
      }
      DistinctAppend(front, last);
    }
  }

  // ---------------------------------------------------------------- the worklist

  datatype Job = Job(at: Path, entries: seq<Entry>)

  function StackListing(stack: seq<Job>): multiset<Found> {
    if stack == [] then multiset{}
    else
      var n := |stack| - 1;
      StackListing(stack[..n]) + multiset(Listing(stack[n].at, stack[n].entries))
  }

  function StackSize(stack: seq<Job>): nat {
    if stack == [] then 0
    else StackSize(stack[..|stack| - 1]) + DirSize(stack[|stack| - 1].entries)
  }

  function StackWeight(stack: seq<Job>): nat {
    if stack == [] then 0
    else StackWeight(stack[..|stack| - 1]) + Weight(stack[|stack| - 1].entries)
  }

  lemma StackPush(stack: seq<Job>, job: Job)
    ensures StackListing(stack + [job]) == StackListing(stack) + multiset(Listing(job.at, job.entries))
    ensures StackSize(stack + [job]) == StackSize(stack) + DirSize(job.entries)
    ensures StackWeight(stack + [job]) == StackWeight(stack) + Weight(job.entries)
  {
    assert (stack + [job])[..|stack|] == stack;
  }

  // One more entry of the directory being read.
  lemma EntryStep(at: Path, entries: seq<Entry>, i: nat)
    requires i < |entries|
    ensures var node, path := entries[i].node, at + [entries[i].name];
      && multiset(Listing(at, entries[..i + 1])) == multiset(Listing(at, entries[..i]))
           + (match node
              case File(content) => multiset{Found(path, content)}
              case Dir(inner) => multiset(Listing(path, inner))
              case Other => multiset{})
      && DirSize(entries[..i + 1]) == DirSize(entries[..i])
           + (match node case File(content) => |content| case Dir(inner) => DirSize(inner) case Other => 0)
      && Weight(entries[..i + 1]) == Weight(entries[..i])
           + (match node case Dir(inner) => Weight(inner) case _ => 0)
  {
    assert entries[..i + 1][..i] == entries[..i];
  }

  lemma NoEntries(at: Path, entries: seq<Entry>)
    ensures Listing(at, entries[..0]) == [] && DirSize(entries[..0]) == 0 && Weight(entries[..0]) == 1
    ensures entries[..|entries|] == entries
  {}

  // calculate_dir_size.
  method CalculateDirSize(root: seq<Entry>) returns (size: nat)
    ensures size == DirSize(root)
  {
    hide DirSize, Weight, Listing, StackListing;
    size := 0;
    var stack := [Job([], root)];
    StackPush([], stack[0]);
    assert stack == [] + [stack[0]];
    while stack != []
      invariant size + StackSize(stack) == DirSize(root)
      decreases StackWeight(stack)
    {
      hide StackSize, StackWeight;
      var n := |stack| - 1;
      var job := stack[n];
      StackPush(stack[..n], job);
      assert stack == stack[..n] + [job];
      ghost var size0, rest := size, stack[..n];
      stack := stack[..n];
      NoEntries(job.at, job.entries);
      for i := 0 to |job.entries|
        invariant size + StackSize(stack) == size0 + StackSize(rest) + DirSize(job.entries[..i])
        invariant StackWeight(stack) + 1 == StackWeight(rest) + Weight(job.entries[..i])
      {
        EntryStep(job.at, job.entries, i);
        match job.entries[i].node {
          case Dir(inner) =>
            StackPush(stack, Job(job.at + [job.entries[i].name], inner));
            stack := stack + [Job(job.at + [job.entries[i].name], inner)];
          case File(content) =>
            size := size + |content|;
          case Other =>
        }
      }
    }
  }

  // calculate_disk_usage over the three directories; one that does not exist is skipped.
  method CalculateDiskUsage(dirs: seq<Option<seq<Entry>>>) returns (total: nat)
    ensures total == UsageOf(dirs)
  {
    hide DirSize;
    total := 0;
    for i := 0 to |dirs|
      invariant total == UsageOf(dirs[..i])
    {
      assert dirs[..i + 1][..i] == dirs[..i];
      if dirs[i].Some? {
        var size := CalculateDirSize(dirs[i].value);
        total := total + size;
      }
    }
    assert dirs[..|dirs|] == dirs;
  }

  function UsageOf(dirs: seq<Option<seq<Entry>>>): nat {
    if dirs == [] then 0
    else
      var n := |dirs| - 1;
      UsageOf(dirs[..n]) + (if dirs[n].Some? then DirSize(dirs[n].value) else 0)
  }

  function Lengths(files: seq<Found>): nat {
    if files == [] then 0 else Lengths(files[..|files| - 1]) + |files[|files| - 1].content|
  }

  lemma {:induction false} LengthsAppend(a: seq<Found>, b: seq<Found>)
    ensures Lengths(a + b) == Lengths(a) + Lengths(b)
  {
    if b == [] {
      assert a + b == a;
    } else {
      assert (a + b)[..|a + b| - 1] == a + b[..|b| - 1];
      LengthsAppend(a, b[..|b| - 1]);
    }
  }

  // The size of a directory is the size of the files in it, wherever they are.
  lemma {:induction false} SizeIsFiles(at: Path, entries: seq<Entry>)
    ensures DirSize(entries) == Lengths(Listing(at, entries))
    decreases entries
  {
    if entries != [] {
      var n := |entries| - 1;
      var inside := at + [entries[n].name];
      SizeIsFiles(at, entries[..n]);
      var last := match entries[n].node
                  case File(content) => [Found(inside, content)]
                  case Dir(inner) => Listing(inside, inner)
                  case Other => [];
      LengthsAppend(Listing(at, entries[..n]), last);
      match entries[n].node {
        case File(content) => assert last[..0] == [];
        case Dir(inner) => SizeIsFiles(inside, inner);
        case Other =>
      }
    }
  }

  // ---------------------------------------------------------------- the order of a walk

  function FilesIn(at: Path, entries: seq<Entry>): seq<Found> {
    if entries == [] then []
    else
      var n := |entries| - 1;
      FilesIn(at, entries[..n])
      + (match entries[n].node case File(content) => [Found(at + [entries[n].name], content)] case _ => [])
  }

  function DirsIn(at: Path, entries: seq<Entry>): seq<Job> {
    if entries == [] then []
    else
      var n := |entries| - 1;
      DirsIn(at, entries[..n])
      + (match entries[n].node case Dir(inner) => [Job(at + [entries[n].name], inner)] case _ => [])
  }

  lemma DirsStep(at: Path, entries: seq<Entry>)
    requires entries != []
    ensures var n := |entries| - 1;
      DirsIn(at, entries) == DirsIn(at, entries[..n])
        + (if entries[n].node.Dir? then [Job(at + [entries[n].name], entries[n].node.entries)] else [])
    ensures var n := |entries| - 1;
      Weight(entries) == Weight(entries[..n]) + (if entries[n].node.Dir? then Weight(entries[n].node.entries) else 0)
  {}

  lemma {:induction false} DirsWeight(stack: seq<Job>, at: Path, entries: seq<Entry>)
    ensures StackWeight(stack + DirsIn(at, entries)) + 1 == StackWeight(stack) + Weight(entries)
  {
    if entries == [] {
      assert stack + DirsIn(at, entries) == stack;
    } else {
      hide StackWeight, Weight, DirsIn;
      var n := |entries| - 1;
      var front := stack + DirsIn(at, entries[..n]);
      DirsWeight(stack, at, entries[..n]);
      DirsStep(at, entries);
      if entries[n].node.Dir? {
        var job := Job(at + [entries[n].name], entries[n].node.entries);
        StackPush(front, job);
        assert stack + DirsIn(at, entries) == front + [job];
      } else {
        assert stack + DirsIn(at, entries) == front;
      }
    }
  }

  // The files in the order the stack loops come by them.
  function Walk(stack: seq<Job>): seq<Found>
    decreases StackWeight(stack)
  {
    if stack == [] then []
    else
      var n := |stack| - 1;
      DirsWeight(stack[..n], stack[n].at, stack[n].entries);
      FilesIn(stack[n].at, stack[n].entries) + Walk(stack[..n] + DirsIn(stack[n].at, stack[n].entries))
  }

  lemma ListingStep(at: Path, entries: seq<Entry>)
    requires entries != []
    ensures var n := |entries| - 1;
      var node, path := entries[n].node, at + [entries[n].name];
      && multiset(FilesIn(at, entries)) == multiset(FilesIn(at, entries[..n]))
           + (if node.File? then multiset{Found(path, node.content)} else multiset{})
      && multiset(Listing(at, entries)) == multiset(Listing(at, entries[..n]))
           + (if node.File? then multiset{Found(path, node.content)}
              else if node.Dir? then multiset(Listing(path, node.entries)) else multiset{})
  {
    EntryStep(at, entries, |entries| - 1);
    assert entries[..|entries|] == entries;
  }

  // What one more entry adds to both sides: to the stack or to the files, and to the
  // listing.
  lemma AddToBoth(a: multiset<Found>, b: multiset<Found>, c: multiset<Found>, d: multiset<Found>, x: multiset<Found>)
    requires a + b == c + d
    ensures (a + x) + b == c + (d + x)
    ensures a + (b + x) == c + (d + x)
  {
    assert (a + x) + b == (a + b) + x;
    assert a + (b + x) == (a + b) + x;
    assert c + (d + x) == (c + d) + x;
  }

  lemma StackStep(stack: seq<Job>, at: Path, entries: seq<Entry>)
    requires entries != []
    ensures var n := |entries| - 1;
      StackListing(stack + DirsIn(at, entries)) == StackListing(stack + DirsIn(at, entries[..n]))
        + (if entries[n].node.Dir? then multiset(Listing(at + [entries[n].name], entries[n].node.entries))
           else multiset{})
  {
    hide StackListing, Listing, DirsIn;
    var n := |entries| - 1;
    var front := stack + DirsIn(at, entries[..n]);
    DirsStep(at, entries);
    if entries[n].node.Dir? {
      var job := Job(at + [entries[n].name], entries[n].node.entries);
      StackPush(front, job);
      assert stack + DirsIn(at, entries) == front + [job];
    } else {
      assert stack + DirsIn(at, entries) == front;
    }
  }

  lemma NothingListed(stack: seq<Job>, at: Path)
    ensures DirsIn(at, []) == [] && FilesIn(at, []) == [] && Listing(at, []) == []
    ensures stack + DirsIn(at, []) == stack
  {}

  lemma {:induction false} DirsListing(stack: seq<Job>, at: Path, entries: seq<Entry>)
    ensures StackListing(stack + DirsIn(at, entries)) + multiset(FilesIn(at, entries))
         == StackListing(stack) + multiset(Listing(at, entries))
  {
    hide StackListing, Listing, FilesIn, DirsIn;
    if entries == [] {
      NothingListed(stack, at);
    } else {
      var n := |entries| - 1;
      DirsListing(stack, at, entries[..n]);
      StackStep(stack, at, entries);
      ListingStep(at, entries);
      var front := stack + DirsIn(at, entries[..n]);
      var a, b := StackListing(front), multiset(FilesIn(at, entries[..n]));
      var c, d := StackListing(stack), multiset(Listing(at, entries[..n]));
      var node, path := entries[n].node, at + [entries[n].name];
      if node.Dir? {
        AddToBoth(a, b, c, d, multiset(Listing(path, node.entries)));
      } else if node.File? {
        AddToBoth(a, b, c, d, multiset{Found(path, node.content)});
      } else {
        assert a + multiset{} == a && b + multiset{} == b && d + multiset{} == d;
      }
    }
  }

  // A walk comes by every file of the tree exactly once.
  lemma {:induction false} WalkIsListing(stack: seq<Job>)
    ensures multiset(Walk(stack)) == StackListing(stack)
    decreases StackWeight(stack)
  {
    hide Listing, Weight, StackWeight, FilesIn, DirsIn;
    if stack != [] {
      var n := |stack| - 1;
      var job := stack[n];
      var rest := stack[..n] + DirsIn(job.at, job.entries);
      DirsWeight(stack[..n], job.at, job.entries);
      StackPush(stack[..n], job);
      assert stack == stack[..n] + [job];
      WalkIsListing(rest);
      DirsListing(stack[..n], job.at, job.entries);
    }
  }

  function WalkOf(root: seq<Entry>): seq<Found> { Walk([Job([], root)]) }

  lemma WalkVisitsAll(root: seq<Entry>)
    ensures multiset(WalkOf(root)) == multiset(Listing([], root))
    ensures Proper(root) ==> DistinctPaths(WalkOf(root))
  {
    hide Walk, Listing;
    var job := Job([], root);
    WalkIsListing([job]);
    StackPush([], job);
    assert [] + [job] == [job];
    if Proper(root) {
      OneFilePerPath([], root);
      SamePaths(Listing([], root), WalkOf(root));
    }
  }

  // Having distinct paths does not depend on the order.
  lemma {:induction false} SamePaths(a: seq<Found>, b: seq<Found>)
    requires multiset(a) == multiset(b) && DistinctPaths(a)
    ensures DistinctPaths(b)
    decreases |b|
  {
    if b != [] {
      var n := |b| - 1;
      var last := b[n];
      assert b == b[..n] + [last];
      assert last in multiset(b);
      var k :| 0 <= k < |a| && a[k] == last;
      var a' := a[..k] + a[k + 1..];
      assert a == a[..k] + [last] + a[k + 1..];
      assert multiset(a[..k] + [last] + a[k + 1..]) == multiset(a') + multiset{last};
      assert multiset(b[..n] + [last]) == multiset(b[..n]) + multiset{last};
      RemoveOne(multiset(a'), multiset(b[..n]), last);
      RemovedPaths(a, k);
      SamePaths(a', b[..n]);
      forall i | 0 <= i < n ensures b[i].path != last.path {
        assert b[..n][i] in multiset(b[..n]);
        assert b[i] in a';
      }
    }
  }

  lemma RemoveOne(a: multiset<Found>, b: multiset<Found>, f: Found)
    requires a + multiset{f} == b + multiset{f}
    ensures a == b
  {
    assert (a + multiset{f}) - multiset{f} == a;
    assert (b + multiset{f}) - multiset{f} == b;
  }

  lemma RemovedPaths(a: seq<Found>, k: nat)
    requires k < |a| && DistinctPaths(a)
    ensures var rest := a[..k] + a[k + 1..];
      DistinctPaths(rest) && forall f :: f in rest ==> f.path != a[k].path
  {
    var rest := a[..k] + a[k + 1..];
    forall i | 0 <= i < |rest| ensures rest[i] == a[if i < k then i else i + 1] {}
  }
}
