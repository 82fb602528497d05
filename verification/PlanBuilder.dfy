/** The planner's loops: operation lists, claimed and vacated keys built up step by step. */
module PlanBuilder {
  import opened Paths
  import opened Model
  import opened Scans
  import opened Planner

  method BuildDirectories(c: Inputs) returns (made: Made)
    ensures made == Directories(c)
  {
    var paths := RequiredDirectories(c);
    RequiredNonEmpty(c);
    var ops, created := [], map[];
    for i := 0 to |paths|
      invariant Made(ops, created) == MakeDirectories(c, paths[..i])
    {
      assert paths[..i + 1][..i] == paths[..i];
      if DirsAt(TargetDirs(c), Fold(paths[i])) == [] {
        var op := MkdirOperation(c, paths[i], created);
        ops := ops + [op];
        created := created[Fold(paths[i]) := op];
      }
    }
    assert paths[..|paths|] == paths;
    made := Made(ops, created);
  }

  ghost predicate Tallies(ops: seq<Operation>, claimed: set<Key>, vacated: set<Key>) {
    && (forall k :: k in claimed <==> Claimed(ops, k))
    && (forall k :: k in vacated <==> MovedAway(ops, k))
  }

  lemma TalliesNext(ops: seq<Operation>, claimed: set<Key>, vacated: set<Key>, op: Operation)
    requires Tallies(ops, claimed, vacated)
    ensures Tallies(ops + [op],
                    if op.blocked != Some(BlockedDependency) then claimed + {Fold(op.target)} else claimed,
                    if op.kind in {Move, MoveUpdate} && op.prior.Some? then vacated + {Fold(op.prior.value)} else vacated)
  {
    var more := ops + [op];
    assert op in more && forall o :: o in more <==> o in ops || o == op;
    forall k
      ensures Claimed(more, k) <==> Claimed(ops, k) || Claims(op, k)
      ensures MovedAway(more, k) <==> MovedAway(ops, k) || MovesFrom(op, k)
    {
      if Claimed(ops, k) {
        var o :| o in ops && Claims(o, k);
        assert o in more;
      }
      if MovedAway(ops, k) {
        var o :| o in ops && MovesFrom(o, k);
        assert o in more;
      }
    }
  }

  lemma ContentSnoc(c: Inputs, created: map<Key, Operation>, items: seq<FileRecord>, n: nat)
    requires Named(c) && (forall f :: f in items ==> f in SourceFiles(c)) && n < |items|
    ensures items[n] in SourceFiles(c)
    ensures ContentOperations(c, created, items[..n + 1]) == ContentOperations(c, created, items[..n]) + [ContentOperation(c, created, items[n])]
  {
    assert items[n] in items;
    var front, more := items[..n], items[..n + 1];
    Extended(ContentOperations(c, created, front), ContentOperations(c, created, more), front, more);
  }

  lemma Extended(a: seq<Operation>, b: seq<Operation>, front: seq<FileRecord>, more: seq<FileRecord>)
    requires |a| == |front| && |b| == |more| == |front| + 1 && forall i :: 0 <= i < |a| ==> a[i] == b[i]
    ensures b == a + [b[|a|]]
  {
  }

  /** One operation per source file, with the keys claimed and the keys moved away from. */
  method BuildContent(c: Inputs, created: map<Key, Operation>) returns (ops: seq<Operation>, claimed: set<Key>, vacated: set<Key>)
    requires Named(c)
    ensures ops == ContentOperations(c, created, SourceFiles(c)) && Tallies(ops, claimed, vacated)
  {
    var items := SourceFiles(c);
    ops, claimed, vacated := [], {}, {};
    for i := 0 to |items|
      invariant ops == ContentOperations(c, created, items[..i]) && Tallies(ops, claimed, vacated)
    {
      ContentSnoc(c, created, items, i);
      var op := ContentOperation(c, created, items[i]);
      TalliesNext(ops, claimed, vacated, op);
      ops := ops + [op];
      if op.blocked != Some(BlockedDependency) {
        claimed := claimed + {Fold(op.target)};
      }
      if op.kind in {Move, MoveUpdate} && op.prior.Some? {
        vacated := vacated + {Fold(op.prior.value)};
      }
    }
    assert items[..|items|] == items;
  }

  predicate RemovedFrom(c: Inputs, content: seq<Operation>, files: seq<FileRecord>, key: Key) {
    MovedAway(content, key) || exists g :: g in files && Fold(g.path) == key && Extra(c, content, g)
  }

  lemma RemovedNext(c: Inputs, content: seq<Operation>, files: seq<FileRecord>, n: nat, key: Key)
    requires n < |files|
    ensures RemovedFrom(c, content, files[..n + 1], key) <==>
            RemovedFrom(c, content, files[..n], key) || (Fold(files[n].path) == key && Extra(c, content, files[n]))
  {
    assert files[..n + 1] == files[..n] + [files[n]];
    assert forall g :: g in files[..n + 1] <==> g in files[..n] || g == files[n];
  }

  method BuildRemovals(c: Inputs, content: seq<Operation>, claimed: set<Key>, vacated: set<Key>)
    returns (ops: seq<Operation>, removed: set<Key>)
    requires Tallies(content, claimed, vacated)
    ensures ops == RemovalOperations(c, content, TargetFiles(c))
    ensures KnowsRemoved(c, content, removed)
  {
    var files := TargetFiles(c);
    ops, removed := [], vacated;
    for i := 0 to |files|
      invariant ops == RemovalOperations(c, content, files[..i])
      invariant forall k :: k in removed <==> RemovedFrom(c, content, files[..i], k)
    {
      assert files[..i + 1][..i] == files[..i];
      forall k
        ensures RemovedFrom(c, content, files[..i + 1], k) <==>
                RemovedFrom(c, content, files[..i], k) || (Fold(files[i].path) == k && Extra(c, content, files[i]))
      {
        RemovedNext(c, content, files, i, k);
      }
      var key := Fold(files[i].path);
      if key in claimed || key in vacated {
        continue;
      }
      if c.options.deletion == Additive {
        continue;
      }
      ops := ops + [RemovalOperation(c, files[i])];
      removed := removed + {key};
    }
    assert files[..|files|] == files;
  }

  ghost predicate KnowsRemoved(c: Inputs, content: seq<Operation>, removed: set<Key>) {
    forall f: FileRecord :: Fold(f.path) in removed <==> Removed(c, content, f)
  }

  ghost predicate KnowsCleaned(done: seq<Operation>, cleaned: set<Key>) {
    forall k :: k in cleaned <==> CleanedUp(done, k)
  }

  lemma KnowsNext(done: seq<Operation>, cleaned: set<Key>, op: Operation)
    requires KnowsCleaned(done, cleaned)
    ensures KnowsCleaned(done + [op], cleaned + {Fold(op.target)})
  {
    var more := done + [op];
    assert op in more && forall o :: o in done ==> o in more;
  }

  method CanGo(c: Inputs, content: seq<Operation>, done: seq<Operation>, removed: set<Key>, cleaned: set<Key>, d: DirRecord) returns (b: bool)
    requires KnowsRemoved(c, content, removed) && KnowsCleaned(done, cleaned)
    ensures b == Cleanable(c, content, done, d)
  {
    if c.options.deletion == Additive || Desired(c, Fold(d.path)) || Excludes(c.options, d.path) {
      return false;
    }
    var remainingFile := exists f :: f in c.target.files && Beneath(Fold(f.path), Fold(d.path)) && Fold(f.path) !in removed;
    var remainingDirectory := exists e :: e in TargetDirs(c) && |e.path| > 1 && Parent(e.path) == d.path
                                          && Fold(e.path) !in cleaned && !Desired(c, Fold(e.path));
    assert remainingFile == HasRemainingFile(c, content, d);
    assert remainingDirectory == HasRemainingDirectory(c, done, d);
    b := !(HasExcludedChild(c, d) || HasUnsupportedChild(c, d) || remainingFile || remainingDirectory);
  }

  method CleanNext(c: Inputs, content: seq<Operation>, vacating: seq<Operation>, done: seq<Operation>,
                   removed: set<Key>, known: set<Key>, d: DirRecord) returns (ops: seq<Operation>, cleaned: set<Key>)
    requires KnowsRemoved(c, content, removed) && KnowsCleaned(done, known)
    ensures ops == CleanedNext(c, content, vacating, done, d) && KnowsCleaned(ops, cleaned)
  {
    ops, cleaned := done, known;
    var free := CanGo(c, content, done, removed, known, d);
    if free {
      var op := CleanupOperation(c, vacating, done, d);
      KnowsNext(done, known, op);
      ops := done + [op];
      cleaned := known + {Fold(d.path)};
    }
  }

  method BuildCleanups(c: Inputs, content: seq<Operation>, vacating: seq<Operation>, removed: set<Key>) returns (ops: seq<Operation>)
    requires KnowsRemoved(c, content, removed)
    ensures ops == CleanupOperations(c, content, vacating, DirsByHeight(c))
  {
    var dirs := DirsByHeight(c);
    var cleaned: set<Key> := {};
    ops := [];
    for i := 0 to |dirs|
      invariant ops == CleanupOperations(c, content, vacating, dirs[..i])
      invariant KnowsCleaned(ops, cleaned)
    {
      assert dirs[..i + 1][..i] == dirs[..i];
      ops, cleaned := CleanNext(c, content, vacating, ops, removed, cleaned, dirs[i]);
    }
    assert dirs[..|dirs|] == dirs;
  }

  /** Planning as the program does it, proved to compute `Plan`. */
  method BuildPlan(input: Inputs) returns (ops: seq<Operation>)
    requires Named(input)
    ensures ops == Plan(input)
  {
    CanonicalNamed(input);
    var c := Canonicalized(input);
    var made := BuildDirectories(c);
    var content, claimed, vacated := BuildContent(c, made.created);
    var removals, removed := BuildRemovals(c, content, claimed, vacated);
    var unsupported := UnsupportedOperations(UnsupportedPaths(c));
    var cleanups := BuildCleanups(c, content, content + removals, removed);
    ops := made.ops + content + removals + unsupported + cleanups;
  }
}
