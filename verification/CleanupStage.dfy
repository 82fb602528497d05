/** The removal and cleanup parts of a plan apply in order and leave only what the source has. */
module CleanupStage {
  import opened Paths
  import opened Model
  import opened Order
  import opened Scans
  import opened Planner
  import opened Mirror
  import opened Convergence
  import opened ContentStage

  // -------------------------------------------------------------------- removals

  ghost predicate RemovesAt(base: Tree, op: Operation) {
    && op.blocked.None?
    && (op.kind == Trash || (op.kind == Delete && op.targetExpected.Some? && op.targetExpected.value.kind == FileEntry))
    && HoldsFile(base, Fold(op.target), op.targetExpected)
  }

  ghost predicate TargetIn(ops: seq<Operation>, n: nat, key: Key)
    requires n <= |ops|
  {
    exists j :: 0 <= j < n && Fold(ops[j].target) == key
  }

  ghost predicate DistinctTargets(ops: seq<Operation>) {
    forall i, j :: 0 <= i < j < |ops| ==> Fold(ops[i].target) != Fold(ops[j].target)
  }

  ghost function Without(base: Tree, ops: seq<Operation>, n: nat, key: Key): Option<Node>
    requires n <= |ops|
  {
    if TargetIn(ops, n, key) then None else Lookup(base, key)
  }

  lemma {:induction false} RemovalsApply(base: Tree, ops: seq<Operation>, n: nat) returns (t: Tree)
    requires n <= |ops| && DistinctTargets(ops)
    requires forall i :: 0 <= i < |ops| ==> RemovesAt(base, ops[i])
    ensures ApplyAll(ops[..n], base) == Some(t)
    ensures forall k :: Lookup(t, k) == Without(base, ops, n, k)
  {
    if n == 0 {
      t := base;
    } else {
      var s := RemovalsApply(base, ops, n - 1);
      var op := ops[n - 1];
      var key := Fold(op.target);
      assert Lookup(s, key) == Without(base, ops, n - 1, key);
      t := s - {key};
      assert Apply(op, s) == Some(t);
      ApplyNext(ops[..n - 1], op, base, s, t);
      assert ops[..n] == ops[..n - 1] + [op];
      forall k
        ensures Lookup(t, k) == Without(base, ops, n, k)
      {
        assert Lookup(s, k) == Without(base, ops, n - 1, k);
        assert TargetIn(ops, n, k) <==> TargetIn(ops, n - 1, k) || k == key;
      }
    }
  }

  lemma {:induction false} RemovalTargetsDistinct(c: Inputs, content: seq<Operation>, files: seq<FileRecord>)
    requires NoRepeats(files)
    requires forall f, g :: f in files && g in files && Fold(f.path) == Fold(g.path) ==> f == g
    ensures DistinctTargets(RemovalOperations(c, content, files))
  {
    if files != [] {
      var n := |files| - 1;
      assert files == files[..n] + [files[n]];
      RemovalTargetsDistinct(c, content, files[..n]);
      var front := RemovalOperations(c, content, files[..n]);
      forall i | 0 <= i < |front|
        ensures Fold(front[i].target) != Fold(files[n].path)
      {
        assert front[i] in front;
        var f :| f in files[..n] && Extra(c, content, f) && front[i] == RemovalOperation(c, f);
        assert files[n] !in files[..n];
      }
    }
  }

  lemma Unclaimed(ops: seq<Operation>, key: Key)
    requires forall j :: 0 <= j < |ops| ==> Fold(ops[j].target) != key
    ensures !Claimed(ops, key)
  {
  }

  lemma SourceHasClaimant(c: Inputs, f: FileRecord)
    requires OpenContent(c) && f in c.source.files
    ensures Claimed(Content(c), Fold(f.path))
  {
    assert f in SourceFiles(c);
    var i :| 0 <= i < |SourceFiles(c)| && SourceFiles(c)[i] == f;
    OperationFacts(c, i);
    var op := Content(c)[i];
    assert op in Content(c) && Claims(op, Fold(f.path));
  }

  lemma ClaimedIsSource(c: Inputs, key: Key)
    requires OpenContent(c)
    ensures Claimed(Content(c), key) <==> FileKey(c.source, key)
  {
    if FileKey(c.source, key) {
      var f :| f in c.source.files && Fold(f.path) == key;
      SourceHasClaimant(c, f);
    } else {
      NoTargetAt(c, key);
      Unclaimed(Content(c), key);
    }
  }

  /** Only what the source has, and the target's directories, remain. */
  ghost predicate Settled(c: Inputs, t: Tree)
    requires Named(c)
  {
    && (forall i :: 0 <= i < |Content(c)| ==> Lookup(t, Fold(Content(c)[i].target)) == EffectNode(Content(c)[i]))
    && (forall k :: !FileKey(c.source, k) ==> Lookup(t, k) == if DirKey(c.source, k) || DirKey(c.target, k) then Some(DirNode) else None)
  }

  lemma RemovalIsOpen(c: Inputs, base: Tree, t: Tree, op: Operation)
    requires OpenContent(c) && Grounded(c, base) && Delivered(c, base, t) && op in Removals(c)
    ensures RemovesAt(t, op) && !FileKey(c.source, Fold(op.target))
  {
    var f :| f in TargetFiles(c) && Extra(c, Content(c), f) && op == RemovalOperation(c, f);
    ClaimedIsSource(c, Fold(f.path));
    PriorGrounded(c, base, f);
    assert Lookup(t, Fold(f.path)) == Lookup(base, Fold(f.path));
  }

  lemma ExtraIsRemoved(c: Inputs, f: FileRecord)
    requires OpenContent(c) && c.options.deletion != Additive && f in c.target.files
    requires !FileKey(c.source, Fold(f.path)) && !MovedAway(Content(c), Fold(f.path))
    ensures TargetIn(Removals(c), |Removals(c)|, Fold(f.path))
  {
    var ops := Removals(c);
    ClaimedIsSource(c, Fold(f.path));
    assert f in TargetFiles(c) && Extra(c, Content(c), f);
    assert RemovalOperation(c, f) in ops;
    var j :| 0 <= j < |ops| && ops[j] == RemovalOperation(c, f);
  }

  lemma MovedIsTargetFile(c: Inputs, key: Key)
    requires OpenContent(c) && MovedAway(Content(c), key)
    ensures FileKey(c.target, key)
  {
    var op :| op in Content(c) && MovesFrom(op, key);
    var i :| 0 <= i < |Content(c)| && Content(c)[i] == op;
    MovedKeyFacts(c, i, key);
  }

  lemma RemovedKey(c: Inputs, base: Tree, t: Tree, u: Tree, key: Key)
    requires OpenContent(c) && Grounded(c, base) && Delivered(c, base, t) && c.options.deletion != Additive
    requires Lookup(u, key) == Without(t, Removals(c), |Removals(c)|, key) && !FileKey(c.source, key)
    ensures Lookup(u, key) == if DirKey(c.source, key) || DirKey(c.target, key) then Some(DirNode) else None
  {
    TreeDepicted(c.target);
    if FileKey(c.target, key) {
      var f := FileWith(c.target, key).value;
      PriorGrounded(c, base, f);
      OneEntryPerKey(c.target);
      if !MovedAway(Content(c), key) {
        ExtraIsRemoved(c, f);
      }
    } else {
      NotRemoved(c, key);
      if MovedAway(Content(c), key) {
        MovedIsTargetFile(c, key);
      }
    }
  }

  lemma NotRemoved(c: Inputs, key: Key)
    requires Orderly(c) && !FileKey(c.target, key)
    ensures !TargetIn(Removals(c), |Removals(c)|, key)
  {
    var ops := Removals(c);
    forall j | 0 <= j < |ops|
      ensures Fold(ops[j].target) != key
    {
      assert ops[j] in ops;
      var f :| f in TargetFiles(c) && Extra(c, Content(c), f) && ops[j] == RemovalOperation(c, f);
      assert FileKey(c.target, Fold(f.path));
    }
  }

  lemma RemovalsSettle(c: Inputs, base: Tree, t: Tree) returns (u: Tree)
    requires OpenContent(c) && Grounded(c, base) && Delivered(c, base, t) && c.options.deletion != Additive
    ensures ApplyAll(Removals(c), t) == Some(u) && Settled(c, u)
  {
    var ops := Removals(c);
    OneEntryPerKey(c.target);
    FilterNoRepeats(c.target.files, (f: FileRecord) => !Excludes(c.options, f.path));
    RemovalTargetsDistinct(c, Content(c), TargetFiles(c));
    forall i | 0 <= i < |ops|
      ensures RemovesAt(t, ops[i])
    {
      RemovalIsOpen(c, base, t, ops[i]);
    }
    u := RemovalsApply(t, ops, |ops|);
    assert ops[..|ops|] == ops;
    forall i | 0 <= i < |Content(c)|
      ensures Lookup(u, Fold(Content(c)[i].target)) == EffectNode(Content(c)[i])
    {
      OperationFacts(c, i);
      var key := Fold(Content(c)[i].target);
      assert FileKey(c.source, key);
      assert !TargetIn(ops, |ops|, key) by {
        forall j | 0 <= j < |ops|
          ensures Fold(ops[j].target) != key
        {
          RemovalIsOpen(c, base, t, ops[j]);
        }
      }
      assert Lookup(u, key) == Without(t, ops, |ops|, key);
    }
    forall k | !FileKey(c.source, k)
      ensures Lookup(u, k) == if DirKey(c.source, k) || DirKey(c.target, k) then Some(DirNode) else None
    {
      RemovedKey(c, base, t, u, k);
    }
  }

  // --------------------------------------------------------------------- cleanup

  /** Anything beneath a directory key of the source's entries makes the key the source's. */
  lemma BeneathSource(c: Inputs, path: Path, key: Key)
    requires Orderly(c) && key != [] && Beneath(Fold(path), key) && HasDirectory(c.source, Parent(path))
    ensures DirKey(c.source, key)
  {
    AncestorsRecorded(c.source, path, |key|);
    FoldPrefix(path, |key|);
    assert Fold(path[..|key|]) == key;
    var d :| d in c.source.dirs && d.path == path[..|key|];
  }

  lemma NothingOfSourceBeneath(c: Inputs, key: Key, inner: Key)
    requires Orderly(c) && key != [] && !DirKey(c.source, key) && Beneath(inner, key)
    ensures !FileKey(c.source, inner) && !DirKey(c.source, inner)
  {
    if FileKey(c.source, inner) {
      var f :| f in c.source.files && Fold(f.path) == inner;
      BeneathSource(c, f.path, key);
    }
    if DirKey(c.source, inner) {
      var d :| d in c.source.dirs && d.path != [] && Fold(d.path) == inner;
      BeneathSource(c, d.path, key);
    }
  }

  /** Every target directory, deepest first. */
  ghost predicate Descending(c: Inputs, dirs: seq<DirRecord>) {
    && NoRepeats(dirs)
    && (forall d :: d in dirs <==> d in TargetDirs(c))
    && (forall i, j :: 0 <= i < j < |dirs| ==> |dirs[i].path| >= |dirs[j].path|)
  }

  lemma HeightsDescend(c: Inputs)
    requires Orderly(c)
    ensures Descending(c, DirsByHeight(c))
  {
    FilterNoRepeats(c.target.dirs, (d: DirRecord) => d.path != []);
    SortNoRepeats(TargetDirs(c), DirByHeight);
    SortBySorted(TargetDirs(c), DirByHeight);
    var dirs := DirsByHeight(c);
    forall i, j | 0 <= i < j < |dirs|
      ensures |dirs[i].path| >= |dirs[j].path|
    {
      assert RankLeq(DirByHeight(dirs[i]), DirByHeight(dirs[j]));
    }
  }

  ghost predicate KeyIn(dirs: seq<DirRecord>, n: nat, key: Key)
    requires n <= |dirs|
  {
    exists j :: 0 <= j < n && Fold(dirs[j].path) == key
  }

  /** Of the first `n` directories only the source's are left. */
  ghost predicate Pruned(c: Inputs, dirs: seq<DirRecord>, n: nat, t: Tree)
    requires Named(c) && n <= |dirs|
  {
    && (forall i :: 0 <= i < |Content(c)| ==> Lookup(t, Fold(Content(c)[i].target)) == EffectNode(Content(c)[i]))
    && (forall k :: !FileKey(c.source, k) ==> Lookup(t, k) == Kept(c, dirs, n, k))
  }

  ghost function Kept(c: Inputs, dirs: seq<DirRecord>, n: nat, key: Key): Option<Node>
    requires n <= |dirs|
  {
    if DirKey(c.source, key) || (DirKey(c.target, key) && !KeyIn(dirs, n, key)) then Some(DirNode) else None
  }

  /** A deeper target directory comes earlier. */
  lemma DeeperIsEarlier(c: Inputs, dirs: seq<DirRecord>, n: nat, e: DirRecord)
    requires Descending(c, dirs) && n < |dirs| && e in TargetDirs(c) && |e.path| > |dirs[n].path|
    ensures KeyIn(dirs, n, Fold(e.path)) && exists j :: 0 <= j < n && dirs[j] == e
  {
    assert e in dirs;
    var j :| 0 <= j < |dirs| && dirs[j] == e;
    assert j < n;
  }

  lemma FilesBeneathRemoved(c: Inputs, d: DirRecord)
    requires OpenContent(c) && c.options.deletion != Additive && d in TargetDirs(c) && !DirKey(c.source, Fold(d.path))
    ensures !HasRemainingFile(c, Content(c), d)
  {
    forall f | f in c.target.files && Beneath(Fold(f.path), Fold(d.path))
      ensures Removed(c, Content(c), f)
    {
      NothingOfSourceBeneath(c, Fold(d.path), Fold(f.path));
      ClaimedIsSource(c, Fold(f.path));
      assert f in TargetFiles(c);
    }
  }

  /** Every directory the source does not want can be cleaned up in its turn. */
  lemma AlwaysCleanable(c: Inputs, dirs: seq<DirRecord>, n: nat, done: seq<Operation>)
    requires OpenContent(c) && c.options.deletion != Additive && c.target.unsupported == []
    requires Descending(c, dirs) && n < |dirs| && !DirKey(c.source, Fold(dirs[n].path))
    requires forall j :: 0 <= j < n && !DirKey(c.source, Fold(dirs[j].path)) ==> CleanedUp(done, Fold(dirs[j].path))
    ensures Cleanable(c, Content(c), done, dirs[n])
  {
    var d := dirs[n];
    assert d in dirs;
    DesiredIsSourceDir(c, Fold(d.path));
    FilesBeneathRemoved(c, d);
    forall e | e in TargetDirs(c) && |e.path| > 1 && Parent(e.path) == d.path && !Desired(c, Fold(e.path))
      ensures CleanedUp(done, Fold(e.path))
    {
      DesiredIsSourceDir(c, Fold(e.path));
      DeeperIsEarlier(c, dirs, n, e);
    }
  }

  lemma EmptyInTurn(c: Inputs, dirs: seq<DirRecord>, n: nat, t: Tree)
    requires Orderly(c) && Descending(c, dirs) && n < |dirs| && Pruned(c, dirs, n, t)
    requires !DirKey(c.source, Fold(dirs[n].path)) && dirs[n].path != []
    ensures forall k :: k in t ==> !Beneath(k, Fold(dirs[n].path))
  {
    var key := Fold(dirs[n].path);
    forall k | k in t && Beneath(k, key)
      ensures false
    {
      NothingOfSourceBeneath(c, key, k);
      assert Lookup(t, k) == Kept(c, dirs, n, k);
      var e :| e in c.target.dirs && e.path != [] && Fold(e.path) == k;
      assert e in TargetDirs(c);
      DeeperIsEarlier(c, dirs, n, e);
    }
  }

  lemma PrunedNext(c: Inputs, dirs: seq<DirRecord>, n: nat, t: Tree, u: Tree)
    requires Orderly(c) && Descending(c, dirs) && n < |dirs| && Pruned(c, dirs, n, t)
    requires forall k :: k != Fold(dirs[n].path) ==> Lookup(u, k) == Lookup(t, k)
    requires Lookup(u, Fold(dirs[n].path)) == if DirKey(c.source, Fold(dirs[n].path)) then Some(DirNode) else None
    requires forall i :: 0 <= i < |Content(c)| ==> Fold(Content(c)[i].target) != Fold(dirs[n].path)
    ensures Pruned(c, dirs, n + 1, u)
  {
    forall k | !FileKey(c.source, k)
      ensures Lookup(u, k) == Kept(c, dirs, n + 1, k)
    {
      assert Lookup(t, k) == Kept(c, dirs, n, k);
      assert KeyIn(dirs, n + 1, k) <==> KeyIn(dirs, n, k) || Fold(dirs[n].path) == k;
    }
  }

  /** Of the first `n` directories, those the source does not want have their cleanup. */
  ghost predicate Handled(c: Inputs, dirs: seq<DirRecord>, n: nat, done: seq<Operation>)
    requires n <= |dirs|
  {
    forall j :: 0 <= j < n && !DirKey(c.source, Fold(dirs[j].path)) ==> CleanedUp(done, Fold(dirs[j].path))
  }

  lemma HandledNext(c: Inputs, dirs: seq<DirRecord>, n: nat, done: seq<Operation>, op: Operation)
    requires n < |dirs| && Handled(c, dirs, n, done) && op.target == dirs[n].path
    ensures Handled(c, dirs, n + 1, done + [op])
  {
    var more := done + [op];
    assert op in more && CleanedUp(more, Fold(op.target));
    forall j | 0 <= j < n && !DirKey(c.source, Fold(dirs[j].path))
      ensures CleanedUp(more, Fold(dirs[j].path))
    {
      var d :| d in done && Fold(d.target) == Fold(dirs[j].path);
      assert d in more;
    }
  }

  lemma NoFileAtDirectory(c: Inputs, d: DirRecord)
    requires OpenContent(c) && d in TargetDirs(c)
    ensures !FileKey(c.source, Fold(d.path))
  {
    if FileKey(c.source, Fold(d.path)) {
      var f :| f in c.source.files && Fold(f.path) == Fold(d.path);
      assert f in SourceFiles(c);
      var i :| 0 <= i < |SourceFiles(c)| && SourceFiles(c)[i] == f;
      OperationFacts(c, i);
      OpenShape(c, Directories(c).created, f);
    }
  }

  /** Removing an empty directory applies. */
  lemma EmptyDirectoryGoes(op: Operation, t: Tree) returns (u: Tree)
    requires op.kind == Delete && op.blocked.None? && op.targetExpected.Some? && op.targetExpected.value.kind == DirectoryEntry
    requires Lookup(t, Fold(op.target)) == Some(DirNode) && forall k :: k in t ==> !Beneath(k, Fold(op.target))
    ensures Apply(op, t) == Some(u) && Lookup(u, Fold(op.target)) == None
    ensures forall k :: k != Fold(op.target) ==> Lookup(u, k) == Lookup(t, k)
  {
    u := t - {Fold(op.target)};
  }

  lemma StillThere(c: Inputs, dirs: seq<DirRecord>, n: nat, t: Tree)
    requires OpenContent(c) && Descending(c, dirs) && n < |dirs| && Pruned(c, dirs, n, t)
    ensures Lookup(t, Fold(dirs[n].path)) == Some(DirNode)
    ensures forall i :: 0 <= i < |Content(c)| ==> Fold(Content(c)[i].target) != Fold(dirs[n].path)
  {
    var d := dirs[n];
    assert d in dirs;
    NoFileAtDirectory(c, d);
    NoTargetAt(c, Fold(d.path));
    OwnKeyStays(c, dirs, n);
    assert Lookup(t, Fold(d.path)) == Kept(c, dirs, n, Fold(d.path));
  }

  /** The cleanup of one directory applies, in its turn. */
  lemma CleanupApplies(c: Inputs, dirs: seq<DirRecord>, n: nat, t: Tree, op: Operation) returns (u: Tree)
    requires OpenContent(c) && Descending(c, dirs) && n < |dirs| && Pruned(c, dirs, n, t)
    requires !DirKey(c.source, Fold(dirs[n].path)) && dirs[n].path != []
    requires op.kind == Delete && op.blocked.None? && op.target == dirs[n].path && op.targetExpected == Some(DirStat(dirs[n]))
    ensures Apply(op, t) == Some(u) && Pruned(c, dirs, n + 1, u)
  {
    EmptyInTurn(c, dirs, n, t);
    StillThere(c, dirs, n, t);
    u := EmptyDirectoryGoes(op, t);
    PrunedNext(c, dirs, n, t, u);
  }

  lemma OwnKeyStays(c: Inputs, dirs: seq<DirRecord>, n: nat)
    requires Orderly(c) && Descending(c, dirs) && n < |dirs|
    ensures DirKey(c.target, Fold(dirs[n].path)) && !KeyIn(dirs, n, Fold(dirs[n].path))
  {
    OneEntryPerKey(c.target);
    assert dirs[n] in dirs;
    forall j | 0 <= j < n
      ensures Fold(dirs[j].path) != Fold(dirs[n].path)
    {
      assert dirs[j] in dirs;
    }
  }

  lemma KeptDirectory(c: Inputs, dirs: seq<DirRecord>, n: nat, t: Tree)
    requires OpenContent(c) && Descending(c, dirs) && n < |dirs| && Pruned(c, dirs, n, t) && DirKey(c.source, Fold(dirs[n].path))
    ensures Pruned(c, dirs, n + 1, t)
  {
    StillThere(c, dirs, n, t);
    PrunedNext(c, dirs, n, t, t);
  }

  lemma CleanupUnfold(c: Inputs, content: seq<Operation>, vacating: seq<Operation>, dirs: seq<DirRecord>, n: nat)
    requires n < |dirs|
    ensures CleanupOperations(c, content, vacating, dirs[..n + 1]) ==
            CleanedNext(c, content, vacating, CleanupOperations(c, content, vacating, dirs[..n]), dirs[n])
  {
    assert dirs[..n + 1][..n] == dirs[..n];
  }

  /** The cleanups so far applied and dealt with the first `n` directories. */
  ghost predicate Cleared(c: Inputs, base: Tree, dirs: seq<DirRecord>, n: nat, done: seq<Operation>, t: Tree)
    requires Named(c) && n <= |dirs|
  {
    ApplyAll(done, base) == Some(t) && Pruned(c, dirs, n, t) && Handled(c, dirs, n, done)
  }

  /** One directory is kept or removed, in its turn. */
  lemma CleanupStep(c: Inputs, base: Tree, vacating: seq<Operation>, dirs: seq<DirRecord>, n: nat, done: seq<Operation>, s: Tree)
    returns (t: Tree, next: seq<Operation>)
    requires OpenContent(c) && c.options.deletion != Additive && c.target.unsupported == []
    requires Descending(c, dirs) && n < |dirs|
    requires Cleared(c, base, dirs, n, done, s)
    ensures Cleared(c, base, dirs, n + 1, next, t)
    ensures next == CleanedNext(c, Content(c), vacating, done, dirs[n])
  {
    var d := dirs[n];
    if DirKey(c.source, Fold(d.path)) {
      DesiredIsSourceDir(c, Fold(d.path));
      t, next := s, done;
      KeptDirectory(c, dirs, n, s);
    } else {
      AlwaysCleanable(c, dirs, n, done);
      assert d in dirs;
      var op := CleanupOperation(c, vacating, done, d);
      next := done + [op];
      t := CleanupApplies(c, dirs, n, s, op);
      ApplyNext(done, op, base, s, t);
      HandledNext(c, dirs, n, done, op);
    }
  }

  /** All cleanups apply, deepest directories first. */
  lemma CleanupsApply(c: Inputs, base: Tree, vacating: seq<Operation>, dirs: seq<DirRecord>) returns (t: Tree)
    requires OpenContent(c) && c.options.deletion != Additive && c.target.unsupported == []
    requires Descending(c, dirs) && Pruned(c, dirs, 0, base)
    ensures Cleared(c, base, dirs, |dirs|, CleanupOperations(c, Content(c), vacating, dirs), t)
  {
    t := base;
    var n: nat, done := 0, [];
    assert CleanupOperations(c, Content(c), vacating, dirs[..0]) == [];
    while n < |dirs|
      invariant n <= |dirs| && done == CleanupOperations(c, Content(c), vacating, dirs[..n])
      invariant Cleared(c, base, dirs, n, done, t)
    {
      CleanupUnfold(c, Content(c), vacating, dirs, n);
      t, done := CleanupStep(c, base, vacating, dirs, n, done, t);
      n := n + 1;
    }
    assert dirs[..n] == dirs;
  }

  /** Nothing but the source's directories and the delivered files is left. */
  ghost predicate Tidy(c: Inputs, t: Tree)
    requires Named(c)
  {
    && (forall i :: 0 <= i < |Content(c)| ==> Lookup(t, Fold(Content(c)[i].target)) == EffectNode(Content(c)[i]))
    && (forall k :: !FileKey(c.source, k) ==> Lookup(t, k) == if DirKey(c.source, k) then Some(DirNode) else None)
  }

  lemma AllVisited(c: Inputs, dirs: seq<DirRecord>, key: Key)
    requires Descending(c, dirs)
    ensures Kept(c, dirs, |dirs|, key) == if DirKey(c.source, key) then Some(DirNode) else None
  {
    if DirKey(c.target, key) {
      var d :| d in c.target.dirs && d.path != [] && Fold(d.path) == key;
      assert d in dirs;
      var j :| 0 <= j < |dirs| && dirs[j] == d;
    }
  }

  lemma SettledIsPruned(c: Inputs, dirs: seq<DirRecord>, t: Tree)
    requires Named(c) && Settled(c, t)
    ensures Pruned(c, dirs, 0, t)
  {
  }

  lemma CleanupsTidy(c: Inputs, base: Tree) returns (t: Tree)
    requires OpenContent(c) && c.options.deletion != Additive && c.target.unsupported == [] && Settled(c, base)
    ensures ApplyAll(Cleanups(c), base) == Some(t) && Tidy(c, t)
  {
    var dirs := DirsByHeight(c);
    HeightsDescend(c);
    SettledIsPruned(c, dirs, base);
    t := CleanupsApply(c, base, Content(c) + Removals(c), dirs);
    PrunedIsTidy(c, dirs, t);
  }

  lemma PrunedIsTidy(c: Inputs, dirs: seq<DirRecord>, t: Tree)
    requires Named(c) && Descending(c, dirs) && Pruned(c, dirs, |dirs|, t)
    ensures Tidy(c, t)
  {
    forall k | !FileKey(c.source, k)
      ensures Lookup(t, k) == if DirKey(c.source, k) then Some(DirNode) else None
    {
      AllVisited(c, dirs, k);
      assert Lookup(t, k) == Kept(c, dirs, |dirs|, k);
    }
  }
}
