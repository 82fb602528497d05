/** The proof that an unblocked plan converges, part of the plan by part. */
module Convergence {
  import opened Paths
  import opened Model
  import opened Order
  import opened Scans
  import opened Planner
  import opened Mirror

  /** No filter hides an entry. */
  ghost predicate Unfiltered(c: Inputs) {
    forall p :: !Excludes(c.options, p)
  }

  /** No source and target file names differ only in Unicode normalization. */
  ghost predicate NoTwins(c: Inputs) {
    forall f, t :: f in c.source.files && t in c.target.files && f.path != [] && t.path != [] && Signature(f.path) == Signature(t.path)
      ==> Fold(f.path) == Fold(t.path)
  }

  /** Recorded pairs have distinct targets. */
  ghost predicate DistinctPairs(c: Inputs) {
    && NoRepeats(c.mapping.pairs)
    && forall p, q :: p in c.mapping.pairs && q in c.mapping.pairs && Fold(p.target) == Fold(q.target) ==> p == q
  }

  ghost predicate AllOpen(ops: seq<Operation>) {
    forall op :: op in ops ==> op.blocked.None?
  }

  ghost predicate Orderly(c: Inputs) {
    Named(c) && WellFormed(c.source) && WellFormed(c.target) && Unfiltered(c)
  }

  /** What convergence is promised for. */
  ghost predicate Healthy(c: Inputs) {
    && Orderly(c) && NoTwins(c) && DistinctPairs(c)
    && c.options.deletion != Additive
    && AllOpen(Arranged(c))
  }

  lemma Parts(c: Inputs)
    requires Healthy(c)
    ensures AllOpen(Directories(c).ops) && AllOpen(Content(c))
    ensures c.source.unsupported == [] && c.target.unsupported == []
  {
    var ops := Arranged(c);
    assert forall op :: op in Directories(c).ops ==> op in ops;
    assert forall op :: op in Content(c) ==> op in ops;
    assert forall op :: op in UnsupportedOperations(UnsupportedPaths(c)) ==> op in ops;
    NothingUnsupported(c);
  }

  lemma SomeMember<T>(xs: seq<T>)
    ensures xs == [] || exists x :: x in xs
  {
    if xs != [] {
      assert xs[0] in xs;
    }
  }

  lemma UnsupportedAreBlocked(paths: seq<Path>)
    requires paths != []
    ensures !AllOpen(UnsupportedOperations(paths))
  {
    var ops := UnsupportedOperations(paths);
    assert ops[0] in ops && ops[0].blocked.Some?;
  }

  lemma NothingUnsupported(c: Inputs)
    requires Unfiltered(c) && AllOpen(UnsupportedOperations(UnsupportedPaths(c)))
    ensures c.source.unsupported == [] && c.target.unsupported == []
  {
    var paths := UnsupportedPaths(c);
    if paths != [] {
      UnsupportedAreBlocked(paths);
    }
    var all := c.source.unsupported + c.target.unsupported;
    assert forall p :: p in all ==> p in paths;
    SomeMember(all);
    assert |all| == 0;
  }

  // ------------------------------------------------------------- required directories

  /** Every proper ancestor of a recorded entry is recorded. */
  lemma {:induction false} AncestorsRecorded(s: Scan, path: Path, n: nat)
    requires WellFormed(s) && 1 <= n < |path|
    requires HasDirectory(s, Parent(path))
    ensures HasDirectory(s, path[..n])
    decreases |path|
  {
    var parent := Parent(path);
    if n == |path| - 1 {
      assert path[..n] == parent;
    } else {
      AncestorsRecorded(s, parent, n);
      assert parent[..n] == path[..n];
    }
  }

  lemma PrefixRecorded(s: Scan, f: FileRecord, p: Path)
    requires WellFormed(s) && f in s.files && p != [] && Beneath(f.path, p)
    ensures HasDirectory(s, p)
  {
    AncestorsRecorded(s, f.path, |p|);
    assert f.path[..|p|] == p;
  }

  lemma RequiredIsRecorded(c: Inputs, p: Path)
    requires Orderly(c) && p in RequiredDirectories(c)
    ensures p != [] && HasDirectory(c.source, p)
  {
    var d, f := RequiredOrigin(c, p);
    if d.None? {
      PrefixRecorded(c.source, f.value, p);
    }
  }

  lemma RecordedIsRequired(c: Inputs, p: Path)
    requires Orderly(c) && p != [] && HasDirectory(c.source, p)
    ensures p in RequiredDirectories(c)
  {
    var d :| d in c.source.dirs && d.path == p;
    assert d in SourceDirs(c);
    DirectoryIsRequired(c, d);
  }

  /** Required directories are exactly the source's. */
  lemma DesiredIsSourceDir(c: Inputs, key: Key)
    requires Orderly(c)
    ensures Desired(c, key) <==> DirKey(c.source, key)
  {
    if Desired(c, key) {
      var p :| p in RequiredDirectories(c) && Fold(p) == key;
      RequiredIsRecorded(c, p);
    }
    if DirKey(c.source, key) {
      var d :| d in c.source.dirs && d.path != [] && Fold(d.path) == key;
      RecordedIsRequired(c, d.path);
    }
  }

  lemma RequiredOrdered(c: Inputs)
    ensures NoRepeats(RequiredDirectories(c))
    ensures forall i, j :: 0 <= i < j < |RequiredDirectories(c)| ==> |RequiredDirectories(c)[i]| <= |RequiredDirectories(c)[j]|
  {
    var all := Deduplicated(DirPaths(SourceDirs(c)) + AllAncestors(SourceFiles(c)));
    SortNoRepeats(all, ByDepth);
    SortBySorted(all, ByDepth);
  }

  lemma RequiredKeysDistinct(c: Inputs, p: Path, q: Path)
    requires Orderly(c) && p in RequiredDirectories(c) && q in RequiredDirectories(c) && Fold(p) == Fold(q)
    ensures p == q
  {
    RequiredIsRecorded(c, p);
    RequiredIsRecorded(c, q);
    OneEntryPerKey(c.source);
  }

  lemma RequiredParent(c: Inputs, p: Path)
    requires Orderly(c) && p in RequiredDirectories(c) && |p| > 1
    ensures Parent(p) in RequiredDirectories(c)
  {
    RequiredIsRecorded(c, p);
    RecordedIsRequired(c, Parent(p));
  }

  // ---------------------------------------------------------------- making directories

  /** The directories of `paths` have been added to a base tree. */
  ghost predicate DirsStage(base: Tree, paths: seq<Path>, t: Tree) {
    forall k :: Lookup(t, k) == Added(base, paths, k)
  }

  ghost function Added(base: Tree, paths: seq<Path>, key: Key): Option<Node> {
    if InKeys(paths, key) then Some(DirNode) else Lookup(base, key)
  }

  ghost predicate InKeys(paths: seq<Path>, key: Key) {
    exists i :: 0 <= i < |paths| && Fold(paths[i]) == key
  }

  lemma InKeysNext(paths: seq<Path>, n: nat, key: Key)
    requires n < |paths|
    ensures InKeys(paths[..n + 1], key) <==> InKeys(paths[..n], key) || Fold(paths[n]) == key
  {
    var small, large := paths[..n], paths[..n + 1];
    if InKeys(small, key) {
      var i :| 0 <= i < |small| && Fold(small[i]) == key;
      assert large[i] == small[i];
    }
    if Fold(paths[n]) == key {
      assert large[n] == paths[n];
    }
    if InKeys(large, key) && Fold(paths[n]) != key {
      var i :| 0 <= i < |large| && Fold(large[i]) == key;
      assert small[i] == large[i];
    }
  }

  lemma {:induction false} MadePrefix(c: Inputs, paths: seq<Path>, n: nat)
    requires (forall i :: 0 <= i < |paths| ==> paths[i] != []) && n <= |paths|
    ensures MakeDirectories(c, paths[..n]).ops <= MakeDirectories(c, paths).ops
    decreases |paths| - n
  {
    if n < |paths| {
      assert paths[..n + 1][..n] == paths[..n];
      MadePrefix(c, paths, n + 1);
    } else {
      assert paths[..n] == paths;
    }
  }

  /** The target's own entry at a key: a directory, or nothing. */
  lemma TargetSlot(c: Inputs, key: Key)
    requires Orderly(c)
    requires DirsAt(TargetDirs(c), key) != [] || FilesAt(TargetFiles(c), key) == []
    ensures Lookup(TreeOf(c.target), key) == if DirsAt(TargetDirs(c), key) != [] then Some(DirNode) else None
  {
    TreeDepicted(c.target);
    DirsAtKey(c, key);
    FilesAtKey(c, key);
  }

  lemma DirsAtKey(c: Inputs, key: Key)
    requires Orderly(c)
    ensures DirsAt(TargetDirs(c), key) != [] <==> DirKey(c.target, key)
  {
    var dirs := DirsAt(TargetDirs(c), key);
    assert dirs != [] ==> dirs[0] in dirs;
    assert forall d :: d in c.target.dirs && d.path != [] && Fold(d.path) == key ==> d in dirs;
  }

  lemma FilesAtKey(c: Inputs, key: Key)
    requires Unfiltered(c)
    ensures FilesAt(TargetFiles(c), key) != [] <==> FileKey(c.target, key)
  {
    var files := FilesAt(TargetFiles(c), key);
    assert files != [] ==> files[0] in files;
    assert forall f :: f in c.target.files && Fold(f.path) == key ==> f in files;
  }

  lemma SourcesAtKey(c: Inputs, key: Key)
    requires Unfiltered(c)
    ensures FilesAt(SourceFiles(c), key) != [] <==> FileKey(c.source, key)
  {
    var sources := FilesAt(SourceFiles(c), key);
    assert sources != [] ==> sources[0] in sources;
    assert forall f :: f in c.source.files && Fold(f.path) == key ==> f in sources;
  }

  /** What the list of required paths owes the base tree: no file in the way, parents first. */
  ghost predicate Buildable(c: Inputs, base: Tree, paths: seq<Path>, n: nat)
    requires n < |paths|
  {
    && paths[n] != []
    && !InKeys(paths[..n], Fold(paths[n]))
    && (|paths[n]| > 1 ==> InKeys(paths[..n], Parent(Fold(paths[n]))))
    && (Lookup(base, Fold(paths[n])) == if DirsAt(TargetDirs(c), Fold(paths[n])) != [] then Some(DirNode) else None)
  }

  /** One directory creation applies. */
  lemma MakeDirectoryApplies(c: Inputs, base: Tree, paths: seq<Path>, n: nat, made: Made, t: Tree) returns (u: Tree, next: Made)
    requires n < |paths| && Buildable(c, base, paths, n)
    requires DirsStage(base, paths[..n], t) && ApplyAll(made.ops, base) == Some(t)
    requires DirsAt(TargetDirs(c), Fold(paths[n])) == [] ==> MkdirOperation(c, paths[n], made.created).blocked.None?
    ensures DirsStage(base, paths[..n + 1], u) && ApplyAll(next.ops, base) == Some(u)
    ensures next == MadeNext(c, made, paths[n])
  {
    var key := Fold(paths[n]);
    assert Lookup(t, key) == Added(base, paths[..n], key);
    if DirsAt(TargetDirs(c), key) != [] {
      u, next := t, made;
    } else {
      var op := MkdirOperation(c, paths[n], made.created);
      next := Made(made.ops + [op], made.created[key := op]);
      if |key| > 1 {
        assert Lookup(t, Parent(key)) == Added(base, paths[..n], Parent(key));
      }
      u := t[key := DirNode];
      assert Apply(op, t) == Some(u);
      ApplyNext(made.ops, op, base, t, u);
    }
    forall k
      ensures Lookup(u, k) == Added(base, paths[..n + 1], k)
    {
      InKeysNext(paths, n, k);
      assert Lookup(t, k) == Added(base, paths[..n], k);
    }
  }

  lemma MadeUnfold(c: Inputs, paths: seq<Path>, n: nat)
    requires n < |paths| && forall i :: 0 <= i < |paths| ==> paths[i] != []
    ensures MakeDirectories(c, paths[..n + 1]) == MadeNext(c, MakeDirectories(c, paths[..n]), paths[n])
  {
    assert paths[..n + 1][..n] == paths[..n];
  }

  /** All directory creations apply, in order. */
  lemma {:induction false} MakeDirectoriesApply(c: Inputs, base: Tree, paths: seq<Path>, n: nat) returns (t: Tree)
    requires n <= |paths| && forall i :: 0 <= i < |paths| ==> paths[i] != []
    requires forall i :: 0 <= i < |paths| ==> Buildable(c, base, paths, i)
    requires AllOpen(MakeDirectories(c, paths).ops)
    ensures DirsStage(base, paths[..n], t)
    ensures ApplyAll(MakeDirectories(c, paths[..n]).ops, base) == Some(t)
  {
    if n == 0 {
      t := base;
      assert paths[..0] == [];
    } else {
      var s := MakeDirectoriesApply(c, base, paths, n - 1);
      var made := MakeDirectories(c, paths[..n - 1]);
      MkdirIsOpen(c, paths, n - 1);
      var next;
      t, next := MakeDirectoryApplies(c, base, paths, n - 1, made, s);
      MadeUnfold(c, paths, n - 1);
    }
  }

  lemma MkdirIsOpen(c: Inputs, paths: seq<Path>, n: nat)
    requires n < |paths| && forall i :: 0 <= i < |paths| ==> paths[i] != []
    requires AllOpen(MakeDirectories(c, paths).ops)
    ensures DirsAt(TargetDirs(c), Fold(paths[n])) == [] ==>
              MkdirOperation(c, paths[n], MakeDirectories(c, paths[..n]).created).blocked.None?
  {
    if DirsAt(TargetDirs(c), Fold(paths[n])) == [] {
      var made := MakeDirectories(c, paths[..n]);
      var op := MkdirOperation(c, paths[n], made.created);
      assert paths[..n + 1][..n] == paths[..n];
      var next := MakeDirectories(c, paths[..n + 1]).ops;
      assert next == made.ops + [op];
      MadePrefix(c, paths, n + 1);
      assert op == next[|next| - 1] == MakeDirectories(c, paths).ops[|next| - 1];
      assert op in MakeDirectories(c, paths).ops;
    }
  }

  /** An unblocked creation means that no target file is in the way. */
  lemma OpenMeansFree(c: Inputs, path: Path, created: map<Key, Operation>)
    requires path != [] && MkdirOperation(c, path, created).blocked.None?
    ensures FilesAt(TargetFiles(c), Fold(path)) == []
  {
  }

  lemma EarlierParent(paths: seq<Path>, n: nat)
    requires n < |paths| && |paths[n]| > 1 && Parent(paths[n]) in paths
    requires forall i, j :: 0 <= i < j < |paths| ==> |paths[i]| <= |paths[j]|
    ensures InKeys(paths[..n], Parent(Fold(paths[n])))
  {
    var j :| 0 <= j < |paths| && paths[j] == Parent(paths[n]);
    assert j < n && paths[..n][j] == Parent(paths[n]);
    FoldParent(paths[n]);
  }

  lemma RequiredBuildable(c: Inputs, paths: seq<Path>, n: nat)
    requires Orderly(c) && paths == RequiredDirectories(c) && n < |paths|
    requires forall i :: 0 <= i < |paths| ==> paths[i] != []
    requires AllOpen(MakeDirectories(c, paths).ops)
    ensures Buildable(c, TreeOf(c.target), paths, n)
  {
    var path := paths[n];
    KeyIsNew(c, paths, n);
    if |path| > 1 {
      assert path in paths;
      RequiredParent(c, path);
      RequiredOrdered(c);
      EarlierParent(paths, n);
    }
    SlotIsFree(c, paths, n);
  }

  lemma SlotIsFree(c: Inputs, paths: seq<Path>, n: nat)
    requires Orderly(c) && n < |paths| && AllPathsNamed(paths) && AllOpen(MakeDirectories(c, paths).ops)
    ensures Lookup(TreeOf(c.target), Fold(paths[n])) == if DirsAt(TargetDirs(c), Fold(paths[n])) != [] then Some(DirNode) else None
  {
    MkdirIsOpen(c, paths, n);
    if DirsAt(TargetDirs(c), Fold(paths[n])) == [] {
      OpenMeansFree(c, paths[n], MakeDirectories(c, paths[..n]).created);
    }
    TargetSlot(c, Fold(paths[n]));
  }

  ghost predicate AllPathsNamed(paths: seq<Path>) {
    forall i :: 0 <= i < |paths| ==> paths[i] != []
  }

  lemma KeyIsNew(c: Inputs, paths: seq<Path>, n: nat)
    requires Orderly(c) && paths == RequiredDirectories(c) && n < |paths|
    ensures !InKeys(paths[..n], Fold(paths[n]))
  {
    RequiredOrdered(c);
    forall i | 0 <= i < n
      ensures Fold(paths[i]) != Fold(paths[n])
    {
      assert paths[i] in paths && paths[n] in paths;
      if Fold(paths[i]) == Fold(paths[n]) {
        RequiredKeysDistinct(c, paths[i], paths[n]);
      }
    }
  }

  /** After the directory part the target has all the source's directories besides its own entries. */
  lemma DirectoriesApply(c: Inputs) returns (t: Tree)
    requires Orderly(c) && AllOpen(Directories(c).ops)
    ensures ApplyAll(Directories(c).ops, TreeOf(c.target)) == Some(t)
    ensures forall k :: Lookup(t, k) == if DirKey(c.source, k) then Some(DirNode) else Lookup(TreeOf(c.target), k)
  {
    RequiredNonEmpty(c);
    var paths, base := RequiredDirectories(c), TreeOf(c.target);
    forall i | 0 <= i < |paths|
      ensures Buildable(c, base, paths, i)
    {
      RequiredBuildable(c, paths, i);
    }
    t := MakeDirectoriesApply(c, base, paths, |paths|);
    assert paths[..|paths|] == paths;
    forall k
      ensures Lookup(t, k) == if DirKey(c.source, k) then Some(DirNode) else Lookup(base, k)
    {
      DesiredIsSourceDir(c, k);
      assert InKeys(paths, k) <==> Desired(c, k);
      assert Lookup(t, k) == Added(base, paths, k);
    }
  }
}
