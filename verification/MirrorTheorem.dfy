/** The two promises of the planner: applying a plan makes the target mirror the source, and a
    mirrored target has nothing left to plan. */
module MirrorTheorem {
  import opened Paths
  import opened Model
  import opened Order
  import opened Scans
  import opened Planner
  import opened Mirror
  import opened Convergence
  import opened ContentStage
  import opened CleanupStage

  // ----------------------------------------------------------------- what a mirror is

  ghost predicate Reflects(f: FileRecord, node: Option<Node>, granularity: nat, casing: bool) {
    && node.Some? && node.value.FileNode? && node.value.path != [] && f.path != []
    && MetadataEqual(FileStat(f), node.value.stat, granularity)
    && (casing ==> Last(node.value.path) == Last(f.path))
  }

  /** The tree has the scan's directories, its files up to time granularity, and nothing else. */
  ghost predicate Mirrors(source: Scan, granularity: nat, casing: bool, t: Tree) {
    && (forall k :: Lookup(t, k) == Some(DirNode) <==> DirKey(source, k))
    && (forall k :: k in t && t[k].FileNode? ==> FileKey(source, k))
    && (forall f :: f in source.files ==> Reflects(f, Lookup(t, Fold(f.path)), granularity, casing))
  }

  // ------------------------------------------------------- canonical order is harmless

  lemma CanonicalWellFormed(s: Scan)
    requires WellFormed(s)
    ensures WellFormed(Canonical(s))
  {
    var n := Canonical(s);
    OneEntryPerKey(s);
    SortNoRepeats(s.files, FileByPath);
    SortNoRepeats(s.dirs, DirByDepth);
    forall p | HasDirectory(s, p)
      ensures HasDirectory(n, p)
    {
      var d :| d in s.dirs && d.path == p;
      assert d in n.dirs;
    }
    forall f | f in n.files
      ensures FileWith(n, Fold(f.path)) == Some(f)
    {
      assert FileKey(n, Fold(f.path));
    }
    forall d | d in n.dirs
      ensures DirWith(n, Fold(d.path)) == Some(d) && FileWith(n, Fold(d.path)) == None
    {
      assert exists e :: e in n.dirs && Fold(e.path) == Fold(d.path);
    }
  }

  lemma SameKeys(s: Scan, key: Key)
    ensures FileKey(Canonical(s), key) == FileKey(s, key)
    ensures DirKey(Canonical(s), key) == DirKey(s, key)
  {
  }

  /** A scan shows one tree only. */
  lemma OneTree(s: Scan, t: Tree, u: Tree)
    requires Depicts(s, t) && Depicts(s, u)
    ensures t == u
  {
    forall k
      ensures Lookup(t, k) == Lookup(u, k)
    {
      if FileKey(s, k) {
        var f :| f in s.files && Fold(f.path) == k;
      }
    }
    SameLookups(t, u);
  }

  lemma SameLookups(t: Tree, u: Tree)
    requires forall k :: Lookup(t, k) == Lookup(u, k)
    ensures t == u
  {
    forall k
      ensures k in t <==> k in u
      ensures k in t ==> t[k] == u[k]
    {
      assert Lookup(t, k) == Lookup(u, k);
    }
  }

  lemma CanonicalTree(s: Scan)
    requires WellFormed(s)
    ensures TreeOf(Canonical(s)) == TreeOf(s)
  {
    CanonicalWellFormed(s);
    TreeDepicted(s);
    TreeDepicted(Canonical(s));
    forall k
      ensures DirKey(Canonical(s), k) == DirKey(s, k) && FileKey(Canonical(s), k) == FileKey(s, k)
    {
      SameKeys(s, k);
    }
    OneTree(s, TreeOf(s), TreeOf(Canonical(s)));
  }

  // --------------------------------------------------------------------- convergence

  /** Well-formed, unfiltered scans and an unambiguous correspondence. */
  ghost predicate Clean(c: Inputs) {
    Orderly(c) && NoTwins(c) && DistinctPairs(c) && c.options.deletion != Additive
  }

  lemma CanonicalTwins(c: Inputs)
    requires NoTwins(c)
    ensures NoTwins(Canonicalized(c))
  {
    var n := Canonicalized(c);
    forall f, t | f in n.source.files && t in n.target.files && f.path != [] && t.path != [] && Signature(f.path) == Signature(t.path)
      ensures Fold(f.path) == Fold(t.path)
    {
      assert f in c.source.files && t in c.target.files;
    }
  }

  lemma CanonicalOrderly(c: Inputs)
    requires Orderly(c)
    ensures Orderly(Canonicalized(c))
  {
    CanonicalWellFormed(c.source);
    CanonicalWellFormed(c.target);
  }

  lemma CanonicalClean(c: Inputs)
    requires Clean(c)
    ensures Clean(Canonicalized(c))
  {
    CanonicalOrderly(c);
    CanonicalTwins(c);
  }

  lemma TidyFile(c: Inputs, t: Tree, f: FileRecord)
    requires OpenContent(c) && Tidy(c, t) && f in c.source.files
    ensures Reflects(f, Lookup(t, Fold(f.path)), Granularity(c), c.options.propagateCasing)
  {
    assert f in SourceFiles(c);
    var i :| 0 <= i < |SourceFiles(c)| && SourceFiles(c)[i] == f;
    OperationFacts(c, i);
    FaithfulReflects(c, f, Content(c)[i]);
  }

  lemma FaithfulReflects(c: Inputs, f: FileRecord, op: Operation)
    requires Faithful(c, f, op)
    ensures Reflects(f, EffectNode(op), Granularity(c), c.options.propagateCasing)
  {
  }

  lemma TidyKey(c: Inputs, t: Tree, key: Key)
    requires OpenContent(c) && Tidy(c, t)
    ensures Lookup(t, key) == Some(DirNode) <==> DirKey(c.source, key)
    ensures Lookup(t, key).Some? && Lookup(t, key).value.FileNode? ==> FileKey(c.source, key)
  {
    if FileKey(c.source, key) {
      var f := FileWith(c.source, key).value;
      TidyFile(c, t, f);
      SourceFileIsNotSourceDir(c, f);
    }
  }

  lemma TidyMirrors(c: Inputs, t: Tree)
    requires OpenContent(c) && Tidy(c, t)
    ensures Mirrors(c.source, Granularity(c), c.options.propagateCasing, t)
  {
    forall f | f in c.source.files
      ensures Reflects(f, Lookup(t, Fold(f.path)), Granularity(c), c.options.propagateCasing)
    {
      TidyFile(c, t, f);
    }
    forall k
      ensures Lookup(t, k) == Some(DirNode) <==> DirKey(c.source, k)
      ensures k in t && t[k].FileNode? ==> FileKey(c.source, k)
    {
      TidyKey(c, t, k);
    }
  }

  lemma ArrangedConverges(c: Inputs) returns (t: Tree)
    requires Healthy(c)
    ensures ApplyAll(Arranged(c), TreeOf(c.target)) == Some(t)
    ensures OpenContent(c) && Tidy(c, t)
  {
    Parts(c);
    var d, k, r := Directories(c).ops, Content(c), Removals(c);
    var u, z := UnsupportedOperations(UnsupportedPaths(c)), Cleanups(c);
    NothingUnsupportedPlanned(c);
    var base := TreeOf(c.target);
    var t1 := DirectoriesApply(c);
    var t2 := ContentDelivers(c, t1);
    var t3 := RemovalsSettle(c, t1, t2);
    t := CleanupsTidy(c, t3);
    ApplyAllConcat(d, k, base, t1);
    ApplyAllConcat(d + k, r, base, t2);
    ApplyAllConcat(d + k + r, z, base, t3);
    assert d + k + r + u == d + k + r;
  }

  lemma NothingUnsupportedPlanned(c: Inputs)
    requires c.source.unsupported == [] && c.target.unsupported == []
    ensures UnsupportedOperations(UnsupportedPaths(c)) == []
  {
    var paths := UnsupportedPaths(c);
    SomeMember(paths);
  }

  /** Applying an unblocked plan in order succeeds and yields the mirror. */
  lemma PlanConverges(c: Inputs) returns (t: Tree)
    requires Clean(c) && AllOpen(Plan(c))
    ensures ApplyAll(Plan(c), TreeOf(c.target)) == Some(t)
    ensures Mirrors(c.source, Granularity(c), c.options.propagateCasing, t)
  {
    var n := Canonicalized(c);
    CanonicalClean(c);
    CanonicalTree(c.target);
    t := ArrangedConverges(n);
    TidyMirrors(n, t);
    forall k
      ensures DirKey(n.source, k) == DirKey(c.source, k) && FileKey(n.source, k) == FileKey(c.source, k)
    {
      SameKeys(c.source, k);
    }
  }

  // ----------------------------------------------------------------------- planning again

  /** A later scan of a tree: same entries, with whatever identities and link counts they now have. */
  ghost predicate Shows(s: Scan, t: Tree) {
    && WellFormed(s) && s.unsupported == []
    && (forall k :: Lookup(t, k) == Some(DirNode) <==> DirKey(s, k))
    && (forall k :: k in t && t[k].FileNode? ==> FileKey(s, k))
    && (forall f :: f in s.files ==> f.path != [] && Displays(f, Lookup(t, Fold(f.path))))
  }

  ghost predicate Displays(f: FileRecord, node: Option<Node>) {
    && node.Some? && node.value.FileNode? && f.path != [] && node.value.path != []
    && f.size == node.value.stat.size && f.mtime == node.value.stat.mtime
    && f.metadata.attributes == node.value.stat.metadata.attributes
    && Last(f.path) == Last(node.value.path)
  }

  /** Both sides have the same keys and, if casing is propagated, the same spellings. */
  ghost predicate Aligned(c: Inputs) {
    && c.source.unsupported == [] && c.target.unsupported == []
    && (forall k :: DirKey(c.source, k) <==> DirKey(c.target, k))
    && (forall k :: FileKey(c.target, k) ==> FileKey(c.source, k))
    && (forall f :: f in c.source.files ==> HasCounterpart(c, f))
  }

  ghost predicate HasCounterpart(c: Inputs, f: FileRecord) {
    var found := FileWith(c.target, Fold(f.path));
    && found.Some? && found.value.path != [] && f.path != []
    && (c.options.propagateCasing ==> Last(found.value.path) == Last(f.path))
  }

  /** The counterpart is up to date. */
  ghost predicate Current(c: Inputs, f: FileRecord) {
    && HasCounterpart(c, f)
    && MetadataEqual(FileStat(f), FileStat(FileWith(c.target, Fold(f.path)).value), Granularity(c))
  }

  /** Every source file has its up-to-date counterpart, and neither side has more. */
  ghost predicate InSync(c: Inputs) {
    Aligned(c) && forall f :: f in c.source.files ==> Current(c, f)
  }

  ghost predicate Quiet(ops: seq<Operation>) {
    forall op :: op in ops ==> op.kind == Noop && op.blocked.None?
  }

  lemma {:induction false} NothingToMake(c: Inputs, paths: seq<Path>)
    requires forall i :: 0 <= i < |paths| ==> paths[i] != []
    requires forall p :: p in paths ==> DirsAt(TargetDirs(c), Fold(p)) != []
    ensures MakeDirectories(c, paths) == Made([], map[])
  {
    if paths != [] {
      var n := |paths| - 1;
      assert paths[n] in paths;
      NothingToMake(c, paths[..n]);
    }
  }

  lemma AlignedDirectories(c: Inputs)
    requires Orderly(c) && Aligned(c)
    ensures Directories(c) == Made([], map[])
  {
    RequiredNonEmpty(c);
    var paths := RequiredDirectories(c);
    forall p | p in paths
      ensures DirsAt(TargetDirs(c), Fold(p)) != []
    {
      assert Desired(c, Fold(p));
      DesiredIsSourceDir(c, Fold(p));
      DirsAtKey(c, Fold(p));
    }
    NothingToMake(c, paths);
  }

  lemma {:induction false} NothingCreated(path: Path)
    requires path != []
    ensures NearestCreated(path, map[]) == None
  {
    if |path| > 1 {
      NothingCreated(Parent(path));
    }
  }

  lemma FewerThanTwo<T>(xs: seq<T>, x: T)
    requires NoRepeats(xs)
    ensures |xs| <= 1 || exists y :: y in xs && y != x
  {
    if |xs| > 1 {
      var y := if xs[0] == x then xs[1] else xs[0];
      assert y in xs;
    }
  }

  lemma SourcesAreOne(c: Inputs, f: FileRecord)
    requires Orderly(c) && f in SourceFiles(c)
    ensures FilesAt(SourceFiles(c), Fold(f.path)) == [f]
  {
    OneEntryPerKey(c.source);
    FilterNoRepeats(c.source.files, (f: FileRecord) => !Excludes(c.options, f.path));
    FilterNoRepeats(SourceFiles(c), (g: FileRecord) => Fold(g.path) == Fold(f.path));
    OnlySourceAtKey(c, f);
    FewerThanTwo(FilesAt(SourceFiles(c), Fold(f.path)), f);
  }

  lemma TargetsAreOne(c: Inputs, f: FileRecord)
    requires Orderly(c) && f in c.target.files
    ensures FilesAt(TargetFiles(c), Fold(f.path)) == [f]
  {
    OneEntryPerKey(c.target);
    FilterNoRepeats(c.target.files, (f: FileRecord) => !Excludes(c.options, f.path));
    FilterNoRepeats(TargetFiles(c), (g: FileRecord) => Fold(g.path) == Fold(f.path));
    var files := FilesAt(TargetFiles(c), Fold(f.path));
    assert f in files;
    FewerThanTwo(files, f);
  }

  /** With one record on each side and nothing in the way, the decision is to match them. */
  lemma MatchedDecision(c: Inputs, f: FileRecord, found: FileRecord)
    requires f.path != [] && found.path != []
    ensures Decision(c, f, [f], [found], false, [], None) == MatchedOperation(c, f, f, found, false, [])
  {
  }

  lemma NoDirectoryInTheWay(c: Inputs, key: Key)
    requires Orderly(c) && FileKey(c.target, key)
    ensures DirsAt(TargetDirs(c), key) == []
  {
    DirsAtKey(c, key);
    OneEntryPerKey(c.target);
  }

  /** The operation leaves the counterpart of a file alone when it is up to date, and updates it otherwise. */
  ghost predicate Answers(c: Inputs, op: Operation, f: FileRecord) {
    && op.blocked.None? && op.prior.None? && Fold(op.target) == Fold(f.path)
    && op.kind == if Current(c, f) then Noop else Update
  }

  lemma MatchedAnswers(c: Inputs, f: FileRecord, found: FileRecord)
    requires f.path != [] && found.path != [] && Fold(f.path) == Fold(found.path)
    requires c.options.propagateCasing ==> Last(found.path) == Last(f.path)
    ensures var op := MatchedOperation(c, f, f, found, false, []);
            && op.blocked.None? && op.prior.None? && Fold(op.target) == Fold(f.path)
            && op.kind == if MetadataEqual(FileStat(f), FileStat(found), Granularity(c)) then Noop else Update
  {
  }

  lemma AlignedContent(c: Inputs, f: FileRecord)
    requires Orderly(c) && Aligned(c) && f in SourceFiles(c) && f.path != []
    ensures Answers(c, ContentOperation(c, map[], f), f)
  {
    var key := Fold(f.path);
    assert HasCounterpart(c, f);
    var found := FileWith(c.target, key).value;
    SourcesAreOne(c, f);
    TargetsAreOne(c, found);
    NothingCreated(f.path);
    NoDirectoryInTheWay(c, key);
    MatchedDecision(c, f, found);
    MatchedAnswers(c, f, found);
  }

  lemma {:induction false} NothingExtra(c: Inputs, content: seq<Operation>, files: seq<FileRecord>)
    requires forall f :: f in files ==> Claimed(content, Fold(f.path))
    ensures RemovalOperations(c, content, files) == []
  {
    if files != [] {
      var n := |files| - 1;
      assert files[n] in files;
      NothingExtra(c, content, files[..n]);
    }
  }

  lemma {:induction false} NothingToClean(c: Inputs, content: seq<Operation>, vacating: seq<Operation>, dirs: seq<DirRecord>)
    requires forall d :: d in dirs ==> Desired(c, Fold(d.path))
    ensures CleanupOperations(c, content, vacating, dirs) == []
  {
    if dirs != [] {
      var n := |dirs| - 1;
      assert dirs[n] in dirs;
      NothingToClean(c, content, vacating, dirs[..n]);
    }
  }

  /** One operation per file, in order, each the answer to its file. */
  ghost predicate AllAnswered(c: Inputs, ops: seq<Operation>, files: seq<FileRecord>) {
    |ops| == |files| && forall i :: 0 <= i < |ops| ==> Answers(c, ops[i], files[i])
  }

  lemma AnsweredIsClaimed(c: Inputs, ops: seq<Operation>, files: seq<FileRecord>)
    requires AllAnswered(c, ops, files)
    ensures forall f :: f in files ==> Claimed(ops, Fold(f.path))
  {
    forall f | f in files
      ensures Claimed(ops, Fold(f.path))
    {
      var i :| 0 <= i < |files| && files[i] == f;
      assert Answers(c, ops[i], files[i]);
      assert ops[i] in ops && Claims(ops[i], Fold(f.path));
    }
  }

  lemma AlignedContents(c: Inputs)
    requires Orderly(c) && Aligned(c)
    ensures AllAnswered(c, Content(c), SourceFiles(c))
  {
    AlignedDirectories(c);
    var ops, files := Content(c), SourceFiles(c);
    forall i | 0 <= i < |ops|
      ensures Answers(c, ops[i], files[i])
    {
      assert files[i] in files;
      AlignedContent(c, files[i]);
    }
  }

  lemma AlignedRemovals(c: Inputs)
    requires Orderly(c) && Aligned(c)
    ensures Removals(c) == []
  {
    AlignedContents(c);
    AnsweredIsClaimed(c, Content(c), SourceFiles(c));
    forall f | f in TargetFiles(c)
      ensures Claimed(Content(c), Fold(f.path))
    {
      assert FileKey(c.target, Fold(f.path));
      var g := FileWith(c.source, Fold(f.path)).value;
      assert g in SourceFiles(c);
    }
    NothingExtra(c, Content(c), TargetFiles(c));
  }

  lemma AlignedCleanups(c: Inputs)
    requires Orderly(c) && Aligned(c)
    ensures Cleanups(c) == []
  {
    forall d | d in DirsByHeight(c)
      ensures Desired(c, Fold(d.path))
    {
      assert DirKey(c.target, Fold(d.path));
      DesiredIsSourceDir(c, Fold(d.path));
    }
    NothingToClean(c, Content(c), Content(c) + Removals(c), DirsByHeight(c));
  }

  lemma AlignedArranged(c: Inputs)
    requires Orderly(c) && Aligned(c)
    ensures Arranged(c) == Content(c)
  {
    AlignedDirectories(c);
    AlignedRemovals(c);
    NothingUnsupportedPlanned(c);
    AlignedCleanups(c);
  }

  lemma {:induction false} KeepsAll<T(!new)>(xs: seq<T>, p: T -> bool)
    requires forall x :: x in xs ==> p(x)
    ensures Filter(xs, p) == xs
  {
    if xs != [] {
      var n := |xs| - 1;
      KeepsAll(xs[..n], p);
      assert xs == xs[..n] + [xs[n]];
    }
  }

  lemma CanonicalAligned(c: Inputs)
    requires Orderly(c) && Aligned(c)
    ensures Orderly(Canonicalized(c)) && Aligned(Canonicalized(c))
    ensures forall f :: f in c.source.files ==> Current(Canonicalized(c), f) == Current(c, f)
  {
    var n := Canonicalized(c);
    CanonicalWellFormed(c.source);
    CanonicalWellFormed(c.target);
    OneEntryPerKey(c.target);
    forall k
      ensures DirKey(n.source, k) == DirKey(c.source, k) && DirKey(n.target, k) == DirKey(c.target, k)
      ensures FileKey(n.source, k) == FileKey(c.source, k) && FileKey(n.target, k) == FileKey(c.target, k)
    {
      SameKeys(c.source, k);
      SameKeys(c.target, k);
    }
    forall f | f in c.source.files
      ensures HasCounterpart(n, f) && FileWith(n.target, Fold(f.path)) == FileWith(c.target, Fold(f.path))
    {
      assert HasCounterpart(c, f);
    }
  }

  /** Where both sides have the same keys there is one operation per source file and no other: a
      do-nothing for a file that is up to date and an update for every other. */
  lemma AlignedPlan(c: Inputs)
    requires Orderly(c) && Aligned(c)
    ensures AllAnswered(c, Plan(c), Canonical(c.source).files) && |Plan(c)| == |c.source.files|
  {
    CanonicalAligned(c);
    var n := Canonicalized(c);
    AlignedArranged(n);
    AlignedContents(n);
    KeepsAll(n.source.files, (f: FileRecord) => !Excludes(c.options, f.path));
    forall i | 0 <= i < |Plan(c)|
      ensures Answers(c, Plan(c)[i], n.source.files[i])
    {
      assert n.source.files[i] in n.source.files;
      assert Answers(n, Plan(c)[i], n.source.files[i]);
    }
  }

  /** A target in step with its source has one do-nothing operation per source file, and no other. */
  lemma InSyncIsQuiet(c: Inputs)
    requires Orderly(c) && InSync(c)
    ensures Quiet(Plan(c)) && |Plan(c)| == |c.source.files|
  {
    AlignedPlan(c);
    var ops, files := Plan(c), Canonical(c.source).files;
    forall op | op in ops
      ensures op.kind == Noop && op.blocked.None?
    {
      var i :| 0 <= i < |ops| && ops[i] == op;
      assert files[i] in files;
      assert Answers(c, ops[i], files[i]);
    }
  }

  /** A scan of a mirror is in step with the source. */
  lemma RescanInSync(c: Inputs, t: Tree)
    requires c.source.unsupported == []
    requires Mirrors(c.source, Granularity(c), c.options.propagateCasing, t) && Shows(c.target, t)
    ensures InSync(c)
  {
    forall f | f in c.source.files
      ensures Current(c, f)
    {
      assert Reflects(f, Lookup(t, Fold(f.path)), Granularity(c), c.options.propagateCasing);
      var g := FileWith(c.target, Fold(f.path)).value;
      assert Displays(g, Lookup(t, Fold(g.path)));
    }
    forall k | FileKey(c.target, k)
      ensures FileKey(c.source, k)
    {
      var g := FileWith(c.target, k).value;
      assert Displays(g, Lookup(t, Fold(g.path)));
    }
  }

  /** The inputs of a plan made after a later scan of the target. */
  function Again(c: Inputs, rescan: Scan, mapping: Mapping): Inputs {
    Inputs(c.source, rescan, mapping, c.options)
  }

  lemma AgainOrderly(c: Inputs, rescan: Scan, mapping: Mapping)
    requires Orderly(c) && WellFormed(rescan)
    ensures Orderly(Again(c, rescan, mapping))
  {
  }

  /** Scanning the result of a plan and planning again, with any correspondence, finds nothing to do. */
  lemma ReplanIsQuiet(c: Inputs, t: Tree, rescan: Scan, mapping: Mapping)
    requires Clean(c) && AllOpen(Plan(c)) && ApplyAll(Plan(c), TreeOf(c.target)) == Some(t)
    requires Shows(rescan, t) && rescan.profile.granularity == c.target.profile.granularity
    ensures Named(Again(c, rescan, mapping)) && Quiet(Plan(Again(c, rescan, mapping)))
    ensures |Plan(Again(c, rescan, mapping))| == |c.source.files|
  {
    var u := PlanConverges(c);
    SourceSupported(c);
    AgainOrderly(c, rescan, mapping);
    RescanInSync(Again(c, rescan, mapping), t);
    InSyncIsQuiet(Again(c, rescan, mapping));
  }

  lemma SourceSupported(c: Inputs)
    requires Clean(c) && AllOpen(Plan(c))
    ensures c.source.unsupported == [] && c.target.unsupported == []
  {
    var n := Canonicalized(c);
    CanonicalClean(c);
    Parts(n);
  }

  lemma {:induction false} QuietChangesNothing(ops: seq<Operation>, t: Tree, u: Tree)
    requires Quiet(ops) && ApplyAll(ops, t) == Some(u)
    ensures t == u
  {
    if ops != [] {
      var n := |ops| - 1;
      assert ops[n] in ops;
      QuietChangesNothing(ops[..n], t, ApplyAll(ops[..n], t).value);
    }
  }

  /** The plan is quiet exactly when the target already mirrors the source. */
  lemma QuietExactlyWhenMirrored(c: Inputs)
    requires Clean(c)
    ensures Quiet(Plan(c)) <==>
            && c.source.unsupported == [] && c.target.unsupported == []
            && Mirrors(c.source, Granularity(c), c.options.propagateCasing, TreeOf(c.target))
  {
    if Quiet(Plan(c)) {
      var t := PlanConverges(c);
      SourceSupported(c);
      QuietChangesNothing(Plan(c), TreeOf(c.target), t);
    }
    if && c.source.unsupported == [] && c.target.unsupported == []
       && Mirrors(c.source, Granularity(c), c.options.propagateCasing, TreeOf(c.target))
    {
      MirroredIsInSync(c, TreeOf(c.target));
      InSyncIsQuiet(c);
    }
  }

  lemma MirroredIsInSync(c: Inputs, t: Tree)
    requires Orderly(c) && t == TreeOf(c.target)
    requires c.source.unsupported == [] && c.target.unsupported == []
    requires Mirrors(c.source, Granularity(c), c.options.propagateCasing, t)
    ensures InSync(c)
  {
    TreeIsShown(c.target, t);
    RescanInSync(c, t);
  }

  lemma ShownKey(s: Scan, t: Tree, key: Key)
    requires WellFormed(s) && Depicts(s, t)
    ensures Lookup(t, key) == Some(DirNode) <==> DirKey(s, key)
    ensures key in t && t[key].FileNode? ==> FileKey(s, key)
  {
    if FileKey(s, key) {
      var f := FileWith(s, key).value;
      assert Lookup(t, Fold(f.path)) == Some(FileNode(f.path, FileStat(f)));
    }
  }

  /** A scan shows its own tree. */
  lemma TreeIsShown(s: Scan, t: Tree)
    requires WellFormed(s) && s.unsupported == [] && t == TreeOf(s)
    ensures Shows(s, t)
  {
    TreeDepicted(s);
    forall k
      ensures Lookup(t, k) == Some(DirNode) <==> DirKey(s, k)
      ensures k in t && t[k].FileNode? ==> FileKey(s, k)
    {
      ShownKey(s, t, k);
    }
    forall f | f in s.files
      ensures Displays(f, Lookup(t, Fold(f.path)))
    {
      ShownFile(s, t, f);
    }
  }

  lemma ShownFile(s: Scan, t: Tree, f: FileRecord)
    requires WellFormed(s) && Depicts(s, t) && f in s.files
    ensures Displays(f, Lookup(t, Fold(f.path)))
  {
  }
}
