/** What filters do to a plan: filtered entries are left alone, everything else is accounted for. */
module Filters {
  import opened Paths
  import opened Model
  import opened Scans
  import opened Planner
  import opened CleanupSound
  import opened Selection
  import opened Pipeline

  /** No path of the operation is filtered. */
  predicate Spares(options: Options, op: Operation) {
    && !Excludes(options, op.target)
    && (op.source.Some? ==> !Excludes(options, op.source.value))
    && (op.prior.Some? ==> !Excludes(options, op.prior.value))
  }

  lemma SameKeySameFate(options: Options, a: Path, b: Path)
    requires Fold(a) == Fold(b)
    ensures Excludes(options, a) == Excludes(options, b)
  {
    assert |a| == |Fold(a)| == |b|;
  }

  lemma AncestorShows(options: Options, path: Path, p: Path)
    requires !Excludes(options, path) && p <= path
    ensures !Excludes(options, p)
  {
    assert p == path[..|p|];
    if Excludes(options, p) {
      ExcludesDownward(options, path, |p|);
    }
  }

  lemma VisibleAt(c: Inputs, key: Key)
    ensures forall f :: f in FilesAt(SourceFiles(c), key) || f in FilesAt(TargetFiles(c), key) ==> !Excludes(c.options, f.path) && Fold(f.path) == key
  {
  }

  // --------------------------------------------------------------------- directories

  lemma RequiredShows(c: Inputs, p: Path)
    requires p in RequiredDirectories(c)
    ensures !Excludes(c.options, p)
  {
    var d, f := RequiredOrigin(c, p);
    if d.None? {
      AncestorShows(c.options, f.value.path, p);
    }
  }

  lemma MkdirSpares(c: Inputs, path: Path, created: map<Key, Operation>)
    requires path in RequiredDirectories(c) && path != []
    ensures Spares(c.options, MkdirOperation(c, path, created))
  {
    RequiredShows(c, path);
    var candidates := DirsAt(SourceDirs(c), Fold(path));
    if |candidates| == 1 {
      assert candidates[0] in candidates;
      SameKeySameFate(c.options, path, candidates[0].path);
    }
  }

  lemma {:induction false} MkdirsSpare(c: Inputs, paths: seq<Path>)
    requires forall i :: 0 <= i < |paths| ==> paths[i] != [] && paths[i] in RequiredDirectories(c)
    ensures forall op :: op in MakeDirectories(c, paths).ops ==> Spares(c.options, op)
  {
    if paths != [] {
      var n := |paths| - 1;
      MkdirsSpare(c, paths[..n]);
      MkdirSpares(c, paths[n], MakeDirectories(c, paths[..n]).created);
    }
  }

  lemma DirectoriesSpare(c: Inputs)
    ensures forall op :: op in Directories(c).ops ==> Spares(c.options, op)
  {
    RequiredNonEmpty(c);
    assert forall i :: 0 <= i < |RequiredDirectories(c)| ==> RequiredDirectories(c)[i] in RequiredDirectories(c);
    MkdirsSpare(c, RequiredDirectories(c));
  }

  // ------------------------------------------------------------------------- content

  lemma RecasedKey(item: Path, target: Path)
    requires item != [] && Fold(item) == Fold(target)
    ensures Fold(Parent(target) + [item[|item| - 1]]) == Fold(target)
  {
    var n := |item| - 1;
    assert item[n].fold == Fold(item)[n] == Fold(target)[n] == target[n].fold;
  }

  /** An operation on a matched file keeps to the keys of the two files. */
  lemma MatchedKeys(c: Inputs, item: FileRecord, record: FileRecord, target: FileRecord, mismatch: bool, dependencies: seq<OpId>)
    requires item.path != [] && target.path != [] && (mismatch || Fold(item.path) == Fold(target.path))
    ensures var op := MatchedOperation(c, item, record, target, mismatch, dependencies);
            && Fold(op.target) == Fold(target.path) && op.source == Some(record.path)
            && (op.prior.Some? ==> op.prior.value == target.path)
  {
    if !mismatch {
      RecasedKey(item.path, target.path);
    }
  }

  lemma UnmatchedKeys(c: Inputs, item: FileRecord, record: FileRecord, dependencies: seq<OpId>)
    ensures var op := UnmatchedOperation(c, item, record, dependencies);
            && op.target == item.path && op.source == Some(record.path)
            && (op.prior.Some? ==> !Excludes(c.options, op.prior.value))
  {
    var move := MovePair(c, record);
    if move.Some? {
      var key := Fold(move.value.0.target);
      var found := FilesAt(TargetFiles(c), key);
      assert found[0] in found;
      SameKeySameFate(c.options, move.value.0.target, found[0].path);
    }
  }

  lemma DecisionSpares(c: Inputs, item: FileRecord, sources: seq<FileRecord>, targets: seq<FileRecord>, mismatch: bool,
                       dirs: seq<DirRecord>, parent: Option<Operation>)
    requires item.path != [] && !Excludes(c.options, item.path)
    requires sources != [] && forall f :: f in sources ==> !Excludes(c.options, f.path)
    requires forall t :: t in targets ==> t.path != [] && !Excludes(c.options, t.path) && (mismatch || Fold(item.path) == Fold(t.path))
    ensures var op := Decision(c, item, sources, targets, mismatch, dirs, parent);
            Spares(c.options, op) && op.source == Some(sources[0].path)
  {
    var op := Decision(c, item, sources, targets, mismatch, dirs, parent);
    assert sources[0] in sources;
    if |sources| > 1 || |targets| > 1 || dirs != [] || (parent.Some? && parent.value.blocked.Some?) {
      assert op.target == item.path && op.source == Some(sources[0].path) && op.prior.None?;
    } else if targets != [] {
      assert targets[0] in targets;
      MatchedKeys(c, item, sources[0], targets[0], mismatch, DependsOn(parent));
      SameKeySameFate(c.options, op.target, targets[0].path);
    } else {
      UnmatchedKeys(c, item, sources[0], DependsOn(parent));
    }
  }

  /** The operation for a source file: it reads a file of the same key, and touches nothing filtered. */
  lemma ContentSpares(c: Inputs, created: map<Key, Operation>, item: FileRecord)
    requires Named(c) && item in SourceFiles(c)
    ensures var op := ContentOperation(c, created, item);
            Spares(c.options, op) && op.source.Some? && Fold(op.source.value) == Fold(item.path)
  {
    var key := Fold(item.path);
    var direct, twin := FilesAt(TargetFiles(c), key), NormalizationTwin(c, item);
    var mismatch := direct == [] && twin.Some?;
    var sources := FilesAt(SourceFiles(c), key);
    assert item in sources && sources[0] in sources;
    TwinIsTarget(c, item);
    VisibleAt(c, key);
    DecisionSpares(c, item, sources, if mismatch then [twin.value] else direct, mismatch,
                   DirsAt(TargetDirs(c), key), NearestCreated(item.path, created));
  }

  lemma ContentsSpare(c: Inputs)
    requires Named(c)
    ensures forall op :: op in Content(c) ==> Spares(c.options, op)
  {
    var content, items := Content(c), SourceFiles(c);
    forall op | op in content
      ensures Spares(c.options, op)
    {
      var i :| 0 <= i < |content| && content[i] == op;
      assert items[i] in items;
      ContentSpares(c, Directories(c).created, items[i]);
    }
  }

  // ---------------------------------------------------------------------- whole plans

  lemma UnsupportedSpare(c: Inputs)
    ensures forall op :: op in UnsupportedOperations(UnsupportedPaths(c)) ==> Spares(c.options, op)
  {
    var paths := UnsupportedPaths(c);
    var ops := UnsupportedOperations(paths);
    forall op | op in ops
      ensures Spares(c.options, op)
    {
      var i :| 0 <= i < |ops| && ops[i] == op;
      assert paths[i] in paths;
    }
  }

  lemma CleanupsSpare(c: Inputs)
    requires Named(c)
    ensures forall op :: op in Cleanups(c) ==> Spares(c.options, op)
  {
    forall op | op in Cleanups(c)
      ensures Spares(c.options, op)
    {
      var d, prior := CleanupOrigin(c, Content(c), Vacating(c), DirsByHeight(c), op);
    }
  }

  /** No operation of a plan reads, writes or takes away anything filtered, whatever the scans, the
      correspondence and the policy. */
  lemma FilteredIsLeftAlone(c: Inputs, op: Operation)
    requires Named(c) && op in Plan(c)
    ensures Spares(c.options, op)
  {
    CanonicalNamed(c);
    var n := Canonicalized(c);
    DirectoriesSpare(n);
    ContentsSpare(n);
    UnsupportedSpare(n);
    CleanupsSpare(n);
    if op in Removals(n) {
      var f :| f in TargetFiles(n) && Extra(n, Content(n), f) && op == RemovalOperation(n, f);
    }
  }

  /** Every source file that is not filtered is read by an operation. */
  lemma SourceIsPlanned(c: Inputs, f: FileRecord) returns (op: Operation)
    requires Named(c) && f in c.source.files && !Excludes(c.options, f.path)
    ensures op in Plan(c) && op.source.Some? && Fold(op.source.value) == Fold(f.path)
    ensures op.kind in {Copy, Update, Move, MoveUpdate, Recase, Noop}
  {
    CanonicalNamed(c);
    var n := Canonicalized(c);
    var i :| 0 <= i < |SourceFiles(n)| && SourceFiles(n)[i] == f;
    op := Content(n)[i];
    ContentSpares(n, Directories(n).created, f);
    ContentKind(n, Directories(n).created, f);
  }

  lemma ContentKind(c: Inputs, created: map<Key, Operation>, item: FileRecord)
    requires Named(c) && item in SourceFiles(c)
    ensures ContentOperation(c, created, item).kind in {Copy, Update, Move, MoveUpdate, Recase, Noop}
  {
    var direct, twin := FilesAt(TargetFiles(c), Fold(item.path)), NormalizationTwin(c, item);
    var mismatch := direct == [] && twin.Some?;
    assert item in FilesAt(SourceFiles(c), Fold(item.path));
    DecisionKind(c, item, FilesAt(SourceFiles(c), Fold(item.path)), if mismatch then [twin.value] else direct, mismatch,
                 DirsAt(TargetDirs(c), Fold(item.path)), NearestCreated(item.path, created));
  }

  lemma DecisionKind(c: Inputs, item: FileRecord, sources: seq<FileRecord>, targets: seq<FileRecord>, mismatch: bool,
                     dirs: seq<DirRecord>, parent: Option<Operation>)
    requires item.path != [] && sources != [] && (forall t :: t in targets ==> t.path != [])
    ensures Decision(c, item, sources, targets, mismatch, dirs, parent).kind in {Copy, Update, Move, MoveUpdate, Recase, Noop}
  {
    if |sources| > 1 || |targets| > 1 || dirs != [] || (parent.Some? && parent.value.blocked.Some?) {
      assert Decision(c, item, sources, targets, mismatch, dirs, parent).kind == Copy;
    } else if targets != [] {
      assert targets[0] in targets;
      MatchedKind(c, item, sources[0], targets[0], mismatch, DependsOn(parent));
    } else {
      UnmatchedKind(c, item, sources[0], DependsOn(parent));
    }
  }

  lemma MatchedKind(c: Inputs, item: FileRecord, record: FileRecord, target: FileRecord, mismatch: bool, dependencies: seq<OpId>)
    requires item.path != [] && target.path != []
    ensures MatchedOperation(c, item, record, target, mismatch, dependencies).kind in {Update, Recase, Noop}
  {
  }

  lemma UnmatchedKind(c: Inputs, item: FileRecord, record: FileRecord, dependencies: seq<OpId>)
    ensures UnmatchedOperation(c, item, record, dependencies).kind in {Copy, Move, MoveUpdate}
  {
  }

  /** The operation is about this key. */
  predicate About(op: Operation, key: Key) {
    Fold(op.target) == key || (op.prior.Some? && Fold(op.prior.value) == key)
  }

  /** Unless the policy is additive, every target file that is not filtered is accounted for. */
  lemma TargetIsPlanned(c: Inputs, f: FileRecord) returns (op: Operation)
    requires Named(c) && f in c.target.files && !Excludes(c.options, f.path) && c.options.deletion != Additive
    ensures op in Plan(c) && About(op, Fold(f.path))
  {
    CanonicalNamed(c);
    var n := Canonicalized(c);
    var key := Fold(f.path);
    assert f in TargetFiles(n);
    if Claimed(Content(n), key) {
      op :| op in Content(n) && Claims(op, key);
    } else if MovedAway(Content(n), key) {
      op :| op in Content(n) && MovesFrom(op, key);
    } else {
      op := RemovalOperation(n, f);
      assert Extra(n, Content(n), f);
    }
  }

  predicate Unsupported(c: Inputs, path: Path) {
    (path in c.source.unsupported || path in c.target.unsupported) && !Excludes(c.options, path)
  }

  /** An entry that the program does not support, on either side, is planned as blocked, so that nothing is
      done at or beneath it; nothing else is planned as unsupported. */
  lemma UnsupportedExactly(c: Inputs, path: Path)
    requires Named(c)
    ensures Unsupported(c, path) <==> exists op :: op in Plan(c) && op.target == path && op.blocked == Some(BlockedUnsupported)
  {
    CanonicalNamed(c);
    var n := Canonicalized(c);
    ListedExactly(n, path);
    assert Unsupported(n, path) <==> Unsupported(c, path);
    if Unsupported(c, path) {
      var op :| op in UnsupportedOperations(UnsupportedPaths(n)) && op.target == path && op.blocked == Some(BlockedUnsupported);
      assert op in Plan(c);
    }
    if op :| op in Plan(c) && op.target == path && op.blocked == Some(BlockedUnsupported) {
      OnlyUnsupported(n, op);
    }
  }

  lemma ListedExactly(c: Inputs, path: Path)
    ensures Unsupported(c, path) <==> exists op :: op in UnsupportedOperations(UnsupportedPaths(c)) && op.target == path && op.blocked == Some(BlockedUnsupported)
  {
    var paths := UnsupportedPaths(c);
    var ops := UnsupportedOperations(paths);
    if Unsupported(c, path) {
      assert path in paths;
      var i :| 0 <= i < |paths| && paths[i] == path;
      assert ops[i] in ops;
    }
    if op :| op in ops && op.target == path {
      var i :| 0 <= i < |ops| && ops[i] == op;
      assert paths[i] in paths;
    }
  }

  lemma {:induction false} MkdirsSupported(c: Inputs, paths: seq<Path>)
    requires forall i :: 0 <= i < |paths| ==> paths[i] != []
    ensures forall op :: op in MakeDirectories(c, paths).ops ==> op.blocked != Some(BlockedUnsupported)
  {
    if paths != [] {
      MkdirsSupported(c, paths[..|paths| - 1]);
    }
  }

  lemma MatchedSupported(c: Inputs, item: FileRecord, record: FileRecord, target: FileRecord, mismatch: bool, dependencies: seq<OpId>)
    requires item.path != [] && target.path != []
    ensures MatchedOperation(c, item, record, target, mismatch, dependencies).blocked.None?
  {
  }

  lemma UnmatchedSupported(c: Inputs, item: FileRecord, record: FileRecord, dependencies: seq<OpId>)
    ensures UnmatchedOperation(c, item, record, dependencies).blocked.None?
  {
  }

  lemma DecisionSupported(c: Inputs, item: FileRecord, sources: seq<FileRecord>, targets: seq<FileRecord>, mismatch: bool,
                          dirs: seq<DirRecord>, parent: Option<Operation>)
    requires item.path != [] && sources != [] && (forall t :: t in targets ==> t.path != [])
    ensures Decision(c, item, sources, targets, mismatch, dirs, parent).blocked != Some(BlockedUnsupported)
  {
    if |sources| > 1 || |targets| > 1 || dirs != [] || (parent.Some? && parent.value.blocked.Some?) {
      assert Decision(c, item, sources, targets, mismatch, dirs, parent).blocked in {Some(BlockedCaseCollision), Some(BlockedTypeCollision), Some(BlockedDependency)};
    } else if targets != [] {
      assert targets[0] in targets;
      MatchedSupported(c, item, sources[0], targets[0], mismatch, DependsOn(parent));
    } else {
      UnmatchedSupported(c, item, sources[0], DependsOn(parent));
    }
  }

  lemma ItemSupported(c: Inputs, created: map<Key, Operation>, item: FileRecord)
    requires Named(c) && item in SourceFiles(c)
    ensures ContentOperation(c, created, item).blocked != Some(BlockedUnsupported)
  {
    var direct, twin := FilesAt(TargetFiles(c), Fold(item.path)), NormalizationTwin(c, item);
    var mismatch := direct == [] && twin.Some?;
    assert item in FilesAt(SourceFiles(c), Fold(item.path));
    DecisionSupported(c, item, FilesAt(SourceFiles(c), Fold(item.path)), if mismatch then [twin.value] else direct, mismatch,
                      DirsAt(TargetDirs(c), Fold(item.path)), NearestCreated(item.path, created));
  }

  lemma ContentSupported(c: Inputs, op: Operation)
    requires Named(c) && op in Content(c)
    ensures op.blocked != Some(BlockedUnsupported)
  {
    var i :| 0 <= i < |Content(c)| && Content(c)[i] == op;
    assert SourceFiles(c)[i] in SourceFiles(c);
    ItemSupported(c, Directories(c).created, SourceFiles(c)[i]);
  }

  lemma RemovalsSupported(c: Inputs, op: Operation)
    requires Named(c) && (op in Removals(c) || op in Cleanups(c))
    ensures op.blocked.None?
  {
    if op in Removals(c) {
      var f :| f in TargetFiles(c) && Extra(c, Content(c), f) && op == RemovalOperation(c, f);
    } else {
      var d, prior := CleanupOrigin(c, Content(c), Vacating(c), DirsByHeight(c), op);
    }
  }

  lemma OnlyUnsupported(c: Inputs, op: Operation)
    requires Named(c) && op in Arranged(c) && op.blocked == Some(BlockedUnsupported)
    ensures op in UnsupportedOperations(UnsupportedPaths(c))
  {
    RequiredNonEmpty(c);
    MkdirsSupported(c, RequiredDirectories(c));
    if op in Content(c) {
      ContentSupported(c, op);
    }
    if op in Removals(c) || op in Cleanups(c) {
      RemovalsSupported(c, op);
    }
  }

  /** Every source directory that is not filtered is there already or planned. */
  lemma DirectoryIsPlanned(c: Inputs, d: DirRecord)
    requires Named(c) && d in c.source.dirs && d.path != [] && !Excludes(c.options, d.path)
    ensures (exists e :: e in c.target.dirs && Fold(e.path) == Fold(d.path)) || (exists op :: op in Plan(c) && op.kind == Mkdir && op.target == d.path)
  {
    CanonicalNamed(c);
    var n := Canonicalized(c);
    assert d in SourceDirs(n);
    DirectoryIsRequired(n, d);
    RequiredNonEmpty(n);
    MkdirsListed(n, RequiredDirectories(n));
    var there := DirsAt(TargetDirs(n), Fold(d.path));
    if there != [] {
      assert there[0] in there && there[0] in c.target.dirs;
    } else {
      var op :| op in Directories(n).ops && op.target == d.path;
      assert op in Plan(c);
    }
  }

  // ------------------------------------------------------------------------ removals

  /** Where the target has a file of the same key, the operation keeps to that key. */
  lemma ContentClaims(c: Inputs, created: map<Key, Operation>, item: FileRecord)
    requires Named(c) && item in SourceFiles(c) && FilesAt(TargetFiles(c), Fold(item.path)) != []
    ensures Fold(ContentOperation(c, created, item).target) == Fold(item.path)
  {
    var key := Fold(item.path);
    var targets, sources := FilesAt(TargetFiles(c), key), FilesAt(SourceFiles(c), key);
    assert item in sources && targets[0] in targets;
    MatchedKeys(c, item, sources[0], targets[0], false, DependsOn(NearestCreated(item.path, created)));
  }

  lemma OwnRegion(ops: seq<Operation>, b: Operation, op: Operation)
    requires b in ops && b.blocked.Some? && op.blocked.None? && Fold(b.target) == Fold(op.target)
    ensures Quarantined(ops, op)
  {
    assert Text(b.target) in BlockedTargets(ops);
    assert SameOrDescendant(Text(op.target), Text(b.target));
  }

  /** What an operation of a plan that is not quarantined removes as an extra is a target file that no
      unfiltered source file stands for. */
  lemma RemovedIsExtra(c: Inputs, op: Operation) returns (g: FileRecord)
    requires Named(c) && op in Plan(c) && op.kind in {Trash, Delete} && op.reason == TargetOnly && !Quarantined(Plan(c), op)
    ensures g in c.target.files && g.path == op.target && op.targetExpected == Some(FileStat(g)) && !Excludes(c.options, g.path)
    ensures forall f :: f in c.source.files && Fold(f.path) == Fold(op.target) ==> Excludes(c.options, f.path)
  {
    CanonicalNamed(c);
    var n := Canonicalized(c);
    RemovalIsListed(n, op);
    g :| g in TargetFiles(n) && Extra(n, Content(n), g) && op == RemovalOperation(n, g);
    forall f | f in c.source.files && Fold(f.path) == Fold(op.target)
      ensures Excludes(c.options, f.path)
    {
      if !Excludes(c.options, f.path) {
        assert g in FilesAt(TargetFiles(n), Fold(f.path));
        var i :| 0 <= i < |SourceFiles(n)| && SourceFiles(n)[i] == f;
        var o := Content(n)[i];
        ContentClaims(n, Directories(n).created, f);
        assert o in Content(n) && !Claims(o, Fold(g.path));
        OwnRegion(Plan(c), o, op);
      }
    }
  }

  lemma RemovalIsListed(c: Inputs, op: Operation)
    requires Named(c) && op in Arranged(c) && op.kind in {Trash, Delete} && op.reason == TargetOnly
    ensures op in Removals(c)
  {
    RequiredNonEmpty(c);
    MkdirsListed(c, RequiredDirectories(c));
    if op in Content(c) {
      ContentObeys(c, op);
    } else if op in Cleanups(c) {
      var d, prior := CleanupOrigin(c, Content(c), Vacating(c), DirsByHeight(c), op);
    }
  }
}
