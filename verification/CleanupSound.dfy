/** A planned directory cleanup is safe: when its dependencies have taken effect the directory is empty. */
module CleanupSound {
  import opened Paths
  import opened Model
  import opened Order
  import opened Scans
  import opened Planner
  import opened Mirror
  import opened Convergence
  import opened MirrorTheorem

  /** An operation that has taken effect removed the entry at a key. */
  ghost predicate Emptied(ops: seq<Operation>, done: set<OpId>, key: Key) {
    exists v :: v in ops && v.id in done && Vacates(v, key)
  }

  predicate Vacates(op: Operation, key: Key) {
    op.blocked.None? && VacatedPath(op).Some? && Fold(VacatedPath(op).value) == key
  }

  predicate Writes(kind: OperationKind) {
    kind !in {Trash, Delete, Noop}
  }

  /** Effects happen in dependency order. */
  ghost predicate Closed(ops: seq<Operation>, done: set<OpId>) {
    forall op, id :: op in ops && op.id in done && id in op.dependencies ==> id in done
  }

  function Vacating(c: Inputs): seq<Operation>
    requires Named(c)
  {
    Content(c) + Removals(c)
  }

  // ------------------------------------------------------------- where cleanups come from

  ghost predicate CleanupOf(c: Inputs, content: seq<Operation>, vacating: seq<Operation>, d: DirRecord, prior: seq<Operation>, op: Operation) {
    Cleanable(c, content, prior, d) && op == CleanupOperation(c, vacating, prior, d)
  }

  lemma {:induction false} CleanupOrigin(c: Inputs, content: seq<Operation>, vacating: seq<Operation>, dirs: seq<DirRecord>, op: Operation)
    returns (d: DirRecord, prior: seq<Operation>)
    requires op in CleanupOperations(c, content, vacating, dirs)
    ensures d in dirs && CleanupOf(c, content, vacating, d, prior, op)
    ensures forall o :: o in prior ==> o in CleanupOperations(c, content, vacating, dirs)
    decreases |dirs|
  {
    var n := |dirs| - 1;
    prior := CleanupOperations(c, content, vacating, dirs[..n]);
    d := dirs[n];
    if op in prior {
      d, prior := CleanupOrigin(c, content, vacating, dirs[..n], op);
    }
  }

  // -------------------------------------------------------------------------- files

  lemma RemovalListed(vacating: seq<Operation>, prior: seq<Operation>, d: DirRecord, v: Operation) returns (w: Operation)
    requires v in vacating && VacatedPath(v).Some? && Fold(d.path) <= Fold(VacatedPath(v).value)
    ensures w in vacating && VacatedPath(w) == VacatedPath(v) && w.id in CleanupDependencies(vacating, prior, d)
  {
    w := RemovalByPath(vacating)[VacatedPath(v).value];
  }

  /** Operations that take a file away are never blocked. */
  ghost predicate Removers(ops: seq<Operation>) {
    forall op :: op in ops && VacatedPath(op).Some? ==> op.blocked.None?
  }

  lemma DecisionRemoves(c: Inputs, item: FileRecord, sources: seq<FileRecord>, targets: seq<FileRecord>, mismatch: bool,
                        dirs: seq<DirRecord>, parent: Option<Operation>)
    requires item.path != [] && sources != [] && (forall t :: t in targets ==> t.path != [])
    ensures var op := Decision(c, item, sources, targets, mismatch, dirs, parent); VacatedPath(op).Some? ==> op.blocked.None?
  {
  }

  lemma ContentRemoves(c: Inputs, created: map<Key, Operation>, item: FileRecord)
    requires Named(c) && item in SourceFiles(c)
    ensures var op := ContentOperation(c, created, item); VacatedPath(op).Some? ==> op.blocked.None?
  {
    var direct, twin := FilesAt(TargetFiles(c), Fold(item.path)), NormalizationTwin(c, item);
    var mismatch := direct == [] && twin.Some?;
    assert item in FilesAt(SourceFiles(c), Fold(item.path));
    DecisionRemoves(c, item, FilesAt(SourceFiles(c), Fold(item.path)), if mismatch then [twin.value] else direct, mismatch,
                    DirsAt(TargetDirs(c), Fold(item.path)), NearestCreated(item.path, created));
  }

  lemma VacatingRemoves(c: Inputs)
    requires Named(c)
    ensures Removers(Vacating(c))
  {
    var content, items := Content(c), SourceFiles(c);
    forall op | op in content && VacatedPath(op).Some?
      ensures op.blocked.None?
    {
      var i :| 0 <= i < |content| && content[i] == op;
      assert items[i] in items;
      ContentRemoves(c, Directories(c).created, items[i]);
    }
  }

  lemma RemovedIsVacated(c: Inputs, content: seq<Operation>, removals: seq<Operation>, f: FileRecord) returns (v: Operation)
    requires removals == RemovalOperations(c, content, TargetFiles(c)) && Removed(c, content, f)
    ensures v in content + removals && VacatedPath(v).Some? && Fold(VacatedPath(v).value) == Fold(f.path)
  {
    if MovedAway(content, Fold(f.path)) {
      v :| v in content && MovesFrom(v, Fold(f.path));
    } else {
      var g :| g in TargetFiles(c) && Fold(g.path) == Fold(f.path) && Extra(c, content, g);
      v := RemovalOperation(c, g);
    }
  }

  lemma FileVacated(c: Inputs, prior: seq<Operation>, d: DirRecord, op: Operation, f: FileRecord) returns (w: Operation)
    requires Named(c) && CleanupOf(c, Content(c), Vacating(c), d, prior, op)
    requires f in c.target.files && Beneath(Fold(f.path), Fold(d.path))
    ensures w in Vacating(c) && w.id in op.dependencies && Vacates(w, Fold(f.path))
  {
    var v := RemovedIsVacated(c, Content(c), Removals(c), f);
    w := RemovalListed(Vacating(c), prior, d, v);
    VacatingRemoves(c);
  }

  // -------------------------------------------------------------------- directories

  lemma RecordedPrefix(s: Scan, e: DirRecord, n: nat) returns (x: DirRecord)
    requires WellFormed(s) && e in s.dirs && 1 <= n <= |e.path|
    ensures x in s.dirs && x.path == e.path[..n]
  {
    if n < |e.path| {
      AncestorsRecorded(s, e.path, n);
      x :| x in s.dirs && x.path == e.path[..n];
    } else {
      x := e;
    }
  }

  /** A directory beneath another by key is beneath it by path. */
  lemma BeneathByPath(s: Scan, d: DirRecord, e: DirRecord)
    requires WellFormed(s) && d in s.dirs && e in s.dirs && d.path != [] && Beneath(Fold(e.path), Fold(d.path))
    ensures Beneath(e.path, d.path)
  {
    var y := RecordedPrefix(s, e, |d.path|);
    FoldPrefix(e.path, |d.path|);
    OneEntryPerKey(s);
    assert Fold(y.path) == Fold(d.path);
  }

  /** The directory directly beneath `d` on the way to `e`. */
  lemma ChildTowards(s: Scan, d: DirRecord, e: DirRecord) returns (x: DirRecord)
    requires WellFormed(s) && d in s.dirs && e in s.dirs && d.path != [] && Beneath(Fold(e.path), Fold(d.path))
    ensures x in s.dirs && |x.path| == |d.path| + 1 && Parent(x.path) == d.path && x.path <= e.path
  {
    BeneathByPath(s, d, e);
    x := RecordedPrefix(s, e, |d.path| + 1);
  }

  lemma CleanupTarget(c: Inputs, content: seq<Operation>, vacating: seq<Operation>, z: Operation, x: DirRecord)
    requires WellFormed(c.target) && x in TargetDirs(c)
    requires z in CleanupOperations(c, content, vacating, DirsByHeight(c)) && Fold(z.target) == Fold(x.path)
    ensures z.target == x.path && z.blocked.None? && VacatedPath(z) == Some(x.path)
  {
    var d, prior := CleanupOrigin(c, content, vacating, DirsByHeight(c), z);
    OneEntryPerKey(c.target);
  }

  ghost predicate NoneDesired(c: Inputs, key: Key) {
    forall e :: e in TargetDirs(c) && Beneath(Fold(e.path), key) ==> !Desired(c, Fold(e.path))
  }

  lemma ChildCleaned(c: Inputs, prior: seq<Operation>, d: DirRecord, op: Operation, x: DirRecord) returns (z: Operation)
    requires Named(c) && WellFormed(c.target) && CleanupOf(c, Content(c), Vacating(c), d, prior, op)
    requires forall o :: o in prior ==> o in Cleanups(c)
    requires x in TargetDirs(c) && |x.path| > 1 && Parent(x.path) == d.path && !Desired(c, Fold(x.path))
    ensures z in Cleanups(c) && z.target == x.path && z.id in op.dependencies && Vacates(z, Fold(x.path))
  {
    assert CleanedUp(prior, Fold(x.path));
    z :| z in prior && Fold(z.target) == Fold(x.path);
    CleanupTarget(c, Content(c), Vacating(c), z, x);
  }

  lemma KeyBeneath(key: Key, x: Path, e: Path)
    requires x < e && Beneath(Fold(x), key)
    ensures Beneath(Fold(e), key) && Beneath(Fold(e), Fold(x))
  {
    FoldPrefix(e, |x|);
    assert x == e[..|x|];
  }

  /** The next cleanup on the way from `op` down to the directory `e`. */
  lemma NextCleaned(c: Inputs, op: Operation, e: DirRecord) returns (z: Operation, x: DirRecord)
    requires Named(c) && WellFormed(c.target) && op in Cleanups(c)
    requires e in TargetDirs(c) && Beneath(Fold(e.path), Fold(op.target)) && NoneDesired(c, Fold(op.target))
    ensures x in TargetDirs(c) && x.path <= e.path && |x.path| == |op.target| + 1 && Beneath(Fold(x.path), Fold(op.target))
    ensures z in Cleanups(c) && z.target == x.path && z.id in op.dependencies && Vacates(z, Fold(x.path))
  {
    var d, prior := CleanupOrigin(c, Content(c), Vacating(c), DirsByHeight(c), op);
    x := ChildTowards(c.target, d, e);
    FoldParent(x.path);
    z := ChildCleaned(c, prior, d, op, x);
  }

  lemma EmptiedBy(ops: seq<Operation>, done: set<OpId>, v: Operation, key: Key)
    requires v in ops && v.id in done && Vacates(v, key)
    ensures Emptied(ops, done, key)
  {
  }

  /** Every directory beneath a cleaned-up one has been cleaned up before it. */
  lemma {:induction false} DirectoryCleaned(c: Inputs, op: Operation, done: set<OpId>, e: DirRecord)
    requires Named(c) && WellFormed(c.target) && op in Cleanups(c)
    requires Closed(Cleanups(c), done) && forall id :: id in op.dependencies ==> id in done
    requires e in TargetDirs(c) && Beneath(Fold(e.path), Fold(op.target)) && NoneDesired(c, Fold(op.target))
    ensures Emptied(Cleanups(c), done, Fold(e.path))
    decreases |e.path| - |op.target|
  {
    var z, x := NextCleaned(c, op, e);
    if x.path == e.path {
      EmptiedBy(Cleanups(c), done, z, Fold(e.path));
    } else {
      KeyBeneath(Fold(op.target), x.path, e.path);
      NoneDesiredDeeper(c, Fold(op.target), Fold(x.path));
      DirectoryCleaned(c, z, done, e);
    }
  }

  lemma NoneDesiredDeeper(c: Inputs, key: Key, inner: Key)
    requires NoneDesired(c, key) && Beneath(inner, key)
    ensures NoneDesired(c, inner)
  {
  }

  // ------------------------------------------------------------------------- writes

  lemma RequiredAncestor(c: Inputs, f: FileRecord, key: Key)
    requires f in SourceFiles(c) && key != [] && Beneath(Fold(f.path), key)
    ensures Desired(c, key)
  {
    var p := f.path[..|key|];
    FoldPrefix(f.path, |key|);
    AncestorIsRequired(c, f, p);
  }

  /** An operation's target lies in a directory with the same key as its source file's. */
  ghost predicate Neighbours(p: Path, q: Path) {
    p != [] && q != [] && Fold(Parent(p)) == Fold(Parent(q))
  }

  lemma NeighboursBeneath(p: Path, q: Path, key: Key)
    requires Neighbours(p, q) && Beneath(Fold(p), key)
    ensures Beneath(Fold(q), key)
  {
    FoldParent(p);
    FoldParent(q);
    assert |Parent(Fold(p))| == |Parent(Fold(q))|;
    assert key <= Parent(Fold(p));
  }

  lemma MatchedNeighbour(c: Inputs, item: FileRecord, record: FileRecord, target: FileRecord, mismatch: bool, dependencies: seq<OpId>)
    requires item.path != [] && target.path != [] && Neighbours(target.path, item.path)
    ensures Neighbours(MatchedOperation(c, item, record, target, mismatch, dependencies).target, item.path)
  {
    var recased := Parent(target.path) + [item.path[|item.path| - 1]];
    assert Parent(recased) == Parent(target.path);
  }

  lemma DecisionNeighbour(c: Inputs, item: FileRecord, sources: seq<FileRecord>, targets: seq<FileRecord>, mismatch: bool,
                          dirs: seq<DirRecord>, parent: Option<Operation>)
    requires item.path != [] && sources != [] && forall t :: t in targets ==> t.path != [] && Neighbours(t.path, item.path)
    ensures Neighbours(Decision(c, item, sources, targets, mismatch, dirs, parent).target, item.path)
  {
    if |targets| == 1 {
      assert targets[0] in targets;
      MatchedNeighbour(c, item, sources[0], targets[0], mismatch, DependsOn(parent));
    }
  }

  lemma SameKeyNeighbours(p: Path, q: Path)
    requires p != [] && Fold(p) == Fold(q)
    ensures q != [] && Neighbours(p, q)
  {
    assert |Fold(p)| == |Fold(q)|;
    FoldParent(p);
    FoldParent(q);
  }

  lemma TwinNeighbour(c: Inputs, item: FileRecord)
    requires item.path != []
    ensures NormalizationTwin(c, item).Some? ==> NormalizationTwin(c, item).value.path != [] && Neighbours(NormalizationTwin(c, item).value.path, item.path)
  {
    if NormalizationTwin(c, item).Some? {
      var targets := Filter(TargetFiles(c), (t: FileRecord) =>
        t.path != [] && FilesAt(SourceFiles(c), Fold(t.path)) == [] && Signature(t.path) == Signature(item.path));
      assert targets[0] in targets;
    }
  }

  lemma ContentNeighbour(c: Inputs, created: map<Key, Operation>, item: FileRecord)
    requires Named(c) && item in SourceFiles(c)
    ensures Neighbours(ContentOperation(c, created, item).target, item.path)
  {
    var direct, twin := FilesAt(TargetFiles(c), Fold(item.path)), NormalizationTwin(c, item);
    var mismatch := direct == [] && twin.Some?;
    var targets := if mismatch then [twin.value] else direct;
    assert item in FilesAt(SourceFiles(c), Fold(item.path));
    TwinNeighbour(c, item);
    forall t | t in direct
      ensures t.path != [] && Neighbours(t.path, item.path)
    {
      SameKeyNeighbours(t.path, item.path);
    }
    DecisionNeighbour(c, item, FilesAt(SourceFiles(c), Fold(item.path)), targets, mismatch,
                      DirsAt(TargetDirs(c), Fold(item.path)), NearestCreated(item.path, created));
  }

  /** No content operation lands beneath a directory that is not wanted. */
  lemma ContentStaysOut(c: Inputs, o: Operation, key: Key)
    requires Named(c) && o in Content(c) && key != [] && !Desired(c, key)
    ensures !Beneath(Fold(o.target), key)
  {
    var content, items := Content(c), SourceFiles(c);
    var i :| 0 <= i < |content| && content[i] == o;
    assert items[i] in items;
    ContentNeighbour(c, Directories(c).created, items[i]);
    if Beneath(Fold(o.target), key) {
      NeighboursBeneath(o.target, items[i].path, key);
      RequiredAncestor(c, items[i], key);
    }
  }

  lemma {:induction false} MkdirsListed(c: Inputs, paths: seq<Path>)
    requires forall i :: 0 <= i < |paths| ==> paths[i] != []
    ensures forall o :: o in MakeDirectories(c, paths).ops ==> o.target in paths && o.kind == Mkdir
    ensures forall p :: p in paths && DirsAt(TargetDirs(c), Fold(p)) == [] ==> exists o :: o in MakeDirectories(c, paths).ops && o.target == p
  {
    if paths != [] {
      var n := |paths| - 1;
      MkdirsListed(c, paths[..n]);
      assert paths == paths[..n] + [paths[n]];
      var made, all := MakeDirectories(c, paths[..n]), MakeDirectories(c, paths);
      if DirsAt(TargetDirs(c), Fold(paths[n])) == [] {
        assert all.ops[|made.ops|].target == paths[n] && all.ops[|made.ops|] in all.ops;
      }
      assert forall o :: o in made.ops ==> o in all.ops;
    }
  }

  // -------------------------------------------------------------------- exact condition

  /** No directory the mirror needs lies beneath a key. */
  predicate NothingWanted(c: Inputs, key: Key) {
    forall p :: p in RequiredDirectories(c) ==> !Beneath(Fold(p), key)
  }

  lemma WantedIsDesired(c: Inputs, key: Key)
    requires NothingWanted(c, key)
    ensures NoneDesired(c, key)
  {
  }

  lemma CleanupFacts(c: Inputs, op: Operation)
    requires Named(c) && op in Cleanups(c)
    ensures op.target != [] && !Desired(c, Fold(op.target)) && op.kind == Delete
  {
    var d, prior := CleanupOrigin(c, Content(c), Vacating(c), DirsByHeight(c), op);
  }

  lemma RemovalsDoNotWrite(c: Inputs, o: Operation)
    requires Named(c) && o in Removals(c)
    ensures !Writes(o.kind)
  {
  }

  lemma UnsupportedDoNotWrite(paths: seq<Path>, o: Operation)
    requires o in UnsupportedOperations(paths)
    ensures !Writes(o.kind)
  {
  }

  lemma PlanWrites(c: Inputs, o: Operation)
    requires Named(c) && o in Arranged(c) && Writes(o.kind)
    ensures o in Directories(c).ops || o in Content(c)
  {
    if o in Cleanups(c) {
      CleanupFacts(c, o);
    } else if o in Removals(c) {
      RemovalsDoNotWrite(c, o);
    } else if o in UnsupportedOperations(UnsupportedPaths(c)) {
      UnsupportedDoNotWrite(UnsupportedPaths(c), o);
    }
  }

  lemma WritesStayOut(c: Inputs, o: Operation, key: Key)
    requires Named(c) && o in Arranged(c) && Writes(o.kind) && key != [] && !Desired(c, key) && NothingWanted(c, key)
    ensures !Beneath(Fold(o.target), key)
  {
    PlanWrites(c, o);
    if o in Content(c) {
      ContentStaysOut(c, o, key);
    } else {
      RequiredNonEmpty(c);
      MkdirsListed(c, RequiredDirectories(c));
    }
  }

  // ------------------------------------------------------------------ well-formed sources

  lemma ExcludesDownward(options: Options, path: Path, n: nat)
    requires n <= |path| && Excludes(options, path[..n])
    ensures Excludes(options, path)
  {
    var m :| 1 <= m <= n && options.matches(Fold(path[..n])[..m]);
    FoldPrefix(path, n);
    assert Fold(path[..n])[..m] == Fold(path)[..m];
  }

  lemma DirectoryPrefixRequired(c: Inputs, d: DirRecord, q: Path)
    requires WellFormed(c.source) && d in c.source.dirs && !Excludes(c.options, d.path) && q != [] && Beneath(d.path, q)
    ensures q in RequiredDirectories(c)
  {
    AncestorsRecorded(c.source, d.path, |q|);
    assert d.path[..|q|] == q;
    var e :| e in c.source.dirs && e.path == q;
    if Excludes(c.options, q) {
      ExcludesDownward(c.options, d.path, |q|);
    }
    assert e in SourceDirs(c);
    DirectoryIsRequired(c, e);
  }

  /** With a well-formed source, what lies above a required directory is required. */
  lemma RequiredPrefix(c: Inputs, p: Path, q: Path)
    requires WellFormed(c.source) && p in RequiredDirectories(c) && q != [] && Beneath(p, q)
    ensures q in RequiredDirectories(c)
  {
    var d, f := RequiredOrigin(c, p);
    if d.Some? {
      DirectoryPrefixRequired(c, d.value, q);
    } else {
      AncestorIsRequired(c, f.value, q);
    }
  }

  lemma WellFormedWants(c: Inputs, key: Key)
    requires WellFormed(c.source) && key != [] && !Desired(c, key)
    ensures NothingWanted(c, key)
  {
    forall p | p in RequiredDirectories(c)
      ensures !Beneath(Fold(p), key)
    {
      if |key| < |p| {
        FoldPrefix(p, |key|);
        RequiredPrefix(c, p, p[..|key|]);
      }
    }
  }

  // ------------------------------------------------------------------------- soundness

  /** Nothing the target scan saw is left beneath a key, and nothing is planned to appear there. */
  ghost predicate Bare(c: Inputs, ops: seq<Operation>, done: set<OpId>, key: Key) {
    && (forall f :: f in c.target.files && Beneath(Fold(f.path), key) ==> !Excludes(c.options, f.path) && Emptied(ops, done, Fold(f.path)))
    && (forall e :: e in c.target.dirs && Beneath(Fold(e.path), key) ==> !Excludes(c.options, e.path) && Emptied(ops, done, Fold(e.path)))
    && (forall p :: p in c.target.unsupported ==> !Beneath(Fold(p), key))
    && (forall o :: o in ops && Writes(o.kind) ==> !Beneath(Fold(o.target), key))
  }

  lemma EmptiedMonotone(part: seq<Operation>, ops: seq<Operation>, done: set<OpId>, key: Key)
    requires Emptied(part, done, key) && forall o :: o in part ==> o in ops
    ensures Emptied(ops, done, key)
  {
    var v :| v in part && v.id in done && Vacates(v, key);
    assert v in ops;
  }

  lemma FileGone(c: Inputs, op: Operation, done: set<OpId>, f: FileRecord)
    requires Named(c) && op in Cleanups(c) && forall id :: id in op.dependencies ==> id in done
    requires f in c.target.files && Beneath(Fold(f.path), Fold(op.target))
    ensures !Excludes(c.options, f.path) && Emptied(Arranged(c), done, Fold(f.path))
  {
    var d, prior := CleanupOrigin(c, Content(c), Vacating(c), DirsByHeight(c), op);
    var w := FileVacated(c, prior, d, op, f);
    assert w in Arranged(c);
  }

  lemma DirectoryGone(c: Inputs, op: Operation, done: set<OpId>, e: DirRecord)
    requires Named(c) && WellFormed(c.target) && op in Cleanups(c) && forall id :: id in op.dependencies ==> id in done
    requires Closed(Cleanups(c), done) && NoneDesired(c, Fold(op.target))
    requires e in c.target.dirs && Beneath(Fold(e.path), Fold(op.target))
    ensures !Excludes(c.options, e.path) && Emptied(Arranged(c), done, Fold(e.path))
  {
    var d, prior := CleanupOrigin(c, Content(c), Vacating(c), DirsByHeight(c), op);
    assert e.path != d.path;
    DirectoryCleaned(c, op, done, e);
    EmptiedMonotone(Cleanups(c), Arranged(c), done, Fold(e.path));
  }

  lemma NothingUnsupportedBeneath(c: Inputs, op: Operation)
    requires Named(c) && op in Cleanups(c)
    ensures forall p :: p in c.target.unsupported ==> !Beneath(Fold(p), Fold(op.target))
  {
    var d, prior := CleanupOrigin(c, Content(c), Vacating(c), DirsByHeight(c), op);
  }

  lemma ArrangedCleanupIsSound(c: Inputs, op: Operation, done: set<OpId>)
    requires Named(c) && WellFormed(c.target) && op in Cleanups(c) && NothingWanted(c, Fold(op.target))
    requires Closed(Cleanups(c), done) && forall id :: id in op.dependencies ==> id in done
    ensures Bare(c, Arranged(c), done, Fold(op.target))
  {
    var key := Fold(op.target);
    WantedIsDesired(c, key);
    forall f | f in c.target.files && Beneath(Fold(f.path), key)
      ensures !Excludes(c.options, f.path) && Emptied(Arranged(c), done, Fold(f.path))
    {
      FileGone(c, op, done, f);
    }
    forall e | e in c.target.dirs && Beneath(Fold(e.path), key)
      ensures !Excludes(c.options, e.path) && Emptied(Arranged(c), done, Fold(e.path))
    {
      DirectoryGone(c, op, done, e);
    }
    NothingUnsupportedBeneath(c, op);
    CleanupFacts(c, op);
    forall o | o in Arranged(c) && Writes(o.kind)
      ensures !Beneath(Fold(o.target), key)
    {
      WritesStayOut(c, o, key);
    }
  }

  /** For well-formed scans, with any filters, policy, correspondence or blocked operations: once the
      dependencies of a planned cleanup have taken effect, no scanned file or directory remains
      beneath it, nothing filtered or unsupported ever was there, and nothing is planned to be
      written there. */
  lemma CleanupIsSound(c: Inputs, op: Operation, done: set<OpId>)
    requires Named(c) && WellFormed(c.source) && WellFormed(c.target) && op in Cleanups(Canonicalized(c))
    requires Closed(Plan(c), done) && forall id :: id in op.dependencies ==> id in done
    ensures op in Plan(c) && Bare(c, Plan(c), done, Fold(op.target))
  {
    var n := Canonicalized(c);
    CanonicalWellFormed(c.source);
    CanonicalWellFormed(c.target);
    CleanupFacts(n, op);
    WellFormedWants(n, Fold(op.target));
    ArrangedCleanupIsSound(n, op, done);
  }

  // ------------------------------------------------------------------------- exactness

  lemma UnmatchedVacates(c: Inputs, item: FileRecord, record: FileRecord, dependencies: seq<OpId>)
    ensures var v := VacatedPath(UnmatchedOperation(c, item, record, dependencies)); v.Some? ==> FilesAt(TargetFiles(c), Fold(v.value)) != []
  {
  }

  lemma MatchedVacates(c: Inputs, item: FileRecord, record: FileRecord, target: FileRecord, mismatch: bool, dependencies: seq<OpId>)
    requires item.path != [] && target.path != []
    ensures VacatedPath(MatchedOperation(c, item, record, target, mismatch, dependencies)) == None
  {
  }

  lemma DecisionVacates(c: Inputs, item: FileRecord, sources: seq<FileRecord>, targets: seq<FileRecord>, mismatch: bool,
                        dirs: seq<DirRecord>, parent: Option<Operation>)
    requires item.path != [] && sources != [] && (forall t :: t in targets ==> t.path != [])
    ensures var v := VacatedPath(Decision(c, item, sources, targets, mismatch, dirs, parent)); v.Some? ==> FilesAt(TargetFiles(c), Fold(v.value)) != []
  {
    if |sources| > 1 || |targets| > 1 || dirs != [] || (parent.Some? && parent.value.blocked.Some?) {
      assert Decision(c, item, sources, targets, mismatch, dirs, parent).kind == Copy;
    } else if targets != [] {
      assert targets[0] in targets;
      MatchedVacates(c, item, sources[0], targets[0], mismatch, DependsOn(parent));
    } else {
      UnmatchedVacates(c, item, sources[0], DependsOn(parent));
    }
  }

  lemma ContentVacates(c: Inputs, created: map<Key, Operation>, item: FileRecord)
    requires Named(c) && item in SourceFiles(c)
    ensures var v := VacatedPath(ContentOperation(c, created, item)); v.Some? ==> FilesAt(TargetFiles(c), Fold(v.value)) != []
  {
    var direct, twin := FilesAt(TargetFiles(c), Fold(item.path)), NormalizationTwin(c, item);
    var mismatch := direct == [] && twin.Some?;
    assert item in FilesAt(SourceFiles(c), Fold(item.path));
    DecisionVacates(c, item, FilesAt(SourceFiles(c), Fold(item.path)), if mismatch then [twin.value] else direct, mismatch,
                    DirsAt(TargetDirs(c), Fold(item.path)), NearestCreated(item.path, created));
  }

  /** Only a file's place is vacated by anything but a cleanup. */
  lemma VacatedIsFile(c: Inputs, v: Operation, key: Key)
    requires Named(c) && v in Arranged(c) && v !in Cleanups(c) && Vacates(v, key)
    ensures FilesAt(TargetFiles(c), key) != []
  {
    if v in Content(c) {
      ContentPartVacates(c, v);
    } else if v in Removals(c) {
      RemovalVacates(c, v, key);
    } else if v in Directories(c).ops {
      RequiredNonEmpty(c);
      MkdirsListed(c, RequiredDirectories(c));
    } else {
      UnsupportedVacates(UnsupportedPaths(c), v);
    }
  }

  lemma ContentPartVacates(c: Inputs, v: Operation)
    requires Named(c) && v in Content(c) && VacatedPath(v).Some?
    ensures FilesAt(TargetFiles(c), Fold(VacatedPath(v).value)) != []
  {
    var content, items := Content(c), SourceFiles(c);
    var i :| 0 <= i < |content| && content[i] == v;
    assert items[i] in items;
    ContentVacates(c, Directories(c).created, items[i]);
  }

  lemma RemovalVacates(c: Inputs, v: Operation, key: Key)
    requires Named(c) && v in Removals(c) && Vacates(v, key)
    ensures FilesAt(TargetFiles(c), key) != []
  {
    var f :| f in TargetFiles(c) && Extra(c, Content(c), f) && v == RemovalOperation(c, f);
    assert f in FilesAt(TargetFiles(c), key);
  }

  lemma UnsupportedVacates(paths: seq<Path>, v: Operation)
    requires v in UnsupportedOperations(paths)
    ensures v.blocked.Some?
  {
    var ops := UnsupportedOperations(paths);
    var i :| 0 <= i < |ops| && ops[i] == v;
  }

  /** A required directory that the target has is never taken away. */
  lemma DesiredStays(c: Inputs, e: DirRecord, done: set<OpId>)
    requires Named(c) && WellFormed(c.target) && e in c.target.dirs && Desired(c, Fold(e.path))
    ensures !Emptied(Arranged(c), done, Fold(e.path))
  {
    forall v | v in Arranged(c)
      ensures !Vacates(v, Fold(e.path))
    {
      if v in Cleanups(c) {
        CleanupFacts(c, v);
      } else if Vacates(v, Fold(e.path)) {
        VacatedIsFile(c, v, Fold(e.path));
        FileAndDirectoryApart(c, e);
      }
    }
  }

  lemma FileAndDirectoryApart(c: Inputs, e: DirRecord)
    requires WellFormed(c.target) && e in c.target.dirs
    ensures FilesAt(TargetFiles(c), Fold(e.path)) == []
  {
    var files := FilesAt(TargetFiles(c), Fold(e.path));
    OneEntryPerKey(c.target);
    SomeMember(files);
  }

  lemma NotBareByDirectory(c: Inputs, ops: seq<Operation>, done: set<OpId>, key: Key, e: DirRecord)
    requires e in c.target.dirs && Beneath(Fold(e.path), key) && !Emptied(ops, done, Fold(e.path))
    ensures !Bare(c, ops, done, key)
  {
  }

  lemma NotBareByWrite(c: Inputs, ops: seq<Operation>, done: set<OpId>, key: Key, o: Operation)
    requires o in ops && Writes(o.kind) && Beneath(Fold(o.target), key)
    ensures !Bare(c, ops, done, key)
  {
  }

  lemma MissingIsMade(c: Inputs, p: Path) returns (o: Operation)
    requires Named(c) && p in RequiredDirectories(c) && DirsAt(TargetDirs(c), Fold(p)) == []
    ensures o in Arranged(c) && o.target == p && o.kind == Mkdir
  {
    RequiredNonEmpty(c);
    MkdirsListed(c, RequiredDirectories(c));
    o :| o in Directories(c).ops && o.target == p;
  }

  lemma FoundIsRecorded(c: Inputs, key: Key) returns (e: DirRecord)
    requires DirsAt(TargetDirs(c), key) != []
    ensures e in c.target.dirs && Fold(e.path) == key
  {
    var dirs := DirsAt(TargetDirs(c), key);
    e := dirs[0];
    assert e in dirs;
  }

  /** A required directory beneath a key keeps it from ever being bare. */
  lemma WantedIsNotBare(c: Inputs, done: set<OpId>, key: Key, p: Path)
    requires Named(c) && WellFormed(c.target) && p in RequiredDirectories(c) && Beneath(Fold(p), key)
    ensures !Bare(c, Arranged(c), done, key)
  {
    if DirsAt(TargetDirs(c), Fold(p)) != [] {
      var e := FoundIsRecorded(c, Fold(p));
      assert Desired(c, Fold(e.path));
      DesiredStays(c, e, done);
      NotBareByDirectory(c, Arranged(c), done, key, e);
    } else {
      var o := MissingIsMade(c, p);
      NotBareByWrite(c, Arranged(c), done, key, o);
    }
  }

  lemma CanonicalRequires(c: Inputs, p: Path)
    ensures p in RequiredDirectories(Canonicalized(c)) <==> p in RequiredDirectories(c)
  {
    RequiredCarriesOver(c, Canonicalized(c), p);
    RequiredCarriesOver(Canonicalized(c), c, p);
  }

  lemma RequiredCarriesOver(c: Inputs, n: Inputs, p: Path)
    requires n.options == c.options
    requires (forall d :: d in c.source.dirs ==> d in n.source.dirs) && (forall f :: f in c.source.files ==> f in n.source.files)
    ensures p in RequiredDirectories(c) ==> p in RequiredDirectories(n)
  {
    if p in RequiredDirectories(c) {
      var d, f := RequiredOrigin(c, p);
      if d.Some? {
        assert d.value in SourceDirs(n);
        DirectoryIsRequired(n, d.value);
      } else {
        AncestorIsRequired(n, f.value, p);
      }
    }
  }

  /** For a well-formed target and any source, filters, policy or correspondence: once the dependencies of
      a planned cleanup have taken effect, nothing is or will be beneath it if and only if no required
      directory lies beneath it. */
  lemma CleanupExactly(c: Inputs, op: Operation, done: set<OpId>)
    requires Named(c) && WellFormed(c.target) && op in Cleanups(Canonicalized(c))
    requires Closed(Plan(c), done) && forall id :: id in op.dependencies ==> id in done
    ensures op in Plan(c) && (Bare(c, Plan(c), done, Fold(op.target)) <==> NothingWanted(c, Fold(op.target)))
  {
    var n, key := Canonicalized(c), Fold(op.target);
    CanonicalWellFormed(c.target);
    forall p
      ensures p in RequiredDirectories(n) <==> p in RequiredDirectories(c)
    {
      CanonicalRequires(c, p);
    }
    if NothingWanted(c, key) {
      ArrangedCleanupIsSound(n, op, done);
    } else {
      var p :| p in RequiredDirectories(n) && Beneath(Fold(p), key);
      WantedIsNotBare(n, done, key, p);
    }
    SameBareness(c, Plan(c), done, key);
  }

  /** What is bare does not depend on the order of the scan. */
  lemma SameBareness(c: Inputs, ops: seq<Operation>, done: set<OpId>, key: Key)
    ensures Bare(Canonicalized(c), ops, done, key) <==> Bare(c, ops, done, key)
  {
    var n := Canonicalized(c);
    assert forall f :: f in n.target.files <==> f in c.target.files;
    assert forall e :: e in n.target.dirs <==> e in c.target.dirs;
    assert forall p :: p in n.target.unsupported <==> p in c.target.unsupported;
  }

  /** Without the source's parent directories a cleanup can be planned for a directory the plan
      still needs: whatever has taken effect, it is not bare. */
  lemma OrphanDirectoryIsStranded() returns (c: Inputs, op: Operation)
    ensures Named(c) && WellFormed(c.target) && op in Plan(c) && op in Cleanups(Canonicalized(c)) && op.kind == Delete
    ensures forall done :: !Bare(c, Plan(c), done, Fold(op.target))
    ensures forall d :: d in c.source.dirs ==> |d.path| == 2
  {
    var a, b := Name("a", "A", "a"), Name("b", "B", "b");
    var profile := Profile(0, false, false);
    var plain := Metadata(Attributes(false, false, false, 0), None);
    var outer, inner := DirRecord([a], 0, plain, None, 1), DirRecord([a, b], 0, plain, None, 1);
    c := Inputs(Scan([], [inner], [], profile, None), Scan([], [outer, inner], [], profile, None), Mapping(None, None, [], {}, {}, {}), Options(TrashExtras, true, false, (k: Key) => false));
    NestedPairWellFormed(c.target, outer, inner);
    op := StrandedPlan(c, outer, inner);
  }

  lemma StrandedPlan(c: Inputs, outer: DirRecord, inner: DirRecord) returns (op: Operation)
    requires Stranded(c, outer, inner) && WellFormed(c.target)
    ensures Named(c) && op in Plan(c) && op in Cleanups(Canonicalized(c)) && op.kind == Delete
    ensures forall done :: !Bare(c, Plan(c), done, Fold(op.target))
  {
    var n := Canonicalized(c);
    CanonicalWellFormed(c.target);
    op := StrandedCleanup(n, outer, inner);
    CleanupFacts(n, op);
    forall done
      ensures !Bare(c, Plan(c), done, Fold(op.target))
    {
      WantedIsNotBare(n, done, Fold(op.target), inner.path);
      SameBareness(c, Plan(c), done, Fold(op.target));
    }
  }

  lemma ListedNow(c: Inputs, content: seq<Operation>, vacating: seq<Operation>, done: seq<Operation>, d: DirRecord)
    requires Cleanable(c, content, done, d)
    ensures CleanedUp(CleanedNext(c, content, vacating, done, d), Fold(d.path))
  {
    var next := CleanedNext(c, content, vacating, done, d);
    assert next[|done|].target == d.path && next[|done|] in next;
  }

  lemma NestedPairWellFormed(s: Scan, outer: DirRecord, inner: DirRecord)
    requires s.files == [] && s.dirs == [outer, inner]
    requires |outer.path| == 1 && |inner.path| == 2 && Parent(inner.path) == outer.path
    ensures WellFormed(s)
  {
    forall d | d in s.dirs
      ensures DirWith(s, Fold(d.path)) == Some(d)
    {
      var found := DirWith(s, Fold(d.path));
      assert exists e :: e in s.dirs && Fold(e.path) == Fold(d.path);
      assert |Fold(found.value.path)| == |Fold(d.path)|;
    }
    assert outer in s.dirs;
  }

  lemma OnlyInnerWanted(c: Inputs, inner: DirRecord, p: Path)
    requires (forall f :: f !in c.source.files) && (forall d :: d in c.source.dirs <==> d == inner)
    requires inner.path != [] && !Excludes(c.options, inner.path)
    ensures p in RequiredDirectories(c) <==> p == inner.path
  {
    assert inner in c.source.dirs;
    DirectoryIsRequired(c, inner);
    if p in RequiredDirectories(c) {
      var d, f := RequiredOrigin(c, p);
    }
  }

  /** The target has a directory and one inside it; the source lists only the inner one. */
  ghost predicate Stranded(c: Inputs, outer: DirRecord, inner: DirRecord) {
    && (forall f :: f !in c.source.files && f !in c.target.files)
    && (forall d :: d in c.source.dirs <==> d == inner)
    && (forall d :: d in c.target.dirs <==> d == outer || d == inner)
    && (forall p :: p !in c.target.unsupported) && c.options.deletion == TrashExtras
    && (forall k :: !c.options.matches(k))
    && |outer.path| == 1 && |inner.path| == 2 && Parent(inner.path) == outer.path
  }

  lemma OuterIsFree(c: Inputs, outer: DirRecord, inner: DirRecord, content: seq<Operation>, prior: seq<Operation>)
    requires Stranded(c, outer, inner)
    ensures Cleanable(c, content, prior, outer) && inner.path in RequiredDirectories(c)
  {
    OnlyInnerWanted(c, inner, inner.path);
    forall p | p in RequiredDirectories(c)
      ensures p == inner.path
    {
      OnlyInnerWanted(c, inner, p);
    }
    assert Desired(c, Fold(inner.path));
    assert |Fold(outer.path)| == 1 && |Fold(inner.path)| == 2;
  }

  lemma {:induction false} OuterListed(c: Inputs, outer: DirRecord, inner: DirRecord, content: seq<Operation>, vacating: seq<Operation>, dirs: seq<DirRecord>)
    requires Stranded(c, outer, inner) && outer in dirs
    ensures CleanedUp(CleanupOperations(c, content, vacating, dirs), Fold(outer.path))
  {
    var n := |dirs| - 1;
    var done := CleanupOperations(c, content, vacating, dirs[..n]);
    CleanupLast(c, content, vacating, dirs);
    if dirs[n] == outer {
      OuterIsFree(c, outer, inner, content, done);
      ListedNow(c, content, vacating, done, outer);
    } else {
      OuterListed(c, outer, inner, content, vacating, dirs[..n]);
      StillCleaned(c, content, vacating, done, dirs[n], Fold(outer.path));
    }
  }

  lemma CleanupLast(c: Inputs, content: seq<Operation>, vacating: seq<Operation>, dirs: seq<DirRecord>)
    requires dirs != []
    ensures var n := |dirs| - 1;
            CleanupOperations(c, content, vacating, dirs) == CleanedNext(c, content, vacating, CleanupOperations(c, content, vacating, dirs[..n]), dirs[n])
  {
  }

  lemma StillCleaned(c: Inputs, content: seq<Operation>, vacating: seq<Operation>, done: seq<Operation>, d: DirRecord, key: Key)
    requires CleanedUp(done, key)
    ensures CleanedUp(CleanedNext(c, content, vacating, done, d), key)
  {
    var op :| op in done && Fold(op.target) == key;
    assert op in CleanedNext(c, content, vacating, done, d);
  }

  lemma StrandedCleanup(c: Inputs, outer: DirRecord, inner: DirRecord) returns (op: Operation)
    requires Stranded(c, outer, inner) && WellFormed(c.target)
    ensures Named(c) && op in Cleanups(c) && inner.path in RequiredDirectories(c) && Beneath(Fold(inner.path), Fold(op.target))
  {
    assert outer in c.target.dirs && outer in TargetDirs(c);
    OuterListed(c, outer, inner, Content(c), Vacating(c), DirsByHeight(c));
    op :| op in Cleanups(c) && Fold(op.target) == Fold(outer.path);
    OuterIsFree(c, outer, inner, Content(c), []);
    FoldParent(inner.path);
  }
}
