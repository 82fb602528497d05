/** From two scans to an execution set: planned operations are fit to be selected and executed. */
module Pipeline {
  import opened Paths
  import opened Model
  import opened Order
  import opened Scans
  import opened Planner
  import opened Constructible
  import opened Convergence
  import opened CleanupSound
  import opened Effects
  import opened Safety
  import opened Selection
  import opened Quarantine
  import opened Run

  // ------------------------------------------------------------------- shapes of operations

  /** Unblocked: has the evidence and the shape the executor relies on.  Files are only deleted outright when the
      policy says so. */
  ghost predicate Fit(c: Inputs, op: Operation) {
    (op.blocked.None? ==> Shaped(op) && Complete(op)) && (RemovesFile(op) ==> c.options.deletion == Scans.Mirror)
  }

  ghost predicate AllFit(c: Inputs, ops: seq<Operation>) {
    forall op :: op in ops ==> Fit(c, op)
  }

  /** Operations that may run carry the evidence their kind needs. */
  predicate AllComplete(ops: seq<Operation>) {
    forall op :: op in ops && op.blocked.None? ==> Complete(op)
  }

  lemma MatchedFit(c: Inputs, item: FileRecord, record: FileRecord, target: FileRecord, mismatch: bool, dependencies: seq<OpId>)
    requires item.path != [] && target.path != [] && (mismatch || Fold(item.path) == Fold(target.path))
    ensures Fit(c, MatchedOperation(c, item, record, target, mismatch, dependencies))
  {
    if !mismatch {
      var n := |target.path| - 1;
      assert item.path[n].fold == Fold(item.path)[n] == target.path[n].fold;
      assert Fold(Parent(target.path) + [item.path[n]]) == Fold(target.path);
    }
  }

  lemma UnmatchedFit(c: Inputs, item: FileRecord, record: FileRecord, dependencies: seq<OpId>)
    ensures Fit(c, UnmatchedOperation(c, item, record, dependencies))
  {
  }

  lemma DecisionFit(c: Inputs, item: FileRecord, sources: seq<FileRecord>, targets: seq<FileRecord>, mismatch: bool,
                    dirs: seq<DirRecord>, parent: Option<Operation>)
    requires item.path != [] && sources != [] && (forall t :: t in targets ==> t.path != [] && (mismatch || Fold(item.path) == Fold(t.path)))
    ensures Fit(c, Decision(c, item, sources, targets, mismatch, dirs, parent))
  {
    var op := Decision(c, item, sources, targets, mismatch, dirs, parent);
    if |sources| > 1 || |targets| > 1 || dirs != [] || (parent.Some? && parent.value.blocked.Some?) {
      assert op.kind == Copy && op.blocked.Some?;
    } else if targets != [] {
      assert targets[0] in targets;
      MatchedFit(c, item, sources[0], targets[0], mismatch, DependsOn(parent));
    } else {
      UnmatchedFit(c, item, sources[0], DependsOn(parent));
    }
  }

  lemma ContentFit(c: Inputs, created: map<Key, Operation>, item: FileRecord)
    requires Named(c) && item in SourceFiles(c)
    ensures Fit(c, ContentOperation(c, created, item))
  {
    var direct, twin := FilesAt(TargetFiles(c), Fold(item.path)), NormalizationTwin(c, item);
    var mismatch := direct == [] && twin.Some?;
    assert item in FilesAt(SourceFiles(c), Fold(item.path));
    DecisionFit(c, item, FilesAt(SourceFiles(c), Fold(item.path)), if mismatch then [twin.value] else direct, mismatch,
                DirsAt(TargetDirs(c), Fold(item.path)), NearestCreated(item.path, created));
  }

  lemma ContentsFit(c: Inputs)
    requires Named(c)
    ensures AllFit(c, Content(c))
  {
    var content, items := Content(c), SourceFiles(c);
    forall op | op in content
      ensures Fit(c, op)
    {
      var i :| 0 <= i < |content| && content[i] == op;
      assert items[i] in items;
      ContentFit(c, Directories(c).created, items[i]);
    }
  }

  lemma CleanupFit(c: Inputs, vacating: seq<Operation>, prior: seq<Operation>, d: DirRecord)
    ensures Fit(c, CleanupOperation(c, vacating, prior, d))
  {
  }

  lemma CleanupsFit(c: Inputs)
    requires Named(c)
    ensures AllFit(c, Cleanups(c))
  {
    forall op | op in Cleanups(c)
      ensures Fit(c, op)
    {
      var d, prior := CleanupOrigin(c, Content(c), Vacating(c), DirsByHeight(c), op);
      CleanupFit(c, Vacating(c), prior, d);
    }
  }

  lemma {:induction false} MkdirsFit(c: Inputs, paths: seq<Path>)
    requires forall i :: 0 <= i < |paths| ==> paths[i] != []
    ensures AllFit(c, MakeDirectories(c, paths).ops)
  {
    if paths != [] {
      var n := |paths| - 1;
      MkdirsFit(c, paths[..n]);
      MkdirFit(c, paths[n], MakeDirectories(c, paths[..n]).created);
    }
  }

  lemma MkdirFit(c: Inputs, path: Path, created: map<Key, Operation>)
    requires path != []
    ensures Fit(c, MkdirOperation(c, path, created))
  {
  }

  lemma RemovalFit(c: Inputs, f: FileRecord)
    requires c.options.deletion != Additive
    ensures Fit(c, RemovalOperation(c, f))
  {
  }

  lemma DirectoriesFit(c: Inputs)
    ensures AllFit(c, Directories(c).ops)
  {
    RequiredNonEmpty(c);
    MkdirsFit(c, RequiredDirectories(c));
  }

  lemma RemovalsFit(c: Inputs)
    requires Named(c)
    ensures AllFit(c, Removals(c))
  {
    forall op | op in Removals(c)
      ensures Fit(c, op)
    {
      var f :| f in TargetFiles(c) && Extra(c, Content(c), f) && op == RemovalOperation(c, f);
      RemovalFit(c, f);
    }
  }

  lemma FitConcat(c: Inputs, a: seq<Operation>, b: seq<Operation>)
    requires AllFit(c, a) && AllFit(c, b)
    ensures AllFit(c, a + b)
  {
  }

  lemma ArrangedFit(c: Inputs)
    requires Named(c)
    ensures AllFit(c, Arranged(c))
  {
    var d, k, r := Directories(c).ops, Content(c), Removals(c);
    var u, z := UnsupportedOperations(UnsupportedPaths(c)), Cleanups(c);
    DirectoriesFit(c);
    ContentsFit(c);
    RemovalsFit(c);
    CleanupsFit(c);
    FitConcat(c, d, k);
    FitConcat(c, d + k, r);
    FitConcat(c, d + k + r, u);
    FitConcat(c, d + k + r + u, z);
  }

  /** Every plan can be handed to the executor, and no plan but one of the delete policy destroys
      file content when updates go through the trash. */
  lemma PlanIsExecutable(c: Inputs, s: Setup, selection: set<OpId>)
    requires Named(c) && DistinctPaths(c.source) && DistinctPaths(c.target)
    ensures Acceptable(Plan(c)) && AllShaped(Plan(c)) && AllComplete(Plan(c))
    ensures c.options.deletion != Scans.Mirror && s.trashOnUpdate ==> AllSparing(s, Plan(c), selection)
  {
    PlanAcceptable(c);
    CanonicalNamed(c);
    ArrangedFit(Canonicalized(c));
    assert AllFit(Canonicalized(c), Plan(c));
  }

  // ------------------------------------------------------------------------ deletion policy

  /** What the deletion policy allows of an operation. */
  predicate Obeys(policy: DeletionPolicy, op: Operation) {
    && (policy == Additive ==> op.kind !in {Trash, Delete})
    && (policy == TrashExtras ==> !RemovesFile(op))
    && (policy == Scans.Mirror ==> op.kind != Trash)
  }

  lemma MatchedObeys(c: Inputs, item: FileRecord, record: FileRecord, target: FileRecord, mismatch: bool, dependencies: seq<OpId>)
    requires item.path != [] && target.path != []
    ensures MatchedOperation(c, item, record, target, mismatch, dependencies).kind !in {Trash, Delete}
  {
  }

  lemma UnmatchedObeys(c: Inputs, item: FileRecord, record: FileRecord, dependencies: seq<OpId>)
    ensures UnmatchedOperation(c, item, record, dependencies).kind !in {Trash, Delete}
  {
  }

  lemma DecisionObeys(c: Inputs, item: FileRecord, sources: seq<FileRecord>, targets: seq<FileRecord>, mismatch: bool,
                      dirs: seq<DirRecord>, parent: Option<Operation>)
    requires item.path != [] && sources != [] && (forall t :: t in targets ==> t.path != [])
    ensures Decision(c, item, sources, targets, mismatch, dirs, parent).kind !in {Trash, Delete}
  {
    if |sources| > 1 || |targets| > 1 || dirs != [] || (parent.Some? && parent.value.blocked.Some?) {
      assert Decision(c, item, sources, targets, mismatch, dirs, parent).kind == Copy;
    } else if targets != [] {
      assert targets[0] in targets;
      MatchedObeys(c, item, sources[0], targets[0], mismatch, DependsOn(parent));
    } else {
      UnmatchedObeys(c, item, sources[0], DependsOn(parent));
    }
  }

  lemma ItemObeys(c: Inputs, created: map<Key, Operation>, item: FileRecord)
    requires Named(c) && item in SourceFiles(c)
    ensures ContentOperation(c, created, item).kind !in {Trash, Delete}
  {
    var direct, twin := FilesAt(TargetFiles(c), Fold(item.path)), NormalizationTwin(c, item);
    var mismatch := direct == [] && twin.Some?;
    assert item in FilesAt(SourceFiles(c), Fold(item.path));
    DecisionObeys(c, item, FilesAt(SourceFiles(c), Fold(item.path)), if mismatch then [twin.value] else direct, mismatch,
                  DirsAt(TargetDirs(c), Fold(item.path)), NearestCreated(item.path, created));
  }

  lemma ContentObeys(c: Inputs, op: Operation)
    requires Named(c) && op in Content(c)
    ensures op.kind !in {Trash, Delete}
  {
    var i :| 0 <= i < |Content(c)| && Content(c)[i] == op;
    assert SourceFiles(c)[i] in SourceFiles(c);
    ItemObeys(c, Directories(c).created, SourceFiles(c)[i]);
  }

  lemma RemovalObeys(c: Inputs, op: Operation)
    requires Named(c) && op in Removals(c)
    ensures Obeys(c.options.deletion, op)
  {
    var f :| f in TargetFiles(c) && Extra(c, Content(c), f) && op == RemovalOperation(c, f);
  }

  lemma CleanupObeys(c: Inputs, op: Operation)
    requires Named(c) && op in Cleanups(c)
    ensures Obeys(c.options.deletion, op)
  {
    var d, prior := CleanupOrigin(c, Content(c), Vacating(c), DirsByHeight(c), op);
  }

  /** An additive plan takes nothing away, a trashing plan deletes no file, and a mirroring plan does
      not use the trash for what only the target has. */
  lemma PolicyIsObeyed(c: Inputs, op: Operation)
    requires Named(c) && op in Plan(c)
    ensures Obeys(c.options.deletion, op)
  {
    CanonicalNamed(c);
    var n := Canonicalized(c);
    if op in Removals(n) {
      RemovalObeys(n, op);
    } else if op in Cleanups(n) {
      CleanupObeys(n, op);
    } else if op in Content(n) {
      ContentObeys(n, op);
    } else if op in Directories(n).ops {
      RequiredNonEmpty(n);
      MkdirsListed(n, RequiredDirectories(n));
    }
  }

  // --------------------------------------------------------------------------- valid paths

  ghost predicate Valid(path: Path) {
    ValidKey(Fold(path))
  }

  ghost predicate ValidInputs(c: Inputs) {
    && (forall f :: f in c.source.files || f in c.target.files ==> Valid(f.path))
    && (forall d :: (d in c.source.dirs || d in c.target.dirs) && d.path != [] ==> Valid(d.path))
    && (forall p :: p in c.source.unsupported || p in c.target.unsupported ==> Valid(p))
    && (forall p :: p in c.mapping.pairs ==> Valid(p.target))
  }

  ghost predicate ValidOperation(op: Operation) {
    Valid(op.target) && (op.prior.Some? ==> Valid(op.prior.value))
  }

  lemma ValidPrefix(path: Path, p: Path)
    requires Valid(path) && p != [] && p <= path
    ensures Valid(p)
  {
    assert forall i :: 0 <= i < |p| ==> Fold(p)[i] == Fold(path)[i];
  }

  lemma ValidRecased(found: Path, wanted: Path)
    requires Valid(found) && Valid(wanted)
    ensures Valid(Parent(found) + [wanted[|wanted| - 1]])
  {
    var r := Parent(found) + [wanted[|wanted| - 1]];
    assert Fold(wanted)[|wanted| - 1] == wanted[|wanted| - 1].fold;
    forall i | 0 <= i < |r|
      ensures ValidComponent(Fold(r)[i])
    {
      if i < |found| - 1 {
        assert Fold(r)[i] == Fold(found)[i];
      }
    }
  }

  lemma MatchedValid(c: Inputs, item: FileRecord, record: FileRecord, target: FileRecord, mismatch: bool, dependencies: seq<OpId>)
    requires Valid(item.path) && Valid(target.path)
    ensures ValidOperation(MatchedOperation(c, item, record, target, mismatch, dependencies))
  {
    ValidRecased(target.path, item.path);
  }

  lemma UnmatchedValid(c: Inputs, item: FileRecord, record: FileRecord, dependencies: seq<OpId>)
    requires Valid(item.path) && forall p :: p in c.mapping.pairs ==> Valid(p.target)
    ensures ValidOperation(UnmatchedOperation(c, item, record, dependencies))
  {
    if MovePair(c, record).Some? {
      var candidates := Filter(c.mapping.pairs, (p: MappingPair) => p.sourceIdentity == record.identity.value);
      assert candidates[0] in candidates;
    }
  }

  lemma DecisionValid(c: Inputs, item: FileRecord, sources: seq<FileRecord>, targets: seq<FileRecord>, mismatch: bool,
                      dirs: seq<DirRecord>, parent: Option<Operation>)
    requires Valid(item.path) && sources != [] && forall t :: t in targets ==> t.path != [] && Valid(t.path)
    requires forall p :: p in c.mapping.pairs ==> Valid(p.target)
    ensures ValidOperation(Decision(c, item, sources, targets, mismatch, dirs, parent))
  {
    var op := Decision(c, item, sources, targets, mismatch, dirs, parent);
    if |sources| > 1 || |targets| > 1 || dirs != [] || (parent.Some? && parent.value.blocked.Some?) {
      assert op.target == item.path && op.prior.None?;
    } else if targets != [] {
      assert targets[0] in targets;
      MatchedValid(c, item, sources[0], targets[0], mismatch, DependsOn(parent));
    } else {
      UnmatchedValid(c, item, sources[0], DependsOn(parent));
    }
  }

  lemma TwinIsTarget(c: Inputs, item: FileRecord)
    ensures NormalizationTwin(c, item).Some? ==> NormalizationTwin(c, item).value in TargetFiles(c)
  {
    if NormalizationTwin(c, item).Some? {
      var targets := Filter(TargetFiles(c), (t: FileRecord) =>
        t.path != [] && FilesAt(SourceFiles(c), Fold(t.path)) == [] && Signature(t.path) == Signature(item.path));
      assert targets[0] in targets;
    }
  }

  lemma ContentValid(c: Inputs, created: map<Key, Operation>, item: FileRecord)
    requires Named(c) && ValidInputs(c) && item in SourceFiles(c)
    ensures ValidOperation(ContentOperation(c, created, item))
  {
    var direct, twin := FilesAt(TargetFiles(c), Fold(item.path)), NormalizationTwin(c, item);
    var mismatch := direct == [] && twin.Some?;
    assert item in FilesAt(SourceFiles(c), Fold(item.path));
    TwinIsTarget(c, item);
    DecisionValid(c, item, FilesAt(SourceFiles(c), Fold(item.path)), if mismatch then [twin.value] else direct, mismatch,
                  DirsAt(TargetDirs(c), Fold(item.path)), NearestCreated(item.path, created));
  }

  lemma RequiredValid(c: Inputs, p: Path)
    requires ValidInputs(c) && p in RequiredDirectories(c)
    ensures Valid(p)
  {
    var d, f := RequiredOrigin(c, p);
    if d.None? {
      ValidPrefix(f.value.path, p);
    }
  }

  lemma {:induction false} MkdirsPlain(c: Inputs, paths: seq<Path>)
    requires forall i :: 0 <= i < |paths| ==> paths[i] != []
    ensures forall o :: o in MakeDirectories(c, paths).ops ==> o.prior.None?
  {
    if paths != [] {
      MkdirsPlain(c, paths[..|paths| - 1]);
    }
  }

  lemma DirectoriesValid(c: Inputs)
    requires ValidInputs(c)
    ensures ValidPaths(Directories(c).ops)
  {
    RequiredNonEmpty(c);
    MkdirsListed(c, RequiredDirectories(c));
    MkdirsPlain(c, RequiredDirectories(c));
    forall o | o in Directories(c).ops
      ensures ValidOperation(o)
    {
      RequiredValid(c, o.target);
    }
  }

  lemma ContentsValid(c: Inputs)
    requires Named(c) && ValidInputs(c)
    ensures ValidPaths(Content(c))
  {
    var content, items := Content(c), SourceFiles(c);
    forall op | op in content
      ensures ValidOperation(op)
    {
      var i :| 0 <= i < |content| && content[i] == op;
      assert items[i] in items;
      ContentValid(c, Directories(c).created, items[i]);
    }
  }

  lemma CleanupsValid(c: Inputs)
    requires Named(c) && ValidInputs(c)
    ensures ValidPaths(Cleanups(c))
  {
    forall op | op in Cleanups(c)
      ensures ValidOperation(op)
    {
      var d, prior := CleanupOrigin(c, Content(c), Vacating(c), DirsByHeight(c), op);
    }
  }

  lemma UnsupportedValid(c: Inputs)
    requires ValidInputs(c)
    ensures ValidPaths(UnsupportedOperations(UnsupportedPaths(c)))
  {
    var paths := UnsupportedPaths(c);
    var ops := UnsupportedOperations(paths);
    forall op | op in ops
      ensures ValidOperation(op)
    {
      var i :| 0 <= i < |ops| && ops[i] == op;
      assert paths[i] in paths;
    }
  }

  lemma PlanIsValid(c: Inputs)
    requires Named(c) && ValidInputs(c)
    ensures ValidPaths(Plan(c))
  {
    CanonicalNamed(c);
    var n := Canonicalized(c);
    DirectoriesValid(n);
    ContentsValid(n);
    CleanupsValid(n);
    UnsupportedValid(n);
    forall op | op in Removals(n)
      ensures ValidOperation(op)
    {
      var f :| f in TargetFiles(n) && Extra(n, Content(n), f) && op == RemovalOperation(n, f);
    }
  }

  // ------------------------------------------------------------------------- whole plans

  lemma NothingQuarantined(ops: seq<Operation>, op: Operation)
    requires AllOpen(ops)
    ensures !Quarantined(ops, op)
  {
    assert BlockedTargets(ops) == {};
    assert BlockedSources(ops) == {};
  }

  /** Of an unblocked plan from complete scans everything is selected. */
  lemma EverythingSelected(p: Reviewed)
    requires Ordered(p) && AllOpen(p.ops) && p.sourceComplete && p.targetComplete
    ensures forall i :: 0 <= i < |p.ops| ==> p.ops[i].id in Selected(p)
  {
    var all := set id | id in Ids(p.ops);
    forall op | op in p.ops
      ensures Safe(p, op) && Supported(op, all)
    {
      NothingQuarantined(p.ops, op);
      var i := MemberIndex(p.ops, op);
      forall d | d in op.dependencies
        ensures d in Ids(p.ops)
      {
        PrefixIds(p.ops, i, |p.ops|, d);
        assert p.ops[..|p.ops|] == p.ops;
      }
    }
    assert SafeClosed(p, all);
    SelectionIsGreatest(p);
    forall i | 0 <= i < |p.ops|
      ensures p.ops[i].id in all
    {
      assert Ids(p.ops)[i] == p.ops[i].id;
    }
  }
}
