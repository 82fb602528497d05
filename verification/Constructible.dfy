/** Every plan can be constructed, and does not depend on the order of scan records. */
module Constructible {
  import opened Paths
  import opened Model
  import opened Order
  import opened Scans
  import opened Planner

  /** What the plan's own constructor demands of its operations. */
  ghost predicate Acceptable(ops: seq<Operation>) {
    UniqueIds(ops) && DependencyOrdered(ops) && forall op :: op in ops ==> NoRepeats(op.dependencies)
  }

  ghost predicate DistinctPaths(s: Scan) {
    && NoRepeats(s.files) && (forall f, g :: f in s.files && g in s.files && f.path == g.path ==> f == g)
    && NoRepeats(s.dirs) && (forall d, e :: d in s.dirs && e in s.dirs && d.path == e.path ==> d == e)
  }

  lemma CanonicalDistinct(s: Scan)
    requires DistinctPaths(s)
    ensures DistinctPaths(Canonical(s))
  {
    SortNoRepeats(s.files, FileByPath);
    SortNoRepeats(s.dirs, DirByDepth);
  }

  // ------------------------------------------------------------------- unique ids

  /** Which of the five parts of a plan an operation id belongs to. */
  function Part(id: OpId): nat {
    if id.kind == Mkdir then 0
    else match id.reason
      case TargetOnly => 2
      case UnsupportedEntry => 3
      case DirectoryCleanup => 4
      case _ => 1
  }

  ghost predicate Of(ops: seq<Operation>, part: nat) {
    UniqueIds(ops) && forall i :: 0 <= i < |ops| ==> Part(ops[i].id) == part
  }

  ghost predicate Upto(ops: seq<Operation>, part: nat) {
    UniqueIds(ops) && forall i :: 0 <= i < |ops| ==> Part(ops[i].id) <= part
  }

  lemma Joins(a: seq<Operation>, b: seq<Operation>, part: nat)
    requires part > 0 && Upto(a, part - 1) && Of(b, part)
    ensures Upto(a + b, part)
  {
  }

  lemma UniqueSnoc(ops: seq<Operation>, op: Operation)
    requires UniqueIds(ops) && forall i :: 0 <= i < |ops| ==> ops[i].id != op.id
    ensures UniqueIds(ops + [op])
  {
  }

  /** Creations so far: one per path, findable by key. */
  ghost predicate Tracks(made: Made, paths: seq<Path>) {
    && Of(made.ops, 0) && DependencyOrdered(made.ops)
    && (forall i :: 0 <= i < |made.ops| ==> made.ops[i].id.target in paths && |made.ops[i].dependencies| <= 1)
    && (forall k :: k in made.created ==> made.created[k].id in Ids(made.ops))
  }

  lemma {:induction false} NearestIsCreated(path: Path, created: map<Key, Operation>)
    requires path != []
    ensures NearestCreated(path, created).Some? ==> exists k :: k in created && created[k] == NearestCreated(path, created).value
  {
    if |path| > 1 {
      NearestIsCreated(Parent(path), created);
    }
  }

  lemma DependsOnMade(made: Made, paths: seq<Path>, path: Path)
    requires Tracks(made, paths) && path != []
    ensures forall id :: id in DependsOn(NearestCreated(path, made.created)) ==> id in Ids(made.ops)
  {
    NearestIsCreated(path, made.created);
  }

  lemma OrderedSnoc(ops: seq<Operation>, op: Operation)
    requires DependencyOrdered(ops) && forall id :: id in op.dependencies ==> id in Ids(ops)
    ensures DependencyOrdered(ops + [op])
  {
    var more := ops + [op];
    forall i, d | 0 <= i < |more| && d in more[i].dependencies
      ensures d in Ids(more[..i])
    {
      if i < |ops| {
        assert more[..i] == ops[..i];
      } else {
        assert more[..i] == ops;
      }
    }
  }

  lemma TracksNext(made: Made, paths: seq<Path>, path: Path, op: Operation)
    requires Tracks(made, paths) && path !in paths && path != []
    requires op.id.kind == Mkdir && op.id.target == path && op.dependencies == DependsOn(NearestCreated(path, made.created))
    ensures Tracks(Made(made.ops + [op], made.created[Fold(path) := op]), paths + [path])
  {
    DependsOnMade(made, paths, path);
    OrderedSnoc(made.ops, op);
    UniqueSnoc(made.ops, op);
    var next := Made(made.ops + [op], made.created[Fold(path) := op]);
    assert Ids(next.ops) == Ids(made.ops) + [op.id];
  }

  lemma {:induction false} DirectoriesTracked(c: Inputs, paths: seq<Path>)
    requires NoRepeats(paths) && forall i :: 0 <= i < |paths| ==> paths[i] != []
    ensures Tracks(MakeDirectories(c, paths), paths)
  {
    if paths != [] {
      var n := |paths| - 1;
      DirectoriesTracked(c, paths[..n]);
      assert paths == paths[..n] + [paths[n]];
      var made := MakeDirectories(c, paths[..n]);
      if DirsAt(TargetDirs(c), Fold(paths[n])) == [] {
        TracksNext(made, paths[..n], paths[n], MkdirOperation(c, paths[n], made.created));
      }
    }
  }

  lemma MatchedId(c: Inputs, item: FileRecord, target: FileRecord, mismatch: bool, dependencies: seq<OpId>)
    requires item.path != [] && target.path != []
    ensures var op := MatchedOperation(c, item, item, target, mismatch, dependencies);
            Part(op.id) == 1 && op.dependencies == dependencies && op.id.reason != CaseCollision && op.id.source == Some(item.path)
  {
  }

  lemma UnmatchedId(c: Inputs, item: FileRecord, dependencies: seq<OpId>)
    ensures var op := UnmatchedOperation(c, item, item, dependencies);
            Part(op.id) == 1 && op.dependencies == dependencies && op.id.reason != CaseCollision && op.id.source == Some(item.path)
  {
  }

  lemma SourcesHold(c: Inputs, item: FileRecord)
    requires item in SourceFiles(c)
    ensures var sources := FilesAt(SourceFiles(c), Fold(item.path)); sources != [] && (|sources| == 1 ==> sources[0] == item)
  {
    assert item in FilesAt(SourceFiles(c), Fold(item.path));
  }

  /** A content operation's id tells which source file it is for. */
  ghost predicate Identifies(op: Operation, item: FileRecord, dependencies: seq<OpId>) {
    && Part(op.id) == 1 && op.dependencies == dependencies
    && (if op.id.reason == CaseCollision then op.id.target == item.path else op.id.source == Some(item.path))
  }

  lemma DecisionId(c: Inputs, item: FileRecord, sources: seq<FileRecord>, targets: seq<FileRecord>, mismatch: bool,
                   dirs: seq<DirRecord>, parent: Option<Operation>)
    requires item.path != [] && sources != [] && (forall t :: t in targets ==> t.path != []) && (|sources| == 1 ==> sources[0] == item)
    ensures Identifies(Decision(c, item, sources, targets, mismatch, dirs, parent), item, DependsOn(parent))
  {
    var op := Decision(c, item, sources, targets, mismatch, dirs, parent);
    if |sources| > 1 || |targets| > 1 {
      assert op.id.reason == CaseCollision;
    } else if dirs != [] || (parent.Some? && parent.value.blocked.Some?) {
      assert op.id.source == Some(item.path);
    } else if targets != [] {
      assert targets[0] in targets;
      MatchedId(c, item, targets[0], mismatch, DependsOn(parent));
    } else {
      UnmatchedId(c, item, DependsOn(parent));
    }
  }

  lemma ContentId(c: Inputs, created: map<Key, Operation>, item: FileRecord)
    requires Named(c) && item in SourceFiles(c)
    ensures Identifies(ContentOperation(c, created, item), item, DependsOn(NearestCreated(item.path, created)))
  {
    SourcesHold(c, item);
    var direct, twin := FilesAt(TargetFiles(c), Fold(item.path)), NormalizationTwin(c, item);
    var mismatch := direct == [] && twin.Some?;
    DecisionId(c, item, FilesAt(SourceFiles(c), Fold(item.path)), if mismatch then [twin.value] else direct, mismatch,
               DirsAt(TargetDirs(c), Fold(item.path)), NearestCreated(item.path, created));
  }

  lemma {:induction false} ContentUnique(c: Inputs, created: map<Key, Operation>, items: seq<FileRecord>)
    requires Named(c) && NoRepeats(items) && forall f :: f in items ==> f in SourceFiles(c)
    requires forall f, g :: f in items && g in items && f.path == g.path ==> f == g
    ensures Of(ContentOperations(c, created, items), 1)
  {
    var ops := ContentOperations(c, created, items);
    forall i | 0 <= i < |ops|
      ensures Part(ops[i].id) == 1
    {
      ContentId(c, created, items[i]);
    }
    forall i, j | 0 <= i < j < |ops|
      ensures ops[i].id != ops[j].id
    {
      ContentId(c, created, items[i]);
      ContentId(c, created, items[j]);
      assert items[i] in items && items[j] in items;
    }
  }

  lemma {:induction false} RemovalsUnique(c: Inputs, content: seq<Operation>, files: seq<FileRecord>)
    requires NoRepeats(files) && forall f, g :: f in files && g in files && f.path == g.path ==> f == g
    ensures Of(RemovalOperations(c, content, files), 2)
    ensures forall i :: 0 <= i < |RemovalOperations(c, content, files)| ==> RemovalOperations(c, content, files)[i].dependencies == []
  {
    if files != [] {
      var n := |files| - 1;
      assert files == files[..n] + [files[n]];
      RemovalsUnique(c, content, files[..n]);
      var front := RemovalOperations(c, content, files[..n]);
      if Extra(c, content, files[n]) {
        var op := RemovalOperation(c, files[n]);
        forall i | 0 <= i < |front|
          ensures front[i].id != op.id
        {
          assert front[i] in front;
          var f :| f in files[..n] && Extra(c, content, f) && front[i] == RemovalOperation(c, f);
          assert files[n] !in files[..n];
        }
        UniqueSnoc(front, op);
      }
    }
  }

  lemma UnsupportedUnique(c: Inputs)
    ensures Of(UnsupportedOperations(UnsupportedPaths(c)), 3)
  {
    var all := Deduplicated(Filter(c.source.unsupported + c.target.unsupported, (p: Path) => !Excludes(c.options, p)));
    SortNoRepeats(all, ByPath);
    UnsupportedApart(UnsupportedPaths(c));
  }

  lemma UnsupportedApart(paths: seq<Path>)
    requires NoRepeats(paths)
    ensures Of(UnsupportedOperations(paths), 3)
  {
  }

  // --------------------------------------------------------------------- cleanups

  /** Cleanups so far: one per directory, depending on emptied files and earlier cleanups. */
  ghost predicate Cleaning(ops: seq<Operation>, vacating: seq<Operation>, dirs: seq<DirRecord>) {
    && Of(ops, 4)
    && (forall i :: 0 <= i < |ops| ==> (exists d :: d in dirs && d.path == ops[i].id.target) && NoRepeats(ops[i].dependencies))
    && (forall i, id :: 0 <= i < |ops| && id in ops[i].dependencies ==> id in Ids(vacating) || id in Ids(ops[..i]))
  }

  lemma UniqueIdsOfFilter(ops: seq<Operation>, p: Operation -> bool)
    requires UniqueIds(ops)
    ensures NoRepeats(Ids(Filter(ops, p)))
  {
    var part := Filter(ops, p);
    FilterNoRepeats(ops, p);
    forall i, j | 0 <= i < j < |part|
      ensures part[i].id != part[j].id
    {
      assert part[i] in part && part[j] in part;
      var a :| 0 <= a < |ops| && ops[a] == part[i];
      var b :| 0 <= b < |ops| && ops[b] == part[j];
    }
  }

  lemma DependenciesDistinct(vacating: seq<Operation>, cleanup: seq<Operation>, d: DirRecord)
    requires Upto(vacating, 2) && Of(cleanup, 4)
    ensures NoRepeats(CleanupDependencies(vacating, cleanup, d))
  {
    var removal := RemovalByPath(vacating);
    var p := (op: Operation) =>
      VacatedPath(op).Some? && Fold(d.path) <= Fold(VacatedPath(op).value)
      && VacatedPath(op).value in removal && removal[VacatedPath(op).value] == op;
    var q := (op: Operation) => |op.target| > 1 && Parent(op.target) == d.path;
    UniqueIdsOfFilter(vacating, p);
    UniqueIdsOfFilter(cleanup, q);
    var a, b := Ids(Filter(vacating, p)), Ids(Filter(cleanup, q));
    FilteredPart(vacating, p, 2);
    FilteredPart(cleanup, q, 4);
    assert NoRepeats(a + b);
  }

  lemma FilteredPart(ops: seq<Operation>, p: Operation -> bool, part: nat)
    ensures Upto(ops, part) ==> forall i :: 0 <= i < |Filter(ops, p)| ==> Part(Ids(Filter(ops, p))[i]) <= part
    ensures Of(ops, part) ==> forall i :: 0 <= i < |Filter(ops, p)| ==> Part(Ids(Filter(ops, p))[i]) == part
  {
    var kept := Filter(ops, p);
    forall i | 0 <= i < |kept|
      ensures kept[i] in ops
    {
      assert kept[i] in kept;
    }
  }

  lemma CleaningNext(c: Inputs, vacating: seq<Operation>, dirs: seq<DirRecord>, ops: seq<Operation>, d: DirRecord)
    requires Upto(vacating, 2) && Cleaning(ops, vacating, dirs) && forall e :: e in dirs ==> e.path != d.path
    ensures Cleaning(ops + [CleanupOperation(c, vacating, ops, d)], vacating, dirs + [d])
  {
    var op := CleanupOperation(c, vacating, ops, d);
    var more := ops + [op];
    DependenciesDistinct(vacating, ops, d);
    UniqueSnoc(ops, op);
    assert d in dirs + [d];
    forall i | 0 <= i < |more|
      ensures exists e :: e in dirs + [d] && e.path == more[i].id.target
    {
      if i < |ops| {
        var e :| e in dirs && e.path == ops[i].id.target;
        assert e in dirs + [d];
      }
    }
    forall i, id | 0 <= i < |more| && id in more[i].dependencies
      ensures id in Ids(vacating) || id in Ids(more[..i])
    {
      assert more[..i] == ops[..i];
      assert ops[..|ops|] == ops;
    }
  }

  lemma {:induction false} CleanupsUnique(c: Inputs, content: seq<Operation>, vacating: seq<Operation>, dirs: seq<DirRecord>)
    requires Upto(vacating, 2)
    requires NoRepeats(dirs) && forall d, e :: d in dirs && e in dirs && d.path == e.path ==> d == e
    ensures Cleaning(CleanupOperations(c, content, vacating, dirs), vacating, dirs)
  {
    if dirs != [] {
      var n := |dirs| - 1;
      assert dirs == dirs[..n] + [dirs[n]];
      CleanupsUnique(c, content, vacating, dirs[..n]);
      var done := CleanupOperations(c, content, vacating, dirs[..n]);
      if Cleanable(c, content, done, dirs[n]) {
        assert dirs[n] !in dirs[..n];
        CleaningNext(c, vacating, dirs[..n], done, dirs[n]);
      }
    }
  }

  // ------------------------------------------------------------- dependency order

  lemma OrderedConcat(a: seq<Operation>, b: seq<Operation>)
    requires DependencyOrdered(a)
    requires forall i, d :: 0 <= i < |b| && d in b[i].dependencies ==> d in Ids(a) || d in Ids(b[..i])
    ensures DependencyOrdered(a + b)
  {
    var ops := a + b;
    forall i, d | 0 <= i < |ops| && d in ops[i].dependencies
      ensures d in Ids(ops[..i])
    {
      if i < |a| {
        assert ops[..i] == a[..i];
      } else {
        assert ops[..i] == a + b[..i - |a|];
        assert Ids(a + b[..i - |a|]) == Ids(a) + Ids(b[..i - |a|]);
      }
    }
  }

  lemma IdsOfPart(part: seq<Operation>, whole: seq<Operation>)
    requires forall op :: op in part ==> op in whole
    ensures forall id :: id in Ids(part) ==> id in Ids(whole)
  {
    IdsOfMembers(part, whole);
  }

  // -------------------------------------------------------------------- whole plan

  /** At most one dependency each, on one of the directories made. */
  ghost predicate Rooted(ops: seq<Operation>, made: seq<Operation>) {
    forall i :: 0 <= i < |ops| ==> |ops[i].dependencies| <= 1 && forall d :: d in ops[i].dependencies ==> d in Ids(made)
  }

  lemma ContentRooted(c: Inputs, made: Made, paths: seq<Path>, items: seq<FileRecord>)
    requires Named(c) && Tracks(made, paths) && forall f :: f in items ==> f in SourceFiles(c)
    ensures Rooted(ContentOperations(c, made.created, items), made.ops)
  {
    forall i | 0 <= i < |items|
      ensures var op := ContentOperations(c, made.created, items)[i];
              |op.dependencies| <= 1 && forall d :: d in op.dependencies ==> d in Ids(made.ops)
    {
      ContentId(c, made.created, items[i]);
      DependsOnMade(made, paths, items[i].path);
    }
  }

  lemma DirectoriesAccepted(c: Inputs)
    ensures Tracks(Directories(c), RequiredDirectories(c))
  {
    RequiredNonEmpty(c);
    SortNoRepeats(Deduplicated(DirPaths(SourceDirs(c)) + AllAncestors(SourceFiles(c))), ByDepth);
    DirectoriesTracked(c, RequiredDirectories(c));
  }

  lemma ContentAccepted(c: Inputs)
    requires Named(c) && DistinctPaths(c.source)
    ensures Of(Content(c), 1) && Rooted(Content(c), Directories(c).ops)
  {
    DirectoriesAccepted(c);
    FilterNoRepeats(c.source.files, (f: FileRecord) => !Excludes(c.options, f.path));
    ContentUnique(c, Directories(c).created, SourceFiles(c));
    ContentRooted(c, Directories(c), RequiredDirectories(c), SourceFiles(c));
  }

  lemma RemovalsAccepted(c: Inputs)
    requires Named(c) && DistinctPaths(c.target)
    ensures Of(Removals(c), 2) && forall i :: 0 <= i < |Removals(c)| ==> Removals(c)[i].dependencies == []
  {
    FilterNoRepeats(c.target.files, (f: FileRecord) => !Excludes(c.options, f.path));
    RemovalsUnique(c, Content(c), TargetFiles(c));
  }

  lemma VacatingUnique(content: seq<Operation>, removals: seq<Operation>)
    requires Of(content, 1) && Of(removals, 2)
    ensures Upto(content + removals, 2)
  {
    Joins(content, removals, 2);
  }

  lemma CleanupsAccepted(c: Inputs)
    requires Named(c) && DistinctPaths(c.source) && DistinctPaths(c.target)
    ensures Cleaning(Cleanups(c), Content(c) + Removals(c), DirsByHeight(c))
  {
    ContentAccepted(c);
    RemovalsAccepted(c);
    VacatingUnique(Content(c), Removals(c));
    FilterNoRepeats(c.target.dirs, (d: DirRecord) => d.path != []);
    SortNoRepeats(TargetDirs(c), DirByHeight);
    CleanupsUnique(c, Content(c), Content(c) + Removals(c), DirsByHeight(c));
  }

  lemma FiveParts(d: seq<Operation>, k: seq<Operation>, r: seq<Operation>, u: seq<Operation>, z: seq<Operation>, dirs: seq<DirRecord>)
    requires Of(d, 0) && Of(k, 1) && Of(r, 2) && Of(u, 3) && Cleaning(z, k + r, dirs)
    requires DependencyOrdered(d) && Rooted(k, d)
    requires forall i :: 0 <= i < |d| ==> |d[i].dependencies| <= 1
    requires forall i :: 0 <= i < |r| ==> r[i].dependencies == []
    requires forall i :: 0 <= i < |u| ==> u[i].dependencies == []
    ensures Acceptable(d + k + r + u + z)
  {
    Joins(d, k, 1);
    Joins(d + k, r, 2);
    Joins(d + k + r, u, 3);
    Joins(d + k + r + u, z, 4);
    OrderedConcat(d, k);
    OrderedConcat(d + k, r);
    OrderedConcat(d + k + r, u);
    IdsOfPart(k + r, d + k + r + u);
    OrderedConcat(d + k + r + u, z);
  }

  lemma ArrangedAcceptable(c: Inputs)
    requires Named(c) && DistinctPaths(c.source) && DistinctPaths(c.target)
    ensures Acceptable(Arranged(c))
  {
    DirectoriesAccepted(c);
    ContentAccepted(c);
    RemovalsAccepted(c);
    UnsupportedUnique(c);
    CleanupsAccepted(c);
    FiveParts(Directories(c).ops, Content(c), Removals(c), UnsupportedOperations(UnsupportedPaths(c)), Cleanups(c), DirsByHeight(c));
  }

  /** Ids are unique, dependencies come first and are listed once: blocked operations, filters,
      collisions and every policy included. */
  lemma PlanAcceptable(c: Inputs)
    requires Named(c) && DistinctPaths(c.source) && DistinctPaths(c.target)
    ensures Acceptable(Plan(c))
  {
    CanonicalDistinct(c.source);
    CanonicalDistinct(c.target);
    ArrangedAcceptable(Canonicalized(c));
  }

  // -------------------------------------------------------------- order of records

  /** Names are determined by their text, and texts are single path components. */
  ghost predicate SpelledBy(path: Path, spell: string -> Name) {
    forall i :: 0 <= i < |path| ==> path[i] == spell(path[i].text) && ValidComponent(path[i].text)
  }

  lemma JoinedTells(a: Path, b: Path, spell: string -> Name)
    requires SpelledBy(a, spell) && SpelledBy(b, spell) && Joined(Texts(a)) == Joined(Texts(b))
    ensures a == b
  {
    if a != [] && b != [] {
      var x, y := Texts(a), Texts(b);
      TextContainmentIsComponentwise(x, y);
      TextContainmentIsComponentwise(y, x);
      assert x == y;
      assert forall i :: 0 <= i < |a| ==> a[i].text == x[i] && b[i].text == y[i];
    } else if a != [] {
      NonEmptyText(Texts(a));
    } else if b != [] {
      NonEmptyText(Texts(b));
    }
  }

  lemma NonEmptyText(key: Key)
    requires ValidKey(key)
    ensures KeyText(key) != ""
  {
  }

  ghost predicate ScanSpelled(s: Scan, spell: string -> Name) {
    && (forall f :: f in s.files ==> SpelledBy(f.path, spell))
    && (forall d :: d in s.dirs ==> SpelledBy(d.path, spell))
    && (forall p :: p in s.unsupported ==> SpelledBy(p, spell))
  }

  ghost predicate Permuted(s: Scan, r: Scan) {
    && multiset(s.files) == multiset(r.files) && multiset(s.dirs) == multiset(r.dirs) && multiset(s.unsupported) == multiset(r.unsupported)
    && s.profile == r.profile && s.volume == r.volume
  }

  lemma CanonicalIgnoresOrder(s: Scan, r: Scan, spell: string -> Name)
    requires Permuted(s, r) && DistinctPaths(s) && ScanSpelled(s, spell)
    ensures Canonical(s) == Canonical(r)
  {
    forall f, g | f in s.files && g in s.files && FileByPath(f) == FileByPath(g)
      ensures f == g
    {
      JoinedTells(f.path, g.path, spell);
    }
    SortIgnoresOrder(s.files, r.files, FileByPath);
    forall d, e | d in s.dirs && e in s.dirs && DirByDepth(d) == DirByDepth(e)
      ensures d == e
    {
      JoinedTells(d.path, e.path, spell);
    }
    SortIgnoresOrder(s.dirs, r.dirs, DirByDepth);
    forall p, q | p in s.unsupported && q in s.unsupported && ByPath(p) == ByPath(q)
      ensures p == q
    {
      JoinedTells(p, q, spell);
    }
    SortIgnoresOrder(s.unsupported, r.unsupported, ByPath);
  }

  /** Permuting the records of either scan gives the identical plan. */
  lemma PlanIgnoresOrder(c: Inputs, e: Inputs, spell: string -> Name)
    requires Permuted(c.source, e.source) && Permuted(c.target, e.target) && c.mapping == e.mapping && c.options == e.options
    requires DistinctPaths(c.source) && DistinctPaths(c.target) && ScanSpelled(c.source, spell) && ScanSpelled(c.target, spell)
    requires Named(c) && Named(e)
    ensures Plan(c) == Plan(e)
  {
    CanonicalIgnoresOrder(c.source, e.source, spell);
    CanonicalIgnoresOrder(c.target, e.target, spell);
  }
}
