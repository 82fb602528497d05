/** The planner: two scans and a correspondence become an ordered list of operations. */
module Planner {
  import opened Paths
  import opened Model
  import opened Order
  import opened Scans

  datatype Inputs = Inputs(source: Scan, target: Scan, mapping: Mapping, options: Options)

  function Canonicalized(c: Inputs): Inputs {
    c.(source := Canonical(c.source), target := Canonical(c.target))
  }

  // ------------------------------------------------------------ visible records

  function SourceFiles(c: Inputs): seq<FileRecord> {
    Filter(c.source.files, (f: FileRecord) => !Excludes(c.options, f.path))
  }

  function TargetFiles(c: Inputs): seq<FileRecord> {
    Filter(c.target.files, (f: FileRecord) => !Excludes(c.options, f.path))
  }

  function SourceDirs(c: Inputs): seq<DirRecord> {
    Filter(c.source.dirs, (d: DirRecord) => d.path != [] && !Excludes(c.options, d.path))
  }

  function TargetDirs(c: Inputs): seq<DirRecord> {
    Filter(c.target.dirs, (d: DirRecord) => d.path != [])
  }

  function FilesAt(files: seq<FileRecord>, key: Key): seq<FileRecord> {
    Filter(files, (f: FileRecord) => Fold(f.path) == key)
  }

  function DirsAt(dirs: seq<DirRecord>, key: Key): seq<DirRecord> {
    Filter(dirs, (d: DirRecord) => Fold(d.path) == key)
  }

  /** Size, time within the coarser granularity, and attributes. */
  predicate MetadataEqual(source: Stat, target: Stat, granularity: nat) {
    && source.size == target.size
    && source.mtime - target.mtime <= granularity && target.mtime - source.mtime <= granularity
    && source.metadata.attributes == target.metadata.attributes
  }

  function Granularity(c: Inputs): nat {
    if c.source.profile.granularity >= c.target.profile.granularity then c.source.profile.granularity else c.target.profile.granularity
  }

  // ---------------------------------------------------------- building operations

  function Planned(kind: OperationKind, source: Option<Path>, target: Path, sourceExpected: Option<Stat>, targetExpected: Option<Stat>,
                   intended: Option<Stat>, prior: Option<Path>, priorExpected: Option<Stat>, contentBytes: nat,
                   dependencies: seq<OpId>, reason: OperationReason): Operation {
    Operation(OpId(kind, source, target, prior, reason), kind, source, target, sourceExpected, targetExpected, intended,
              prior, priorExpected, contentBytes, dependencies, reason, None)
  }

  function BlockedOperation(kind: OperationKind, source: Option<Path>, target: Path, sourceExpected: Option<Stat>, targetExpected: Option<Stat>,
                            intended: Option<Stat>, reason: OperationReason, blocked: BlockedReason, dependencies: seq<OpId>): Operation {
    Operation(OpId(kind, source, target, None, reason), kind, source, target, sourceExpected, targetExpected, intended,
              None, None, 0, dependencies, reason, Some(blocked))
  }

  // ------------------------------------------------------------------ directories

  /** Proper ancestors of a path, nearest first. */
  function Ancestors(path: Path): (r: seq<Path>)
    ensures forall p :: p in r <==> p != [] && Beneath(path, p)
  {
    if |path| <= 1 then []
    else
      var parent := Parent(path);
      assert forall p :: Beneath(path, p) <==> p == parent || Beneath(parent, p);
      [parent] + Ancestors(parent)
  }

  function AllAncestors(files: seq<FileRecord>): (r: seq<Path>)
    ensures forall p :: p in r <==> exists f :: f in files && p in Ancestors(f.path)
  {
    if files == [] then []
    else
      assert files == [files[0]] + files[1..];
      Ancestors(files[0].path) + AllAncestors(files[1..])
  }

  function DirPaths(dirs: seq<DirRecord>): (r: seq<Path>)
    ensures forall p :: p in r <==> exists d :: d in dirs && d.path == p
  {
    if dirs == [] then []
    else
      assert dirs == [dirs[0]] + dirs[1..];
      [dirs[0].path] + DirPaths(dirs[1..])
  }

  function Deduplicated(paths: seq<Path>): (r: seq<Path>)
    ensures forall p :: p in r <==> p in paths
    ensures forall i, j :: 0 <= i < j < |r| ==> r[i] != r[j]
  {
    if paths == [] then []
    else
      assert paths == [paths[0]] + paths[1..];
      var rest := Deduplicated(paths[1..]);
      if paths[0] in rest then rest else [paths[0]] + rest
  }

  /** Every directory the mirror needs, shallowest first. */
  function RequiredDirectories(c: Inputs): seq<Path> {
    SortBy(Deduplicated(DirPaths(SourceDirs(c)) + AllAncestors(SourceFiles(c))), ByDepth)
  }

  lemma DirectoryIsRequired(c: Inputs, d: DirRecord)
    requires d in SourceDirs(c)
    ensures d.path in RequiredDirectories(c)
  {
    assert d.path in DirPaths(SourceDirs(c));
  }

  lemma AncestorIsRequired(c: Inputs, f: FileRecord, p: Path)
    requires f in SourceFiles(c) && p != [] && Beneath(f.path, p)
    ensures p in RequiredDirectories(c)
  {
    assert p in Ancestors(f.path);
    assert p in AllAncestors(SourceFiles(c));
  }

  /** Why a directory is required: the source has it, or a source file lies beneath it. */
  lemma RequiredOrigin(c: Inputs, p: Path) returns (d: Option<DirRecord>, f: Option<FileRecord>)
    requires p in RequiredDirectories(c)
    ensures p != []
    ensures d.Some? ==> d.value in c.source.dirs && d.value.path == p && !Excludes(c.options, p)
    ensures d.None? ==> f.Some? && f.value in SourceFiles(c) && Beneath(f.value.path, p)
  {
    d, f := None, None;
    if p in DirPaths(SourceDirs(c)) {
      var e :| e in SourceDirs(c) && e.path == p;
      d := Some(e);
    } else {
      assert p in AllAncestors(SourceFiles(c));
      var g :| g in SourceFiles(c) && p in Ancestors(g.path);
      f := Some(g);
    }
  }

  function NearestCreated(path: Path, created: map<Key, Operation>): Option<Operation>
    requires path != []
  {
    if |path| == 1 then None
    else
      var parent := Parent(path);
      if Fold(parent) in created then Some(created[Fold(parent)]) else NearestCreated(parent, created)
  }

  function DependsOn(parent: Option<Operation>): seq<OpId> {
    if parent.Some? then [parent.value.id] else []
  }

  function MkdirOperation(c: Inputs, path: Path, created: map<Key, Operation>): Operation
    requires path != []
  {
    var key := Fold(path);
    var files := FilesAt(TargetFiles(c), key);
    var candidates := DirsAt(SourceDirs(c), key);
    var directory := if |candidates| == 1 then Some(candidates[0]) else None;
    var stat := if directory.Some? then Some(DirStat(directory.value)) else None;
    var dependencies := DependsOn(NearestCreated(path, created));
    if |candidates| > 1 || files != [] || directory.None? then
      BlockedOperation(Mkdir, Some(if directory.Some? then directory.value.path else path), path, stat,
                       if |files| == 1 then Some(FileStat(files[0])) else None, stat,
                       if files != [] then TypeCollision else PolicyCollision,
                       if files != [] then BlockedTypeCollision else BlockedDestinationCollision,
                       dependencies)
    else
      Planned(Mkdir, Some(directory.value.path), path, stat, None, stat, None, None, 0, dependencies, RequiredDirectory)
  }

  datatype Made = Made(ops: seq<Operation>, created: map<Key, Operation>)

  /** The creations so far, and that of one more directory unless the target has it. */
  function MadeNext(c: Inputs, made: Made, path: Path): Made
    requires path != []
  {
    if DirsAt(TargetDirs(c), Fold(path)) != [] then made
    else
      var op := MkdirOperation(c, path, made.created);
      Made(made.ops + [op], made.created[Fold(path) := op])
  }

  /** Directory creations for a list of required paths: none where the target has a directory. */
  function MakeDirectories(c: Inputs, paths: seq<Path>): Made
    requires forall i :: 0 <= i < |paths| ==> paths[i] != []
  {
    if paths == [] then Made([], map[])
    else
      var n := |paths| - 1;
      MadeNext(c, MakeDirectories(c, paths[..n]), paths[n])
  }

  lemma RequiredNonEmpty(c: Inputs)
    ensures forall i :: 0 <= i < |RequiredDirectories(c)| ==> RequiredDirectories(c)[i] != []
  {
    var paths := RequiredDirectories(c);
    forall i | 0 <= i < |paths|
      ensures paths[i] != []
    {
      assert paths[i] in paths;
      var d, f := RequiredOrigin(c, paths[i]);
    }
  }

  function Directories(c: Inputs): Made {
    RequiredNonEmpty(c);
    MakeDirectories(c, RequiredDirectories(c))
  }

  // ---------------------------------------------------------------------- content

  /** Exact parent and composed last name. */
  function Signature(path: Path): (Path, string)
    requires path != []
  {
    (Parent(path), path[|path| - 1].form)
  }

  /** The one target file that differs from an unmatched source file only in normalization. */
  function NormalizationTwin(c: Inputs, item: FileRecord): Option<FileRecord> {
    if item.path == [] || FilesAt(TargetFiles(c), Fold(item.path)) != [] then None
    else
      var desired := Filter(SourceFiles(c), (f: FileRecord) =>
        f.path != [] && FilesAt(TargetFiles(c), Fold(f.path)) == [] && Signature(f.path) == Signature(item.path));
      var targets := Filter(TargetFiles(c), (t: FileRecord) =>
        t.path != [] && FilesAt(SourceFiles(c), Fold(t.path)) == [] && Signature(t.path) == Signature(item.path));
      if |desired| == 1 && |targets| == 1 && item.path != targets[0].path then Some(targets[0]) else None
  }

  function CountIdentity(files: seq<FileRecord>, identity: Identity): nat {
    |Filter(files, (f: FileRecord) => f.identity == Some(identity))|
  }

  /** The unambiguous recorded target of a source file that now has another path. */
  function MovePair(c: Inputs, record: FileRecord): Option<(MappingPair, FileRecord)> {
    if record.identity.None? || record.nlink != 1
       || !c.source.profile.stableIdentity || !c.target.profile.stableIdentity
       || c.source.volume.None? || c.target.volume.None?
       || c.mapping.sourceVolume != c.source.volume || c.mapping.targetVolume != c.target.volume
       || record.identity.value.volume != c.source.volume.value.serial
       || CountIdentity(SourceFiles(c), record.identity.value) != 1
       || record.identity.value in c.mapping.disqualifiedSource
       || Fold(record.path) in c.mapping.ambiguous
    then None
    else
      var candidates := Filter(c.mapping.pairs, (p: MappingPair) => p.sourceIdentity == record.identity.value);
      if |candidates| != 1 then None
      else
        var pair := candidates[0];
        var key := Fold(pair.target);
        if key == Fold(record.path) || FilesAt(SourceFiles(c), key) != [] then None
        else
          var found := FilesAt(TargetFiles(c), key);
          if |found| != 1 || found[0].nlink != 1 || found[0].identity.None?
             || found[0].identity.value.volume != c.target.volume.value.serial
             || CountIdentity(TargetFiles(c), found[0].identity.value) != 1
             || found[0].identity.value in c.mapping.disqualifiedTarget
             || (pair.targetIdentity.Some? && found[0].identity != pair.targetIdentity)
          then None
          else Some((pair, found[0]))
  }

  /** Source and target both have the file: nothing to do, a case-only rename, or an update. */
  function MatchedOperation(c: Inputs, item: FileRecord, record: FileRecord, target: FileRecord, mismatch: bool, dependencies: seq<OpId>): Operation
    requires item.path != [] && target.path != []
  {
    var matched := MetadataEqual(FileStat(record), FileStat(target), Granularity(c));
    var kind := if matched then Noop else Update;
    var source, targetStat := FileStat(record), FileStat(target);
    var bytes := if matched then 0 else record.size;
    if mismatch then
      Planned(kind, Some(record.path), target.path, Some(source), Some(targetStat), Some(source), None, None, bytes, dependencies, UnicodeNormalizationMismatch)
    else if item.path != target.path then
      var wanted, found := item.path[|item.path| - 1], target.path[|target.path| - 1];
      if c.options.propagateCasing && wanted != found then
        var recased := Parent(target.path) + [wanted];
        if matched then
          Planned(Recase, Some(record.path), recased, Some(source), Some(targetStat), Some(targetStat), Some(target.path), Some(targetStat), 0, dependencies, CaseMismatch)
        else
          Planned(Update, Some(record.path), recased, Some(source), Some(targetStat), Some(source), None, None, bytes, dependencies, CaseMismatch)
      else
        Planned(kind, Some(record.path), target.path, Some(source), Some(targetStat), Some(source), None, None, bytes, dependencies, CaseMismatch)
    else
      Planned(kind, Some(record.path), item.path, Some(source), Some(targetStat), Some(source), None, None, bytes, dependencies,
              if matched then MetadataMatch else MetadataChanged)
  }

  function UnmatchedOperation(c: Inputs, item: FileRecord, record: FileRecord, dependencies: seq<OpId>): Operation {
    var move, stat := MovePair(c, record), FileStat(record);
    if move.Some? then
      var (pair, prior) := move.value;
      var matched := MetadataEqual(stat, FileStat(prior), Granularity(c));
      Planned(if matched then Move else MoveUpdate, Some(record.path), item.path, Some(stat), None, Some(stat),
              Some(pair.target), Some(FileStat(prior)), if matched then 0 else record.size, dependencies,
              if matched then IdentityRename else IdentityRenameChanged)
    else
      Planned(Copy, Some(record.path), item.path, Some(stat), None, Some(stat), None, None, record.size, dependencies, SourceOnly)
  }

  /** The operation for one source file, given what shares its key on either side. */
  function Decision(c: Inputs, item: FileRecord, sources: seq<FileRecord>, targets: seq<FileRecord>, mismatch: bool,
                    dirs: seq<DirRecord>, parent: Option<Operation>): Operation
    requires item.path != [] && sources != [] && forall t :: t in targets ==> t.path != []
  {
    var record := sources[0];
    var dependencies := DependsOn(parent);
    var stat := Some(FileStat(record));
    if |sources| > 1 || |targets| > 1 then
      BlockedOperation(Copy, Some(record.path), item.path, stat, if |targets| == 1 then Some(FileStat(targets[0])) else None, stat,
                       CaseCollision, BlockedCaseCollision, dependencies)
    else if dirs != [] then
      BlockedOperation(Copy, Some(record.path), item.path, stat, if |dirs| == 1 then Some(DirStat(dirs[0])) else None, stat,
                       TypeCollision, BlockedTypeCollision, dependencies)
    else if parent.Some? && parent.value.blocked.Some? then
      BlockedOperation(Copy, Some(record.path), item.path, stat, None, stat, SourceOnly, BlockedDependency, dependencies)
    else if targets != [] then
      MatchedOperation(c, item, record, targets[0], mismatch, dependencies)
    else
      UnmatchedOperation(c, item, record, dependencies)
  }

  function ContentOperation(c: Inputs, created: map<Key, Operation>, item: FileRecord): Operation
    requires item in SourceFiles(c) && item.path != [] && forall t :: t in TargetFiles(c) ==> t.path != []
  {
    var key := Fold(item.path);
    var sources := FilesAt(SourceFiles(c), key);
    assert item in sources;
    var direct := FilesAt(TargetFiles(c), key);
    var twin := NormalizationTwin(c, item);
    var mismatch := direct == [] && twin.Some?;
    var targets := if mismatch then [twin.value] else direct;
    Decision(c, item, sources, targets, mismatch, DirsAt(TargetDirs(c), key), NearestCreated(item.path, created))
  }

  /** Files have names. */
  predicate Named(c: Inputs) {
    && (forall f :: f in c.source.files ==> f.path != [])
    && (forall f :: f in c.target.files ==> f.path != [])
  }

  function ContentOperations(c: Inputs, created: map<Key, Operation>, items: seq<FileRecord>): (ops: seq<Operation>)
    requires Named(c) && forall f :: f in items ==> f in SourceFiles(c)
    ensures |ops| == |items|
    ensures forall i :: 0 <= i < |items| ==> items[i] in SourceFiles(c) && ops[i] == ContentOperation(c, created, items[i])
  {
    assert forall i :: 0 <= i < |items| ==> items[i] in items;
    seq(|items|, i requires 0 <= i < |items| && items[i] in SourceFiles(c) => ContentOperation(c, created, items[i]))
  }

  function Content(c: Inputs): seq<Operation>
    requires Named(c)
  {
    ContentOperations(c, Directories(c).created, SourceFiles(c))
  }

  // --------------------------------------------------------------------- removals

  /** The target key an operation stands for, which removal then leaves alone. */
  predicate Claims(op: Operation, key: Key) {
    op.blocked != Some(BlockedDependency) && Fold(op.target) == key
  }

  predicate MovesFrom(op: Operation, key: Key) {
    op.kind in {Move, MoveUpdate} && op.prior.Some? && Fold(op.prior.value) == key
  }

  predicate Claimed(ops: seq<Operation>, key: Key) {
    exists op :: op in ops && Claims(op, key)
  }

  predicate MovedAway(ops: seq<Operation>, key: Key) {
    exists op :: op in ops && MovesFrom(op, key)
  }

  predicate Extra(c: Inputs, content: seq<Operation>, f: FileRecord) {
    c.options.deletion != Additive && !Claimed(content, Fold(f.path)) && !MovedAway(content, Fold(f.path))
  }

  function RemovalOperation(c: Inputs, f: FileRecord): Operation {
    Planned(if c.options.deletion == TrashExtras then Trash else Delete, None, f.path, None, Some(FileStat(f)), None, None, None, 0, [], TargetOnly)
  }

  function RemovalOperations(c: Inputs, content: seq<Operation>, files: seq<FileRecord>): (ops: seq<Operation>)
    ensures forall op :: op in ops <==> exists f :: f in files && Extra(c, content, f) && op == RemovalOperation(c, f)
  {
    if files == [] then []
    else
      var n := |files| - 1;
      assert files == files[..n] + [files[n]];
      RemovalOperations(c, content, files[..n]) + (if Extra(c, content, files[n]) then [RemovalOperation(c, files[n])] else [])
  }

  function Removals(c: Inputs): seq<Operation>
    requires Named(c)
  {
    RemovalOperations(c, Content(c), TargetFiles(c))
  }

  // ------------------------------------------------------------------ unsupported

  function UnsupportedOperation(path: Path): Operation {
    BlockedOperation(Noop, Some(path), path, None, None, None, UnsupportedEntry, BlockedUnsupported, [])
  }

  function UnsupportedPaths(c: Inputs): seq<Path> {
    SortBy(Deduplicated(Filter(c.source.unsupported + c.target.unsupported, (p: Path) => !Excludes(c.options, p))), ByPath)
  }

  function UnsupportedOperations(paths: seq<Path>): (ops: seq<Operation>)
    ensures |ops| == |paths|
    ensures forall i :: 0 <= i < |paths| ==> ops[i] == UnsupportedOperation(paths[i])
  {
    seq(|paths|, i requires 0 <= i < |paths| => UnsupportedOperation(paths[i]))
  }

  // ---------------------------------------------------------------------- cleanup

  predicate Desired(c: Inputs, key: Key) {
    exists p :: p in RequiredDirectories(c) && Fold(p) == key
  }

  predicate Removed(c: Inputs, content: seq<Operation>, f: FileRecord) {
    MovedAway(content, Fold(f.path)) || exists g :: g in TargetFiles(c) && Fold(g.path) == Fold(f.path) && Extra(c, content, g)
  }

  predicate CleanedUp(cleanup: seq<Operation>, key: Key) {
    exists op :: op in cleanup && Fold(op.target) == key
  }

  predicate HasExcludedChild(c: Inputs, d: DirRecord) {
    || (exists f :: f in c.target.files && Beneath(Fold(f.path), Fold(d.path)) && Excludes(c.options, f.path))
    || (exists e :: e in c.target.dirs && e.path != d.path && Beneath(Fold(e.path), Fold(d.path)) && Excludes(c.options, e.path))
  }

  predicate HasUnsupportedChild(c: Inputs, d: DirRecord) {
    exists p :: p in c.target.unsupported && Beneath(Fold(p), Fold(d.path))
  }

  predicate HasRemainingFile(c: Inputs, content: seq<Operation>, d: DirRecord) {
    exists f :: f in c.target.files && Beneath(Fold(f.path), Fold(d.path)) && !Removed(c, content, f)
  }

  /** As written: a child directory that the source wants does not count as remaining. */
  predicate HasRemainingDirectory(c: Inputs, cleanup: seq<Operation>, d: DirRecord) {
    exists e :: e in TargetDirs(c) && |e.path| > 1 && Parent(e.path) == d.path && !CleanedUp(cleanup, Fold(e.path)) && !Desired(c, Fold(e.path))
  }

  predicate Cleanable(c: Inputs, content: seq<Operation>, cleanup: seq<Operation>, d: DirRecord) {
    && c.options.deletion != Additive && !Desired(c, Fold(d.path)) && !Excludes(c.options, d.path)
    && !HasExcludedChild(c, d) && !HasUnsupportedChild(c, d)
    && !HasRemainingFile(c, content, d) && !HasRemainingDirectory(c, cleanup, d)
  }

  /** The path an operation takes a file away from. */
  function VacatedPath(op: Operation): Option<Path> {
    if op.kind in {Trash, Delete} then Some(op.target)
    else if op.kind in {Move, MoveUpdate} then op.prior
    else None
  }

  /** Which operation empties a path; a later one takes over an earlier one's path. */
  function RemovalByPath(ops: seq<Operation>): (m: map<Path, Operation>)
    ensures forall p :: p in m ==> m[p] in ops && VacatedPath(m[p]) == Some(p)
    ensures forall op :: op in ops && VacatedPath(op).Some? ==> VacatedPath(op).value in m
  {
    if ops == [] then map[]
    else
      var n := |ops| - 1;
      assert ops == ops[..n] + [ops[n]];
      var m := RemovalByPath(ops[..n]);
      if VacatedPath(ops[n]).Some? then m[VacatedPath(ops[n]).value := ops[n]] else m
  }

  /** Operations that must have taken effect before a directory can go: those that empty it, and
      the cleanups of the directories directly beneath it. */
  function CleanupDependencies(vacating: seq<Operation>, cleanup: seq<Operation>, d: DirRecord): (r: seq<OpId>)
    ensures forall p :: p in RemovalByPath(vacating) && Fold(d.path) <= Fold(p) ==> RemovalByPath(vacating)[p].id in r
    ensures forall op :: op in cleanup && |op.target| > 1 && Parent(op.target) == d.path ==> op.id in r
    ensures forall id :: id in r ==> id in Ids(vacating) || id in Ids(cleanup)
  {
    var removal := RemovalByPath(vacating);
    var a := Filter(vacating, (op: Operation) =>
      VacatedPath(op).Some? && Fold(d.path) <= Fold(VacatedPath(op).value)
      && VacatedPath(op).value in removal && removal[VacatedPath(op).value] == op);
    var b := Filter(cleanup, (op: Operation) => |op.target| > 1 && Parent(op.target) == d.path);
    IdsOfMembers(a, vacating);
    IdsOfMembers(b, cleanup);
    Ids(a) + Ids(b)
  }

  lemma IdsOfMembers(part: seq<Operation>, whole: seq<Operation>)
    requires forall op :: op in part ==> op in whole
    ensures forall op :: op in part ==> op.id in Ids(part)
    ensures forall id :: id in Ids(part) ==> id in Ids(whole)
  {
    forall op | op in part
      ensures op.id in Ids(part) && op.id in Ids(whole)
    {
      var i :| 0 <= i < |part| && part[i] == op;
      assert Ids(part)[i] == op.id;
      var j :| 0 <= j < |whole| && whole[j] == op;
      assert Ids(whole)[j] == op.id;
    }
  }

  function CleanupOperation(c: Inputs, vacating: seq<Operation>, cleanup: seq<Operation>, d: DirRecord): Operation {
    Planned(Delete, None, d.path, None, Some(DirStat(d)), None, None, None, 0, CleanupDependencies(vacating, cleanup, d), DirectoryCleanup)
  }

  /** The cleanups so far, and that of one more directory if it can go. */
  function CleanedNext(c: Inputs, content: seq<Operation>, vacating: seq<Operation>, done: seq<Operation>, d: DirRecord): seq<Operation> {
    if Cleanable(c, content, done, d) then done + [CleanupOperation(c, vacating, done, d)] else done
  }

  /** Cleanups for a list of directories, deepest first. */
  function CleanupOperations(c: Inputs, content: seq<Operation>, vacating: seq<Operation>, dirs: seq<DirRecord>): seq<Operation> {
    if dirs == [] then []
    else
      var n := |dirs| - 1;
      CleanedNext(c, content, vacating, CleanupOperations(c, content, vacating, dirs[..n]), dirs[n])
  }

  function DirsByHeight(c: Inputs): seq<DirRecord> {
    SortBy(TargetDirs(c), DirByHeight)
  }

  function Cleanups(c: Inputs): seq<Operation>
    requires Named(c)
  {
    CleanupOperations(c, Content(c), Content(c) + Removals(c), DirsByHeight(c))
  }

  // ------------------------------------------------------------------- whole plan

  /** The plan of canonical inputs, in its five parts. */
  function Arranged(c: Inputs): seq<Operation>
    requires Named(c)
  {
    Directories(c).ops + Content(c) + Removals(c) + UnsupportedOperations(UnsupportedPaths(c)) + Cleanups(c)
  }

  lemma CanonicalNamed(c: Inputs)
    requires Named(c)
    ensures Named(Canonicalized(c))
  {
  }

  function Plan(c: Inputs): seq<Operation>
    requires Named(c)
  {
    CanonicalNamed(c);
    Arranged(Canonicalized(c))
  }
}
