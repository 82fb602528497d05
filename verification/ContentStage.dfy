/** The content part of a plan applies in order and leaves every source file in place. */
module ContentStage {
  import opened Paths
  import opened Model
  import opened Order
  import opened Scans
  import opened Planner
  import opened Mirror
  import opened Convergence

  // ------------------------------------------------- applying operations on their own keys

  /** What a content operation leaves at its target key. */
  ghost function EffectNode(op: Operation): Option<Node> {
    match op.kind
    case Noop => if op.targetExpected.Some? then Some(FileNode(op.target, op.targetExpected.value)) else None
    case Recase => if op.targetExpected.Some? then Some(FileNode(op.target, op.targetExpected.value)) else None
    case Move => if op.priorExpected.Some? then Some(FileNode(op.target, op.priorExpected.value)) else None
    case _ => if op.intended.Some? then Some(FileNode(op.target, op.intended.value)) else None
  }

  /** The node at a key after the first `n` operations. */
  ghost function After(base: Tree, ops: seq<Operation>, n: nat, key: Key): Option<Node>
    requires n <= |ops|
  {
    if n == 0 then Lookup(base, key)
    else if Fold(ops[n - 1].target) == key then EffectNode(ops[n - 1])
    else if MovesFrom(ops[n - 1], key) then None
    else After(base, ops, n - 1, key)
  }

  predicate Bypasses(op: Operation, key: Key) {
    Fold(op.target) != key && !MovesFrom(op, key)
  }

  ghost predicate Untouched(ops: seq<Operation>, n: nat, key: Key)
    requires n <= |ops|
  {
    forall j :: 0 <= j < n ==> Bypasses(ops[j], key)
  }

  lemma {:induction false} AfterUntouched(base: Tree, ops: seq<Operation>, n: nat, key: Key)
    requires n <= |ops| && Untouched(ops, n, key)
    ensures After(base, ops, n, key) == Lookup(base, key)
  {
    if n > 0 {
      AfterUntouched(base, ops, n - 1, key);
    }
  }

  /** The base tree, not counting what earlier operations did elsewhere, admits the operation. */
  ghost predicate Admits(base: Tree, op: Operation) {
    var key := Fold(op.target);
    && op.blocked.None?
    && match op.kind
       case Noop => op.targetExpected.Some? && Lookup(base, key) == Some(FileNode(op.target, op.targetExpected.value))
       case Update => HoldsFile(base, key, op.targetExpected) && op.intended.Some?
       case Recase => HoldsFile(base, key, op.targetExpected) && op.prior.Some? && Fold(op.prior.value) == key
       case Copy => key !in base && HasParent(base, key) && op.intended.Some?
       case Move => key !in base && HasParent(base, key) && op.prior.Some? && HoldsFile(base, Fold(op.prior.value), op.priorExpected) && Fold(op.prior.value) != key
       case MoveUpdate => key !in base && HasParent(base, key) && op.intended.Some? && op.prior.Some? && HoldsFile(base, Fold(op.prior.value), op.priorExpected) && Fold(op.prior.value) != key
       case _ => false
  }

  /** Earlier operations stay off the keys this one depends on. */
  ghost predicate Independent(ops: seq<Operation>, n: nat)
    requires n < |ops|
  {
    var op := ops[n];
    && Untouched(ops, n, Fold(op.target))
    && (|op.target| > 1 ==> Untouched(ops, n, Parent(Fold(op.target))))
    && (op.kind in {Move, MoveUpdate} && op.prior.Some? ==> Untouched(ops, n, Fold(op.prior.value)))
  }

  ghost predicate Reached(base: Tree, ops: seq<Operation>, n: nat, t: Tree)
    requires n <= |ops|
  {
    forall k :: Lookup(t, k) == After(base, ops, n, k)
  }

  lemma AdmittedLater(base: Tree, ops: seq<Operation>, n: nat, t: Tree)
    requires n < |ops| && Reached(base, ops, n, t) && Admits(base, ops[n]) && Independent(ops, n)
    ensures Admits(t, ops[n])
  {
    var op := ops[n];
    var key := Fold(op.target);
    AfterUntouched(base, ops, n, key);
    assert Lookup(t, key) == After(base, ops, n, key);
    if |key| > 1 {
      AfterUntouched(base, ops, n, Parent(key));
      assert Lookup(t, Parent(key)) == After(base, ops, n, Parent(key));
    }
    if op.kind in {Move, MoveUpdate} {
      var prior := Fold(op.prior.value);
      AfterUntouched(base, ops, n, prior);
      assert Lookup(t, prior) == After(base, ops, n, prior);
    }
  }

  lemma AdmittedApplies(op: Operation, t: Tree) returns (u: Tree)
    requires Admits(t, op)
    ensures Apply(op, t) == Some(u)
    ensures forall k :: Lookup(u, k) == if Fold(op.target) == k then EffectNode(op) else if MovesFrom(op, k) then None else Lookup(t, k)
  {
    u := Apply(op, t).value;
  }

  lemma {:induction false} ContentApplies(base: Tree, ops: seq<Operation>, n: nat) returns (t: Tree)
    requires n <= |ops|
    requires forall i :: 0 <= i < |ops| ==> Admits(base, ops[i])
    requires forall i :: 0 <= i < |ops| ==> Independent(ops, i)
    ensures ApplyAll(ops[..n], base) == Some(t) && Reached(base, ops, n, t)
  {
    if n == 0 {
      t := base;
    } else {
      var s := ContentApplies(base, ops, n - 1);
      AdmittedLater(base, ops, n - 1, s);
      t := AdmittedApplies(ops[n - 1], s);
      ApplyNext(ops[..n - 1], ops[n - 1], base, s, t);
      assert ops[..n] == ops[..n - 1] + [ops[n - 1]];
      forall k
        ensures Lookup(t, k) == After(base, ops, n, k)
      {
        assert Lookup(s, k) == After(base, ops, n - 1, k);
      }
    }
  }

  // --------------------------------------------------------------- shapes of the operations

  lemma OnlySourceAtKey(c: Inputs, item: FileRecord)
    requires Orderly(c) && item in SourceFiles(c)
    ensures FilesAt(SourceFiles(c), Fold(item.path)) != [] && FilesAt(SourceFiles(c), Fold(item.path))[0] == item
  {
    var sources := FilesAt(SourceFiles(c), Fold(item.path));
    assert item in sources;
    assert sources[0] in sources;
    assert FileWith(c.source, Fold(item.path)) == Some(item);
    assert FileWith(c.source, Fold(sources[0].path)) == Some(sources[0]);
  }

  lemma OnlyTargetAtKey(c: Inputs, key: Key)
    requires Orderly(c)
    ensures FilesAt(TargetFiles(c), key) == [] <==> FileWith(c.target, key) == None
    ensures FilesAt(TargetFiles(c), key) != [] ==> FileWith(c.target, key) == Some(FilesAt(TargetFiles(c), key)[0])
  {
    FilesAtKey(c, key);
    var files := FilesAt(TargetFiles(c), key);
    if files != [] {
      assert files[0] in files;
      assert FileWith(c.target, Fold(files[0].path)) == Some(files[0]);
    }
  }

  lemma TwinIsDirect(c: Inputs, item: FileRecord)
    requires Orderly(c) && NoTwins(c) && item in SourceFiles(c)
    ensures NormalizationTwin(c, item).None?
  {
    var twin := NormalizationTwin(c, item);
    if twin.Some? {
      var targets := Filter(TargetFiles(c), (t: FileRecord) =>
        t.path != [] && FilesAt(SourceFiles(c), Fold(t.path)) == [] && Signature(t.path) == Signature(item.path));
      assert targets[0] in targets;
      assert twin.value in c.target.files && Signature(twin.value.path) == Signature(item.path);
      OnlyTargetAtKey(c, Fold(item.path));
    }
  }

  /** An unblocked content operation is a match with the target file of the same key, or a copy or
      move to a key the target does not have. */
  lemma OpenShape(c: Inputs, created: map<Key, Operation>, item: FileRecord)
    requires Orderly(c) && NoTwins(c) && item in SourceFiles(c) && item.path != []
    requires ContentOperation(c, created, item).blocked.None?
    ensures !DirKey(c.target, Fold(item.path))
    ensures var op := ContentOperation(c, created, item);
            var dependencies := DependsOn(NearestCreated(item.path, created));
            var found := FileWith(c.target, Fold(item.path));
            if found.Some?
            then found.value.path != [] && op == MatchedOperation(c, item, item, found.value, false, dependencies)
            else op == UnmatchedOperation(c, item, item, dependencies)
  {
    OnlySourceAtKey(c, item);
    OnlyTargetAtKey(c, Fold(item.path));
    TwinIsDirect(c, item);
    DirsAtKey(c, Fold(item.path));
  }

  lemma MatchedFacts(c: Inputs, item: FileRecord, found: FileRecord, dependencies: seq<OpId>)
    requires item.path != [] && found.path != [] && Fold(item.path) == Fold(found.path)
    ensures var op := MatchedOperation(c, item, item, found, false, dependencies);
            && op.blocked.None? && op.kind in {Noop, Update, Recase} && Fold(op.target) == Fold(item.path)
            && op.targetExpected == Some(FileStat(found)) && op.intended.Some?
            && (op.kind == Noop ==> op.target == found.path)
            && (op.kind == Recase ==> op.prior == Some(found.path))
            && EffectNode(op).Some? && MetadataEqual(FileStat(item), EffectNode(op).value.stat, Granularity(c))
            && (c.options.propagateCasing ==> op.target[|op.target| - 1] == item.path[|item.path| - 1])
  {
    var n := |item.path| - 1;
    var wanted := item.path[n];
    var recased := Parent(found.path) + [wanted];
    assert Fold(found.path)[n] == Fold(item.path)[n];
    assert forall i :: 0 <= i < n ==> Fold(recased)[i] == Fold(found.path)[i];
    assert Fold(recased) == Fold(item.path);
  }

  /** A planned move leaves a recorded target file that no source file claims. */
  lemma MoveFacts(c: Inputs, item: FileRecord)
    requires Orderly(c) && item in SourceFiles(c) && MovePair(c, item).Some?
    ensures var (pair, prior) := MovePair(c, item).value;
            && prior in c.target.files && Fold(prior.path) == Fold(pair.target)
            && pair in c.mapping.pairs && item.identity == Some(pair.sourceIdentity)
            && !FileKey(c.source, Fold(pair.target)) && Fold(pair.target) != Fold(item.path)
            && CountIdentity(SourceFiles(c), pair.sourceIdentity) == 1
  {
    var (pair, prior) := MovePair(c, item).value;
    var candidates := Filter(c.mapping.pairs, (p: MappingPair) => p.sourceIdentity == item.identity.value);
    assert candidates[0] in candidates;
    var found := FilesAt(TargetFiles(c), Fold(pair.target));
    assert found[0] in found;
    SourcesAtKey(c, Fold(pair.target));
  }

  /** Two source files never move from the same target file. */
  lemma MovesAreDistinct(c: Inputs, f: FileRecord, g: FileRecord)
    requires Orderly(c) && DistinctPairs(c) && f in SourceFiles(c) && g in SourceFiles(c)
    requires MovePair(c, f).Some? && MovePair(c, g).Some?
    requires Fold(MovePair(c, f).value.0.target) == Fold(MovePair(c, g).value.0.target)
    ensures f == g
  {
    MoveFacts(c, f);
    MoveFacts(c, g);
    var pair := MovePair(c, f).value.0;
    assert MovePair(c, g).value.0 == pair;
    var same := Filter(SourceFiles(c), (h: FileRecord) => h.identity == Some(pair.sourceIdentity));
    assert |same| == 1 && f in same && g in same;
  }

  // ----------------------------------------------------------- the content part of a plan

  /** The unblocked directory and content parts, seen on their own. */
  ghost predicate OpenContent(c: Inputs) {
    Orderly(c) && NoTwins(c) && DistinctPairs(c) && AllOpen(Directories(c).ops) && AllOpen(Content(c))
  }

  /** The tree the content part starts from: the source's directories over the target's entries. */
  ghost predicate Grounded(c: Inputs, base: Tree) {
    forall k :: Lookup(base, k) == if DirKey(c.source, k) then Some(DirNode) else Lookup(TreeOf(c.target), k)
  }

  lemma SourceDirIsNotTargetFile(c: Inputs, key: Key)
    requires Orderly(c) && AllOpen(Directories(c).ops) && DirKey(c.source, key)
    ensures !FileKey(c.target, key)
  {
    var d :| d in c.source.dirs && d.path != [] && Fold(d.path) == key;
    RecordedIsRequired(c, d.path);
    RequiredNonEmpty(c);
    var paths := RequiredDirectories(c);
    var n :| 0 <= n < |paths| && paths[n] == d.path;
    RequiredBuildable(c, paths, n);
    TreeDepicted(c.target);
  }

  function Last<T>(s: seq<T>): T
    requires s != []
  {
    s[|s| - 1]
  }

  /** What the operation of a source file is about. */
  ghost predicate Faithful(c: Inputs, f: FileRecord, op: Operation) {
    && f.path != [] && op.blocked.None?
    && Fold(op.target) == Fold(f.path) && |op.target| == |f.path|
    && EffectNode(op).Some? && EffectNode(op).value.FileNode? && EffectNode(op).value.path != []
    && MetadataEqual(FileStat(f), EffectNode(op).value.stat, Granularity(c))
    && (c.options.propagateCasing ==> Last(EffectNode(op).value.path) == Last(f.path))
    && (op.kind in {Move, MoveUpdate} ==> MovePair(c, f).Some? && op.prior == Some(MovePair(c, f).value.0.target))
  }

  lemma MatchedFaithful(c: Inputs, f: FileRecord, found: FileRecord, dependencies: seq<OpId>)
    requires f.path != [] && found.path != [] && Fold(f.path) == Fold(found.path)
    ensures Faithful(c, f, MatchedOperation(c, f, f, found, false, dependencies))
  {
    MatchedFacts(c, f, found, dependencies);
    var op := MatchedOperation(c, f, f, found, false, dependencies);
    assert |Fold(op.target)| == |Fold(f.path)|;
  }

  lemma UnmatchedFaithful(c: Inputs, f: FileRecord, dependencies: seq<OpId>)
    requires f.path != []
    ensures Faithful(c, f, UnmatchedOperation(c, f, f, dependencies))
  {
  }

  lemma OpenIsFaithful(c: Inputs, created: map<Key, Operation>, f: FileRecord)
    requires Orderly(c) && NoTwins(c) && f in SourceFiles(c) && f.path != []
    requires ContentOperation(c, created, f).blocked.None?
    ensures Faithful(c, f, ContentOperation(c, created, f))
  {
    OpenShape(c, created, f);
    var dependencies := DependsOn(NearestCreated(f.path, created));
    var found := FileWith(c.target, Fold(f.path));
    if found.Some? {
      MatchedFaithful(c, f, found.value, dependencies);
    } else {
      UnmatchedFaithful(c, f, dependencies);
    }
  }

  lemma OperationFacts(c: Inputs, i: nat)
    requires OpenContent(c) && i < |SourceFiles(c)|
    ensures |Content(c)| == |SourceFiles(c)|
    ensures SourceFiles(c)[i] in c.source.files && SourceFiles(c)[i].path != []
    ensures Content(c)[i] == ContentOperation(c, Directories(c).created, SourceFiles(c)[i])
    ensures Faithful(c, SourceFiles(c)[i], Content(c)[i])
  {
    var f, op := SourceFiles(c)[i], Content(c)[i];
    assert f in SourceFiles(c) && op in Content(c);
    OpenIsFaithful(c, Directories(c).created, f);
  }

  lemma MatchedAdmitted(c: Inputs, base: Tree, f: FileRecord, found: FileRecord, dependencies: seq<OpId>)
    requires f.path != [] && found.path != [] && Fold(f.path) == Fold(found.path)
    requires Lookup(base, Fold(f.path)) == Some(FileNode(found.path, FileStat(found)))
    ensures Admits(base, MatchedOperation(c, f, f, found, false, dependencies))
  {
    MatchedFacts(c, f, found, dependencies);
  }

  lemma UnmatchedAdmitted(c: Inputs, base: Tree, f: FileRecord, dependencies: seq<OpId>)
    requires Lookup(base, Fold(f.path)) == None && HasParent(base, Fold(f.path))
    requires MovePair(c, f).Some? ==>
               var (pair, prior) := MovePair(c, f).value;
               Lookup(base, Fold(pair.target)) == Some(FileNode(prior.path, FileStat(prior))) && Fold(pair.target) != Fold(f.path)
    ensures Admits(base, UnmatchedOperation(c, f, f, dependencies))
  {
  }

  lemma MoveGrounded(c: Inputs, base: Tree, f: FileRecord)
    requires Orderly(c) && AllOpen(Directories(c).ops) && Grounded(c, base) && f in SourceFiles(c) && MovePair(c, f).Some?
    ensures var (pair, prior) := MovePair(c, f).value;
            Lookup(base, Fold(pair.target)) == Some(FileNode(prior.path, FileStat(prior))) && Fold(pair.target) != Fold(f.path)
  {
    MoveFacts(c, f);
    PriorGrounded(c, base, MovePair(c, f).value.1);
  }

  lemma OperationAdmitted(c: Inputs, base: Tree, i: nat)
    requires OpenContent(c) && Grounded(c, base) && i < |SourceFiles(c)|
    ensures |Content(c)| == |SourceFiles(c)| && Admits(base, Content(c)[i])
  {
    OperationFacts(c, i);
    ItemAdmitted(c, base, Directories(c).created, SourceFiles(c)[i]);
  }

  lemma ItemAdmitted(c: Inputs, base: Tree, created: map<Key, Operation>, f: FileRecord)
    requires Orderly(c) && NoTwins(c) && AllOpen(Directories(c).ops) && Grounded(c, base)
    requires f in SourceFiles(c) && f.path != [] && ContentOperation(c, created, f).blocked.None?
    ensures Admits(base, ContentOperation(c, created, f))
  {
    var key := Fold(f.path);
    OpenShape(c, created, f);
    SourceSlot(c, base, f);
    var dependencies := DependsOn(NearestCreated(f.path, created));
    var found := FileWith(c.target, key);
    if found.Some? {
      MatchedAdmitted(c, base, f, found.value, dependencies);
    } else {
      SourceParentGrounded(c, base, f);
      if MovePair(c, f).Some? {
        MoveGrounded(c, base, f);
      }
      UnmatchedAdmitted(c, base, f, dependencies);
    }
  }

  /** The key of a source file before the content part: the target's file, if it has one. */
  lemma SourceSlot(c: Inputs, base: Tree, f: FileRecord)
    requires Orderly(c) && Grounded(c, base) && f in c.source.files && !DirKey(c.target, Fold(f.path))
    ensures var found := FileWith(c.target, Fold(f.path));
            Lookup(base, Fold(f.path)) == if found.Some? then Some(FileNode(found.value.path, FileStat(found.value))) else None
  {
    TreeDepicted(c.target);
    SourceFileIsNotSourceDir(c, f);
    assert Lookup(base, Fold(f.path)) == Lookup(TreeOf(c.target), Fold(f.path));
  }

  lemma SourceFileIsNotSourceDir(c: Inputs, f: FileRecord)
    requires Orderly(c) && f in c.source.files
    ensures !DirKey(c.source, Fold(f.path))
  {
    OneEntryPerKey(c.source);
  }

  lemma SourceParentGrounded(c: Inputs, base: Tree, f: FileRecord)
    requires Orderly(c) && Grounded(c, base) && f in c.source.files
    ensures HasParent(base, Fold(f.path))
    ensures |f.path| > 1 ==> DirKey(c.source, Parent(Fold(f.path)))
  {
    if |f.path| > 1 {
      FoldParent(f.path);
      assert HasDirectory(c.source, Parent(f.path));
    }
  }

  lemma PriorGrounded(c: Inputs, base: Tree, prior: FileRecord)
    requires Orderly(c) && AllOpen(Directories(c).ops) && Grounded(c, base) && prior in c.target.files
    ensures Lookup(base, Fold(prior.path)) == Some(FileNode(prior.path, FileStat(prior)))
    ensures !DirKey(c.source, Fold(prior.path))
  {
    TreeDepicted(c.target);
    assert FileKey(c.target, Fold(prior.path));
    if DirKey(c.source, Fold(prior.path)) {
      SourceDirIsNotTargetFile(c, Fold(prior.path));
    }
  }

  /** A key some content operation moves away from is a target file's, and no source entry's. */
  lemma MovedKeyFacts(c: Inputs, j: nat, key: Key)
    requires OpenContent(c) && j < |SourceFiles(c)| && |Content(c)| == |SourceFiles(c)| && MovesFrom(Content(c)[j], key)
    ensures FileKey(c.target, key) && !FileKey(c.source, key) && !DirKey(c.source, key)
    ensures MovePair(c, SourceFiles(c)[j]).Some? && Fold(MovePair(c, SourceFiles(c)[j]).value.0.target) == key
  {
    var f := SourceFiles(c)[j];
    assert f in SourceFiles(c);
    OperationFacts(c, j);
    MoveFacts(c, f);
    if DirKey(c.source, key) {
      SourceDirIsNotTargetFile(c, key);
    }
  }

  /** Operations of different source files keep off each other's target keys. */
  lemma TargetsApart(c: Inputs, i: nat, j: nat)
    requires OpenContent(c) && i < |SourceFiles(c)| && j < |SourceFiles(c)| && i != j && |Content(c)| == |SourceFiles(c)|
    ensures Bypasses(Content(c)[j], Fold(Content(c)[i].target))
  {
    OperationFacts(c, i);
    OperationFacts(c, j);
    var f, g := SourceFiles(c)[i], SourceFiles(c)[j];
    FilterNoRepeats(c.source.files, (f: FileRecord) => !Excludes(c.options, f.path));
    assert FileWith(c.source, Fold(f.path)) == Some(f) && FileWith(c.source, Fold(g.path)) == Some(g);
    var key := Fold(Content(c)[i].target);
    assert FileKey(c.source, key);
    if MovesFrom(Content(c)[j], key) {
      MovedKeyFacts(c, j, key);
    }
  }

  lemma ParentApart(c: Inputs, i: nat, j: nat)
    requires OpenContent(c) && i < |SourceFiles(c)| && j < |SourceFiles(c)| && |Content(c)| == |SourceFiles(c)|
    requires |Content(c)[i].target| > 1
    ensures Bypasses(Content(c)[j], Parent(Fold(Content(c)[i].target)))
  {
    OperationFacts(c, i);
    OperationFacts(c, j);
    var f, g := SourceFiles(c)[i], SourceFiles(c)[j];
    var key := Parent(Fold(f.path));
    FoldParent(f.path);
    assert HasDirectory(c.source, Parent(f.path));
    assert DirKey(c.source, key);
    SourceFileIsNotSourceDir(c, g);
    if MovesFrom(Content(c)[j], key) {
      MovedKeyFacts(c, j, key);
    }
  }

  lemma PriorsApart(c: Inputs, i: nat, j: nat)
    requires OpenContent(c) && i < |SourceFiles(c)| && j < |SourceFiles(c)| && i != j && |Content(c)| == |SourceFiles(c)|
    requires Content(c)[i].kind in {Move, MoveUpdate} && Content(c)[i].prior.Some?
    ensures Bypasses(Content(c)[j], Fold(Content(c)[i].prior.value))
  {
    var key := Fold(Content(c)[i].prior.value);
    MovedKeyFacts(c, i, key);
    OperationFacts(c, j);
    var f, g := SourceFiles(c)[i], SourceFiles(c)[j];
    assert f in SourceFiles(c) && g in SourceFiles(c);
    assert FileKey(c.source, Fold(g.path));
    if MovesFrom(Content(c)[j], key) {
      MovedKeyFacts(c, j, key);
      MovesAreDistinct(c, f, g);
      FilterNoRepeats(c.source.files, (f: FileRecord) => !Excludes(c.options, f.path));
    }
  }

  lemma ContentIndependent(c: Inputs, i: nat)
    requires OpenContent(c) && i < |SourceFiles(c)| && |Content(c)| == |SourceFiles(c)|
    ensures Independent(Content(c), i)
  {
    var ops := Content(c);
    forall j | 0 <= j < i
      ensures Bypasses(ops[j], Fold(ops[i].target))
      ensures |ops[i].target| > 1 ==> Bypasses(ops[j], Parent(Fold(ops[i].target)))
      ensures ops[i].kind in {Move, MoveUpdate} && ops[i].prior.Some? ==> Bypasses(ops[j], Fold(ops[i].prior.value))
    {
      TargetsApart(c, i, j);
      if |ops[i].target| > 1 {
        ParentApart(c, i, j);
      }
      if ops[i].kind in {Move, MoveUpdate} && ops[i].prior.Some? {
        PriorsApart(c, i, j);
      }
    }
  }

  lemma {:induction false} AfterLast(base: Tree, ops: seq<Operation>, n: nat, i: nat)
    requires i < n <= |ops| && forall j :: i < j < n ==> Bypasses(ops[j], Fold(ops[i].target))
    ensures After(base, ops, n, Fold(ops[i].target)) == EffectNode(ops[i])
  {
    if i < n - 1 {
      AfterLast(base, ops, n - 1, i);
    }
  }

  lemma {:induction false} AfterVacated(base: Tree, ops: seq<Operation>, n: nat, i: nat, key: Key)
    requires i < n <= |ops| && MovesFrom(ops[i], key) && forall j :: 0 <= j < n ==> Fold(ops[j].target) != key
    ensures After(base, ops, n, key) == None
  {
    if i < n - 1 {
      AfterVacated(base, ops, n - 1, i, key);
    }
  }

  /** After the content part every source file is in place, moved files are gone from their old
      keys, and every other entry is as it was. */
  ghost predicate Delivered(c: Inputs, base: Tree, t: Tree)
    requires Named(c)
  {
    && (forall i :: 0 <= i < |Content(c)| ==> Lookup(t, Fold(Content(c)[i].target)) == EffectNode(Content(c)[i]))
    && (forall k :: !FileKey(c.source, k) ==> Lookup(t, k) == if MovedAway(Content(c), k) then None else Lookup(base, k))
  }

  lemma ContentDelivers(c: Inputs, base: Tree) returns (t: Tree)
    requires OpenContent(c) && Grounded(c, base)
    ensures ApplyAll(Content(c), base) == Some(t) && Delivered(c, base, t)
  {
    var ops := Content(c);
    assert |ops| == |SourceFiles(c)|;
    forall i | 0 <= i < |ops|
      ensures Admits(base, ops[i]) && Independent(ops, i)
    {
      OperationAdmitted(c, base, i);
      ContentIndependent(c, i);
    }
    t := ContentApplies(base, ops, |ops|);
    assert ops[..|ops|] == ops;
    forall i | 0 <= i < |ops|
      ensures Lookup(t, Fold(ops[i].target)) == EffectNode(ops[i])
    {
      forall j | i < j < |ops|
        ensures Bypasses(ops[j], Fold(ops[i].target))
      {
        TargetsApart(c, i, j);
      }
      AfterLast(base, ops, |ops|, i);
    }
    forall k | !FileKey(c.source, k)
      ensures Lookup(t, k) == if MovedAway(ops, k) then None else Lookup(base, k)
    {
      NoTargetAt(c, k);
      OtherKey(base, ops, k);
    }
  }

  lemma NoTargetAt(c: Inputs, key: Key)
    requires OpenContent(c) && !FileKey(c.source, key)
    ensures forall j :: 0 <= j < |Content(c)| ==> Fold(Content(c)[j].target) != key
  {
    forall j | 0 <= j < |Content(c)|
      ensures Fold(Content(c)[j].target) != key
    {
      OperationFacts(c, j);
    }
  }

  lemma OtherKey(base: Tree, ops: seq<Operation>, key: Key)
    requires forall j :: 0 <= j < |ops| ==> Fold(ops[j].target) != key
    ensures After(base, ops, |ops|, key) == if MovedAway(ops, key) then None else Lookup(base, key)
  {
    if MovedAway(ops, key) {
      var op :| op in ops && MovesFrom(op, key);
      var i :| 0 <= i < |ops| && ops[i] == op;
      AfterVacated(base, ops, |ops|, i, key);
    } else {
      forall j | 0 <= j < |ops|
        ensures Bypasses(ops[j], key)
      {
        assert ops[j] in ops;
      }
      AfterUntouched(base, ops, |ops|, key);
    }
  }
}
