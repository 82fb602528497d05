/** What a plan decides about every file and directory, stated over the scans alone. */
module Decisions {
  import opened Paths
  import opened Model
  import opened Order
  import opened Scans
  import opened Planner
  import opened Constructible
  import opened CleanupSound
  import opened Filters
  import opened Pipeline

  predicate ShownSource(c: Inputs, f: FileRecord) {
    f in c.source.files && !Excludes(c.options, f.path)
  }

  predicate ShownTarget(c: Inputs, f: FileRecord) {
    f in c.target.files && !Excludes(c.options, f.path)
  }

  lemma ShownMembers(c: Inputs)
    ensures forall f :: f in SourceFiles(c) <==> ShownSource(c, f)
    ensures forall f :: f in TargetFiles(c) <==> ShownTarget(c, f)
  {
  }

  // ------------------------------------------------------------------------- counting

  lemma NoneFiltered<T(!new)>(xs: seq<T>, p: T -> bool)
    ensures Filter(xs, p) == [] <==> forall x :: x in xs ==> !p(x)
  {
    var r := Filter(xs, p);
    if r != [] {
      assert r[0] in r;
    }
  }

  lemma OneFiltered<T(!new)>(xs: seq<T>, p: T -> bool, x: T)
    requires NoRepeats(xs) && x in xs && p(x)
    ensures Filter(xs, p) != [] && (|Filter(xs, p)| == 1 <==> forall y :: y in xs && p(y) ==> y == x)
    ensures |Filter(xs, p)| == 1 ==> Filter(xs, p)[0] == x
  {
    var r := Filter(xs, p);
    FilterNoRepeats(xs, p);
    assert x in r;
    if |r| == 1 {
      forall y | y in xs && p(y)
        ensures y == x
      {
        assert y in r;
      }
    } else {
      assert r[0] in r && r[1] in r && r[0] != r[1];
    }
  }

  lemma ManyFiltered<T(!new)>(xs: seq<T>, p: T -> bool)
    requires NoRepeats(xs)
    ensures |Filter(xs, p)| > 1 <==> exists x, y :: x in xs && y in xs && p(x) && p(y) && x != y
  {
    var r := Filter(xs, p);
    FilterNoRepeats(xs, p);
    if |r| > 1 {
      assert r[0] in r && r[1] in r && r[0] != r[1];
    } else {
      forall x, y | x in xs && y in xs && p(x) && p(y)
        ensures x == y
      {
        assert x in r && y in r;
      }
    }
  }

  ghost predicate SoleIn<T(!new)>(xs: seq<T>, p: T -> bool, x: T) {
    x in xs && p(x) && forall y :: y in xs && p(y) ==> y == x
  }

  lemma SoleFiltered<T(!new)>(xs: seq<T>, p: T -> bool, x: T)
    requires NoRepeats(xs)
    ensures Filter(xs, p) == [x] <==> SoleIn(xs, p, x)
  {
    var r := Filter(xs, p);
    if x in xs && p(x) {
      OneFiltered(xs, p, x);
      assert |r| == 1 ==> r == [r[0]];
    } else {
      assert x !in r && x in [x];
    }
  }

  ghost predicate Distinct(c: Inputs) {
    DistinctPaths(c.source) && DistinctPaths(c.target)
  }

  lemma FilesDistinct(c: Inputs)
    requires Distinct(c)
    ensures NoRepeats(SourceFiles(c)) && NoRepeats(TargetFiles(c))
  {
    FilterNoRepeats(c.source.files, (f: FileRecord) => !Excludes(c.options, f.path));
    FilterNoRepeats(c.target.files, (f: FileRecord) => !Excludes(c.options, f.path));
  }

  // ------------------------------------------------------------------ what the scans say

  /** Another source file has the same key, or two target files have it. */
  ghost predicate Ambiguous(c: Inputs, f: FileRecord) {
    || (exists g :: ShownSource(c, g) && g != f && Fold(g.path) == Fold(f.path))
    || TwoOnTarget(c, Fold(f.path))
  }

  ghost predicate Occupied(c: Inputs, f: FileRecord) {
    exists d :: d in c.target.dirs && d.path != [] && Fold(d.path) == Fold(f.path)
  }

  ghost predicate OnTarget(c: Inputs, key: Key) {
    exists t :: ShownTarget(c, t) && Fold(t.path) == key
  }

  ghost predicate OnSource(c: Inputs, key: Key) {
    exists g :: ShownSource(c, g) && Fold(g.path) == key
  }

  /** Without a counterpart of its own key on the other side, and of this signature. */
  ghost predicate LoneSource(c: Inputs, signature: (Path, string), g: FileRecord) {
    ShownSource(c, g) && g.path != [] && !OnTarget(c, Fold(g.path)) && Signature(g.path) == signature
  }

  ghost predicate LoneTarget(c: Inputs, signature: (Path, string), t: FileRecord) {
    ShownTarget(c, t) && t.path != [] && !OnSource(c, Fold(t.path)) && Signature(t.path) == signature
  }

  /** Two files without a counterpart of their own key whose names differ in normalization only, and each is the
      only such file. */
  ghost predicate Twins(c: Inputs, f: FileRecord, t: FileRecord)
    requires f.path != []
  {
    && t.path != f.path && LoneTarget(c, Signature(f.path), t) && LoneSource(c, Signature(f.path), f)
    && (forall g :: LoneSource(c, Signature(f.path), g) ==> g == f)
    && (forall s :: LoneTarget(c, Signature(f.path), s) ==> s == t)
  }

  ghost predicate Counterpart(c: Inputs, f: FileRecord, t: FileRecord)
    requires f.path != []
  {
    (ShownTarget(c, t) && Fold(t.path) == Fold(f.path)) || Twins(c, f, t)
  }

  /** Same size, times apart by no more than the coarser granularity, same attributes. */
  predicate InStep(c: Inputs, f: FileRecord, t: FileRecord) {
    && f.size == t.size && f.metadata.attributes == t.metadata.attributes
    && (Near(f.mtime, t.mtime, c.source.profile.granularity) || Near(f.mtime, t.mtime, c.target.profile.granularity))
  }

  predicate Near(a: nat, b: nat, granularity: nat) {
    a <= b + granularity && b <= a + granularity
  }

  /** The only source file, and the only target file, of an identity. */
  ghost predicate SoleSource(c: Inputs, f: FileRecord) {
    f.identity.Some? && forall g :: ShownSource(c, g) && g.identity == f.identity ==> g == f
  }

  ghost predicate SoleTarget(c: Inputs, t: FileRecord) {
    t.identity.Some? && forall s :: ShownTarget(c, s) && s.identity == t.identity ==> s == t
  }

  ghost predicate OneIndex<T(!new)>(xs: seq<T>, p: T -> bool, x: T) {
    exists i :: 0 <= i < |xs| && xs[i] == x && p(x) && NoOther(xs, p, i)
  }

  ghost predicate NoOther<T(!new)>(xs: seq<T>, p: T -> bool, i: int) {
    forall j :: 0 <= j < |xs| && p(xs[j]) ==> j == i
  }

  ghost predicate OnlyOnTarget(c: Inputs, key: Key, t: FileRecord) {
    ShownTarget(c, t) && Fold(t.path) == key && forall s :: ShownTarget(c, s) && Fold(s.path) == key ==> s == t
  }

  /** What the correspondence and the two profiles must say before a pair is looked at. */
  predicate Vouched(c: Inputs, f: FileRecord) {
    && c.source.profile.stableIdentity && c.target.profile.stableIdentity
    && c.source.volume.Some? && c.mapping.sourceVolume == c.source.volume
    && c.target.volume.Some? && c.mapping.targetVolume == c.target.volume
    && f.identity.Some? && f.nlink == 1 && f.identity.value.volume == c.source.volume.value.serial
    && f.identity.value !in c.mapping.disqualifiedSource && Fold(f.path) !in c.mapping.ambiguous
  }

  /** The one pair that is recorded for an identity. */
  ghost predicate OnlyPair(c: Inputs, identity: Identity, pair: MappingPair) {
    OneIndex(c.mapping.pairs, (p: MappingPair) => p.sourceIdentity == identity, pair)
  }

  predicate Recognized(c: Inputs, pair: MappingPair, t: FileRecord) {
    && t.nlink == 1 && t.identity.Some? && c.target.volume.Some? && t.identity.value.volume == c.target.volume.value.serial
    && t.identity.value !in c.mapping.disqualifiedTarget
    && (pair.targetIdentity.Some? ==> t.identity == pair.targetIdentity)
  }

  /** The correspondence vouches for where a source file was: on both reviewed volumes, unambiguous, and for files
      with a single link and an identity of their own. */
  ghost predicate MovedFrom(c: Inputs, f: FileRecord, pair: MappingPair, t: FileRecord) {
    && Vouched(c, f) && SoleSource(c, f) && OnlyPair(c, f.identity.value, pair)
    && Fold(pair.target) != Fold(f.path) && !OnSource(c, Fold(pair.target))
    && OnlyOnTarget(c, Fold(pair.target), t) && Recognized(c, pair, t) && SoleTarget(c, t)
  }

  // --------------------------------------------------------------------- created parents

  /** The deepest of the directory creations above a path. */
  ghost predicate Nearest(ops: seq<Operation>, path: Path, o: Operation) {
    && o in ops && o.kind == Mkdir && Beneath(Fold(path), Fold(o.target))
    && forall q :: q in ops && q.kind == Mkdir && Beneath(Fold(path), Fold(q.target)) ==> |q.target| <= |o.target|
  }

  ghost predicate Registered(made: Made) {
    && (forall k :: k in made.created ==> made.created[k] in made.ops && Fold(made.created[k].target) == k)
    && (forall o :: o in made.ops ==> o.kind == Mkdir && o.target != [] && Fold(o.target) in made.created)
  }

  lemma {:induction false} CreatedIsRegistered(c: Inputs, paths: seq<Path>)
    requires forall i :: 0 <= i < |paths| ==> paths[i] != []
    ensures Registered(MakeDirectories(c, paths))
  {
    if paths != [] {
      CreatedIsRegistered(c, paths[..|paths| - 1]);
    }
  }

  lemma {:induction false} NearestIsDeepest(path: Path, created: map<Key, Operation>, k: nat)
    requires path != [] && 0 < k < |path| && Fold(path)[..k] in created
    ensures NearestCreated(path, created).Some?
    ensures exists j :: k <= j < |path| && Fold(path)[..j] in created && NearestCreated(path, created).value == created[Fold(path)[..j]]
    decreases |path|
  {
    var parent := Parent(path);
    FoldParent(path);
    assert Fold(parent) == Fold(path)[..|path| - 1];
    if Fold(parent) !in created {
      assert Fold(parent)[..k] == Fold(path)[..k];
      NearestIsDeepest(parent, created, k);
      var j :| k <= j < |parent| && Fold(parent)[..j] in created && NearestCreated(parent, created).value == created[Fold(parent)[..j]];
      assert Fold(parent)[..j] == Fold(path)[..j];
    }
  }

  lemma {:induction false} NearestIsAbove(path: Path, created: map<Key, Operation>)
    requires path != []
    ensures NearestCreated(path, created).Some? ==>
              exists j :: 0 < j < |path| && Fold(path)[..j] in created && NearestCreated(path, created).value == created[Fold(path)[..j]]
    decreases |path|
  {
    if |path| > 1 {
      var parent := Parent(path);
      FoldParent(path);
      assert Fold(parent) == Fold(path)[..|path| - 1];
      if Fold(parent) !in created {
        NearestIsAbove(parent, created);
        if NearestCreated(parent, created).Some? {
          var j :| 0 < j < |parent| && Fold(parent)[..j] in created && NearestCreated(parent, created).value == created[Fold(parent)[..j]];
          assert Fold(parent)[..j] == Fold(path)[..j];
        }
      }
    }
  }

  /** The parent operation that the planner finds is the nearest of the creations, if there is one. */
  lemma NearestExactly(made: Made, path: Path)
    requires Registered(made) && path != []
    ensures var r := NearestCreated(path, made.created);
            if r.Some? then Nearest(made.ops, path, r.value)
            else forall q :: q in made.ops ==> !Beneath(Fold(path), Fold(q.target))
  {
    var r := NearestCreated(path, made.created);
    NearestIsAbove(path, made.created);
    forall q | q in made.ops && Beneath(Fold(path), Fold(q.target))
      ensures r.Some? && |q.target| <= |r.value.target|
    {
      var k := |q.target|;
      assert Fold(path)[..k] == Fold(q.target);
      NearestIsDeepest(path, made.created, k);
    }
  }

  // --------------------------------------------------------------------- the decisions

  ghost predicate ParentBlocked(ops: seq<Operation>, path: Path) {
    exists o :: Nearest(ops, path, o) && o.blocked.Some?
  }

  /** An operation waits for the deepest directory creation above its path, and for nothing else. */
  ghost predicate WaitsForParent(ops: seq<Operation>, path: Path, op: Operation) {
    if exists o :: Nearest(ops, path, o) then |op.dependencies| == 1 && exists o :: Nearest(ops, path, o) && op.dependencies[0] == o.id
    else op.dependencies == []
  }

  /** With its counterpart on the target a file is left, re-spelled or updated: left exactly if they are in step. */
  ghost predicate Matches(c: Inputs, f: FileRecord, t: FileRecord, op: Operation)
    requires f.path != [] && t.path != []
  {
    var respelled := Fold(t.path) == Fold(f.path) && c.options.propagateCasing && Last(f.path) != Last(t.path);
    && op.targetExpected == Some(FileStat(t))
    && op.target == (if respelled then Parent(t.path) + [Last(f.path)] else t.path)
    && op.intended == Some(FileStat(if op.kind == Recase then t else f))
    && op.kind == (if !InStep(c, f, t) then Update else if respelled then Recase else Noop)
    && (if op.kind == Recase then op.prior == Some(t.path) && op.priorExpected == Some(FileStat(t)) else op.prior.None?)
  }

  function Last(path: Path): Name
    requires path != []
  {
    path[|path| - 1]
  }

  ghost predicate MovesAs(c: Inputs, f: FileRecord, pair: MappingPair, t: FileRecord, op: Operation) {
    && MovedFrom(c, f, pair, t) && op.kind == (if InStep(c, f, t) then Move else MoveUpdate)
    && op.prior == Some(pair.target) && op.priorExpected == Some(FileStat(t)) && op.target == f.path && op.targetExpected.None?
    && op.intended == Some(FileStat(f))
  }

  /** The decision about a source file. */
  ghost predicate Decides(c: Inputs, ops: seq<Operation>, f: FileRecord, op: Operation)
    requires f.path != [] && AllNamed(c)
  {
    if Ambiguous(c, f) then op.kind == Copy && op.blocked == Some(BlockedCaseCollision)
    else if Occupied(c, f) then op.kind == Copy && op.blocked == Some(BlockedTypeCollision)
    else if ParentBlocked(ops, f.path) then op.kind == Copy && op.blocked == Some(BlockedDependency)
    else
      && op.blocked.None? && op.source == Some(f.path) && op.sourceExpected == Some(FileStat(f))
      && (if exists t :: Counterpart(c, f, t) then forall t :: Counterpart(c, f, t) ==> Matches(c, f, t, op)
          else if exists pair, t :: MovedFrom(c, f, pair, t) then exists pair, t :: MovesAs(c, f, pair, t, op)
          else op.kind == Copy && op.target == f.path && op.targetExpected.None? && op.prior.None? && op.intended == Some(FileStat(f)))
  }

  lemma NearestBlockedAlike(c: Inputs, paths: seq<Path>, a: Operation, b: Operation)
    requires forall i :: 0 <= i < |paths| ==> paths[i] != []
    requires a in MakeDirectories(c, paths).ops && b in MakeDirectories(c, paths).ops && Fold(a.target) == Fold(b.target)
    ensures a.blocked.Some? <==> b.blocked.Some?
  {
    MkdirBlockedExactly(c, paths, a);
    MkdirBlockedExactly(c, paths, b);
  }

  /** What blocks a directory creation depends on its key only. */
  predicate MkdirStuck(c: Inputs, key: Key) {
    |DirsAt(SourceDirs(c), key)| != 1 || FilesAt(TargetFiles(c), key) != []
  }

  lemma {:induction false} MkdirBlockedExactly(c: Inputs, paths: seq<Path>, o: Operation)
    requires forall i :: 0 <= i < |paths| ==> paths[i] != []
    requires o in MakeDirectories(c, paths).ops
    ensures o.blocked.Some? <==> MkdirStuck(c, Fold(o.target))
    ensures o.target != [] && o.kind == Mkdir
  {
    var n := |paths| - 1;
    if o !in MakeDirectories(c, paths[..n]).ops {
      assert o == MkdirOperation(c, paths[n], MakeDirectories(c, paths[..n]).created);
    } else {
      MkdirBlockedExactly(c, paths[..n], o);
    }
  }

  /** The blocked parent that the planner looks at. */
  lemma ParentBlockedExactly(c: Inputs, path: Path)
    requires path != []
    ensures var r := NearestCreated(path, Directories(c).created);
            ParentBlocked(Directories(c).ops, path) <==> r.Some? && r.value.blocked.Some?
  {
    RequiredNonEmpty(c);
    var paths, made := RequiredDirectories(c), Directories(c);
    CreatedIsRegistered(c, paths);
    NearestExactly(made, path);
    var r := NearestCreated(path, made.created);
    if o :| Nearest(made.ops, path, o) && o.blocked.Some? {
      assert |o.target| == |r.value.target|;
      assert Fold(o.target) == Fold(path)[..|o.target|] == Fold(r.value.target);
      NearestBlockedAlike(c, paths, o, r.value);
    }
  }

  lemma WaitsExactly(c: Inputs, path: Path, op: Operation)
    requires path != [] && op.dependencies == DependsOn(NearestCreated(path, Directories(c).created))
    ensures WaitsForParent(Directories(c).ops, path, op)
  {
    RequiredNonEmpty(c);
    CreatedIsRegistered(c, RequiredDirectories(c));
    NearestExactly(Directories(c), path);
  }

  // -------------------------------------------------------------- the planner's own tests

  lemma SourcesExactly(c: Inputs, f: FileRecord)
    requires Distinct(c) && ShownSource(c, f)
    ensures var sources := FilesAt(SourceFiles(c), Fold(f.path));
            sources != [] && (|sources| > 1 <==> exists g :: ShownSource(c, g) && g != f && Fold(g.path) == Fold(f.path)) && (|sources| == 1 ==> sources[0] == f)
  {
    FilesDistinct(c);
    var p := (g: FileRecord) => Fold(g.path) == Fold(f.path);
    OneFiltered(SourceFiles(c), p, f);
    SharedKeyExactly(c, f, p);
  }

  lemma SharedKeyExactly(c: Inputs, f: FileRecord, p: FileRecord -> bool)
    requires ShownSource(c, f) && forall g :: p(g) <==> Fold(g.path) == Fold(f.path)
    ensures (forall y :: y in SourceFiles(c) && p(y) ==> y == f) <==> !exists g :: ShownSource(c, g) && g != f && Fold(g.path) == Fold(f.path)
  {
    if g :| ShownSource(c, g) && g != f && Fold(g.path) == Fold(f.path) {
      assert g in SourceFiles(c) && p(g);
    }
  }

  ghost predicate TwoOnTarget(c: Inputs, key: Key) {
    exists s, t :: ShownTarget(c, s) && ShownTarget(c, t) && s != t && Fold(s.path) == key && Fold(t.path) == key
  }

  lemma TargetsExactly(c: Inputs, key: Key)
    requires Distinct(c)
    ensures FilesAt(TargetFiles(c), key) == [] <==> !OnTarget(c, key)
    ensures |FilesAt(TargetFiles(c), key)| > 1 <==> TwoOnTarget(c, key)
  {
    var p := (t: FileRecord) => Fold(t.path) == key;
    NoneFiltered(TargetFiles(c), p);
    FilesDistinct(c);
    ManyFiltered(TargetFiles(c), p);
    if TwoOnTarget(c, key) {
      var s, t :| ShownTarget(c, s) && ShownTarget(c, t) && s != t && Fold(s.path) == key && Fold(t.path) == key;
      assert s in TargetFiles(c) && t in TargetFiles(c) && p(s) && p(t);
    }
    if |FilesAt(TargetFiles(c), key)| > 1 {
      var s, t :| s in TargetFiles(c) && t in TargetFiles(c) && p(s) && p(t) && s != t;
      assert ShownTarget(c, s) && ShownTarget(c, t);
    }
  }

  lemma SourceKeysExactly(c: Inputs, key: Key)
    ensures FilesAt(SourceFiles(c), key) == [] <==> !OnSource(c, key)
  {
    NoneFiltered(SourceFiles(c), (t: FileRecord) => Fold(t.path) == key);
  }

  lemma OccupiedExactly(c: Inputs, f: FileRecord)
    ensures DirsAt(TargetDirs(c), Fold(f.path)) != [] <==> Occupied(c, f)
  {
    NoneFiltered(TargetDirs(c), (d: DirRecord) => Fold(d.path) == Fold(f.path));
  }

  lemma InStepExactly(c: Inputs, f: FileRecord, t: FileRecord)
    ensures MetadataEqual(FileStat(f), FileStat(t), Granularity(c)) <==> InStep(c, f, t)
  {
  }

  /** The files that the planner holds against each other for a source file without a counterpart. */
  function LoneSources(c: Inputs, signature: (Path, string)): seq<FileRecord> {
    Filter(SourceFiles(c), (f: FileRecord) => f.path != [] && FilesAt(TargetFiles(c), Fold(f.path)) == [] && Signature(f.path) == signature)
  }

  function LoneTargets(c: Inputs, signature: (Path, string)): seq<FileRecord> {
    Filter(TargetFiles(c), (t: FileRecord) => t.path != [] && FilesAt(SourceFiles(c), Fold(t.path)) == [] && Signature(t.path) == signature)
  }

  lemma LoneSourcesExactly(c: Inputs, signature: (Path, string), f: FileRecord)
    requires Distinct(c)
    ensures LoneSources(c, signature) == [f] <==> LoneSource(c, signature, f) && forall g :: LoneSource(c, signature, g) ==> g == f
    ensures f in LoneSources(c, signature) <==> LoneSource(c, signature, f)
  {
    var p := (g: FileRecord) => g.path != [] && FilesAt(TargetFiles(c), Fold(g.path)) == [] && Signature(g.path) == signature;
    forall g: FileRecord
      ensures g in SourceFiles(c) && p(g) <==> LoneSource(c, signature, g)
    {
      TargetsExactly(c, Fold(g.path));
    }
    FilesDistinct(c);
    SoleFiltered(SourceFiles(c), p, f);
  }

  lemma LoneTargetsExactly(c: Inputs, signature: (Path, string), t: FileRecord)
    requires Distinct(c)
    ensures LoneTargets(c, signature) == [t] <==> LoneTarget(c, signature, t) && forall s :: LoneTarget(c, signature, s) ==> s == t
  {
    var q := (s: FileRecord) => s.path != [] && FilesAt(SourceFiles(c), Fold(s.path)) == [] && Signature(s.path) == signature;
    forall s: FileRecord
      ensures s in TargetFiles(c) && q(s) <==> LoneTarget(c, signature, s)
    {
      SourceKeysExactly(c, Fold(s.path));
    }
    FilesDistinct(c);
    SoleFiltered(TargetFiles(c), q, t);
  }

  /** The pick of one out of each list. */
  function Pick(desired: seq<FileRecord>, targets: seq<FileRecord>, path: Path): Option<FileRecord> {
    if |desired| == 1 && |targets| == 1 && path != targets[0].path then Some(targets[0]) else None
  }

  lemma TwinIsPicked(c: Inputs, f: FileRecord)
    requires f.path != [] && FilesAt(TargetFiles(c), Fold(f.path)) == []
    ensures NormalizationTwin(c, f) == Pick(LoneSources(c, Signature(f.path)), LoneTargets(c, Signature(f.path)), f.path)
  {
  }

  lemma PickExactly(desired: seq<FileRecord>, targets: seq<FileRecord>, f: FileRecord, t: FileRecord)
    requires f in desired
    ensures Pick(desired, targets, f.path) == Some(t) <==> desired == [f] && targets == [t] && f.path != t.path
  {
  }

  lemma TwinExactly(c: Inputs, f: FileRecord, t: FileRecord)
    requires Named(c) && Distinct(c) && ShownSource(c, f) && !OnTarget(c, Fold(f.path))
    ensures NormalizationTwin(c, f) == Some(t) <==> Twins(c, f, t)
  {
    var signature := Signature(f.path);
    TargetsExactly(c, Fold(f.path));
    TwinIsPicked(c, f);
    LoneSourcesExactly(c, signature, f);
    LoneTargetsExactly(c, signature, t);
    assert LoneSource(c, signature, f);
    PickExactly(LoneSources(c, signature), LoneTargets(c, signature), f, t);
  }

  // ---------------------------------------------------------------------- moves exactly

  lemma {:induction false} IndexFiltered<T(!new)>(xs: seq<T>, p: T -> bool, x: T)
    ensures Filter(xs, p) == [x] <==> OneIndex(xs, p, x)
  {
    if xs != [] {
      var n := |xs| - 1;
      assert xs == xs[..n] + [xs[n]];
      IndexFiltered(xs[..n], p, x);
      if p(xs[n]) {
        LastCounts(xs, p, x);
      } else {
        assert Filter(xs, p) == Filter(xs[..n], p);
        LastIsIdle(xs, p, x);
      }
    }
  }

  lemma LastCounts<T(!new)>(xs: seq<T>, p: T -> bool, x: T)
    requires xs != [] && p(xs[|xs| - 1]) && Filter(xs, p) == Filter(xs[..|xs| - 1], p) + [xs[|xs| - 1]]
    ensures Filter(xs, p) == [x] <==> OneIndex(xs, p, x)
  {
    var n := |xs| - 1;
    NoneFiltered(xs[..n], p);
    if Filter(xs[..n], p) == [] {
      assert NoOther(xs, p, n);
    } else {
      assert |Filter(xs, p)| > 1;
      var y :| y in xs[..n] && p(y);
      var k :| 0 <= k < n && xs[k] == y;
    }
  }

  lemma LastIsIdle<T(!new)>(xs: seq<T>, p: T -> bool, x: T)
    requires xs != [] && !p(xs[|xs| - 1])
    ensures OneIndex(xs[..|xs| - 1], p, x) <==> OneIndex(xs, p, x)
  {
    var front := xs[..|xs| - 1];
    if OneIndex(front, p, x) {
      var i :| 0 <= i < |front| && front[i] == x && p(x) && NoOther(front, p, i);
      assert xs[i] == x && NoOther(xs, p, i);
    }
    if OneIndex(xs, p, x) {
      var i :| 0 <= i < |xs| && xs[i] == x && p(x) && NoOther(xs, p, i);
      assert front[i] == x && NoOther(front, p, i);
    }
  }

  lemma SoleSourceExactly(c: Inputs, f: FileRecord)
    requires Distinct(c) && ShownSource(c, f) && f.identity.Some?
    ensures CountIdentity(SourceFiles(c), f.identity.value) == 1 <==> SoleSource(c, f)
  {
    FilesDistinct(c);
    var identity := f.identity.value;
    var p := (g: FileRecord) => g.identity == Some(identity);
    OneFiltered(SourceFiles(c), p, f);
    SoleMembers(SourceFiles(c), p, f);
    ShownMembers(c);
  }

  lemma SoleTargetExactly(c: Inputs, t: FileRecord)
    requires Distinct(c) && ShownTarget(c, t) && t.identity.Some?
    ensures CountIdentity(TargetFiles(c), t.identity.value) == 1 <==> SoleTarget(c, t)
  {
    FilesDistinct(c);
    var identity := t.identity.value;
    var p := (g: FileRecord) => g.identity == Some(identity);
    OneFiltered(TargetFiles(c), p, t);
    SoleMembers(TargetFiles(c), p, t);
    ShownMembers(c);
  }

  lemma SoleMembers(files: seq<FileRecord>, p: FileRecord -> bool, f: FileRecord)
    requires f.identity.Some? && forall g: FileRecord :: p(g) <==> g.identity == f.identity
    ensures (forall y :: y in files && p(y) ==> y == f) <==> (forall g :: g in files && g.identity == f.identity ==> g == f)
  {
  }

  lemma FoundExactly(c: Inputs, key: Key, t: FileRecord)
    requires Distinct(c)
    ensures FilesAt(TargetFiles(c), key) == [t] <==> OnlyOnTarget(c, key, t)
  {
    FilesDistinct(c);
    var p := (s: FileRecord) => Fold(s.path) == key;
    SoleFiltered(TargetFiles(c), p, t);
    SoleMeansOnly(c, key, p, t);
  }

  lemma SoleMeansOnly(c: Inputs, key: Key, p: FileRecord -> bool, t: FileRecord)
    requires forall s :: p(s) <==> Fold(s.path) == key
    ensures SoleIn(TargetFiles(c), p, t) <==> OnlyOnTarget(c, key, t)
  {
    if OnlyOnTarget(c, key, t) {
      forall s | s in TargetFiles(c) && p(s)
        ensures s == t
      {
        assert ShownTarget(c, s);
      }
    }
    if SoleIn(TargetFiles(c), p, t) {
      forall s | ShownTarget(c, s) && Fold(s.path) == key
        ensures s == t
      {
        assert s in TargetFiles(c) && p(s);
      }
    }
  }

  function PairsOf(c: Inputs, identity: Identity): seq<MappingPair> {
    Filter(c.mapping.pairs, (p: MappingPair) => p.sourceIdentity == identity)
  }

  /** The planner's search, with its counts. */
  lemma MoveSearch(c: Inputs, f: FileRecord, pair: MappingPair, t: FileRecord)
    ensures MovePair(c, f) == Some((pair, t)) <==>
            && Vouched(c, f) && CountIdentity(SourceFiles(c), f.identity.value) == 1
            && PairsOf(c, f.identity.value) == [pair]
            && Fold(pair.target) != Fold(f.path) && FilesAt(SourceFiles(c), Fold(pair.target)) == []
            && FilesAt(TargetFiles(c), Fold(pair.target)) == [t]
            && Recognized(c, pair, t) && CountIdentity(TargetFiles(c), t.identity.value) == 1
  {
    if Vouched(c, f) {
      var candidates := PairsOf(c, f.identity.value);
      assert |candidates| == 1 ==> candidates == [candidates[0]];
      if |candidates| == 1 {
        var found := FilesAt(TargetFiles(c), Fold(candidates[0].target));
        assert |found| == 1 ==> found == [found[0]];
      }
    }
  }

  /** A file is moved rather than copied exactly where the correspondence vouches for its old place. */
  lemma MoveExactly(c: Inputs, f: FileRecord, pair: MappingPair, t: FileRecord)
    requires Distinct(c) && ShownSource(c, f)
    ensures MovePair(c, f) == Some((pair, t)) <==> MovedFrom(c, f, pair, t)
  {
    MoveSearch(c, f, pair, t);
    if f.identity.Some? {
      SoleSourceExactly(c, f);
      IndexFiltered(c.mapping.pairs, (p: MappingPair) => p.sourceIdentity == f.identity.value, pair);
    }
    SourceKeysExactly(c, Fold(pair.target));
    FoundExactly(c, Fold(pair.target), t);
    if ShownTarget(c, t) && t.identity.Some? {
      SoleTargetExactly(c, t);
    }
  }

  // ------------------------------------------------------------------- all decisions

  lemma MatchDecides(c: Inputs, f: FileRecord, t: FileRecord, mismatch: bool, dependencies: seq<OpId>)
    requires f.path != [] && t.path != [] && (mismatch ==> Fold(t.path) != Fold(f.path)) && (!mismatch ==> Fold(t.path) == Fold(f.path))
    ensures var op := MatchedOperation(c, f, f, t, mismatch, dependencies);
            && Matches(c, f, t, op) && op.blocked.None? && op.source == Some(f.path) && op.sourceExpected == Some(FileStat(f)) && op.dependencies == dependencies
  {
    InStepExactly(c, f, t);
    if f.path != t.path && Fold(f.path) == Fold(t.path) && Last(f.path) == Last(t.path) {
      assert |f.path| == |t.path|;
    }
  }

  /** A file that has its counterpart on the target. */
  lemma CounterpartExactly(c: Inputs, f: FileRecord, t: FileRecord)
    requires Named(c) && Distinct(c) && ShownSource(c, f) && !Ambiguous(c, f)
    ensures var direct, twin := FilesAt(TargetFiles(c), Fold(f.path)), NormalizationTwin(c, f);
            Counterpart(c, f, t) <==> (if direct == [] then twin == Some(t) else direct == [t])
  {
    TargetsExactly(c, Fold(f.path));
    FoundExactly(c, Fold(f.path), t);
    if !OnTarget(c, Fold(f.path)) {
      TwinExactly(c, f, t);
    } else if Counterpart(c, f, t) {
      assert ShownTarget(c, t) && Fold(t.path) == Fold(f.path);
      forall s | ShownTarget(c, s) && Fold(s.path) == Fold(f.path)
        ensures s == t
      {
        assert !TwoOnTarget(c, Fold(f.path));
      }
    }
  }

  ghost predicate AllNamed(c: Inputs) {
    forall t :: ShownTarget(c, t) ==> t.path != []
  }

  lemma BlockedDecides(c: Inputs, f: FileRecord)
    requires Named(c) && Distinct(c) && ShownSource(c, f) && (Ambiguous(c, f) || Occupied(c, f))
    ensures var op := ContentOperation(c, Directories(c).created, f);
            op.kind == Copy && op.blocked == Some(if Ambiguous(c, f) then BlockedCaseCollision else BlockedTypeCollision)
  {
    SourcesExactly(c, f);
    TargetsExactly(c, Fold(f.path));
    OccupiedExactly(c, f);
  }

  function Waits(c: Inputs, f: FileRecord): seq<OpId>
    requires f.path != []
  {
    DependsOn(NearestCreated(f.path, Directories(c).created))
  }

  ghost predicate Open(c: Inputs, f: FileRecord)
    requires f.path != []
  {
    ShownSource(c, f) && !Ambiguous(c, f) && !Occupied(c, f) && !ParentBlocked(Directories(c).ops, f.path)
  }

  /** What the planner finds where nothing is in the way. */
  lemma OpenFacts(c: Inputs, f: FileRecord)
    requires Named(c) && Distinct(c) && f.path != [] && Open(c, f)
    ensures FilesAt(SourceFiles(c), Fold(f.path)) == [f] && |FilesAt(TargetFiles(c), Fold(f.path))| <= 1 && DirsAt(TargetDirs(c), Fold(f.path)) == []
    ensures var parent := NearestCreated(f.path, Directories(c).created); parent.None? || parent.value.blocked.None?
    ensures FilesAt(TargetFiles(c), Fold(f.path)) != [] ==> FilesAt(TargetFiles(c), Fold(f.path))[0].path != []
    ensures NormalizationTwin(c, f).Some? ==> NormalizationTwin(c, f).value.path != []
  {
    SourcesExactly(c, f);
    SingleIs(FilesAt(SourceFiles(c), Fold(f.path)));
    TargetsExactly(c, Fold(f.path));
    OccupiedExactly(c, f);
    ParentBlockedExactly(c, f.path);
    TwinIsTarget(c, f);
    var direct := FilesAt(TargetFiles(c), Fold(f.path));
    if direct != [] {
      assert direct[0] in direct;
    }
  }

  /** The targets that are looked at, and whether they differ in normalization. */
  function Facing(c: Inputs, f: FileRecord): (seq<FileRecord>, bool) {
    var direct, twin := FilesAt(TargetFiles(c), Fold(f.path)), NormalizationTwin(c, f);
    if direct == [] && twin.Some? then ([twin.value], true) else (direct, false)
  }

  lemma ContentUnfolds(c: Inputs, f: FileRecord)
    requires Named(c) && f in SourceFiles(c) && FilesAt(SourceFiles(c), Fold(f.path)) != []
    ensures f.path != [] && forall t :: t in Facing(c, f).0 ==> t.path != []
    ensures ContentOperation(c, Directories(c).created, f) ==
            Decision(c, f, FilesAt(SourceFiles(c), Fold(f.path)), Facing(c, f).0, Facing(c, f).1, DirsAt(TargetDirs(c), Fold(f.path)),
                     NearestCreated(f.path, Directories(c).created))
  {
    TwinIsTarget(c, f);
  }

  /** Where nothing is in the way, what is done depends on the counterpart. */
  lemma OpenShape(c: Inputs, f: FileRecord)
    requires Named(c) && Distinct(c) && f.path != [] && Open(c, f)
    ensures var direct, twin := FilesAt(TargetFiles(c), Fold(f.path)), NormalizationTwin(c, f);
            && (direct != [] ==> direct[0].path != [] && |direct| == 1)
            && (direct == [] && twin.Some? ==> twin.value.path != [])
            && ContentOperation(c, Directories(c).created, f) ==
               (if direct != [] then MatchedOperation(c, f, f, direct[0], false, Waits(c, f))
                else if twin.Some? then MatchedOperation(c, f, f, twin.value, true, Waits(c, f))
                else UnmatchedOperation(c, f, f, Waits(c, f)))
  {
    OpenFacts(c, f);
    ContentUnfolds(c, f);
    OpenDecision(c, f, Facing(c, f).0, Facing(c, f).1, DirsAt(TargetDirs(c), Fold(f.path)), NearestCreated(f.path, Directories(c).created));
  }

  lemma OpenDecision(c: Inputs, f: FileRecord, targets: seq<FileRecord>, mismatch: bool, dirs: seq<DirRecord>, parent: Option<Operation>)
    requires f.path != [] && |targets| <= 1 && (forall t :: t in targets ==> t.path != []) && dirs == [] && (parent.None? || parent.value.blocked.None?)
    ensures targets != [] ==> targets[0].path != []
    ensures Decision(c, f, [f], targets, mismatch, dirs, parent) ==
            if targets != [] then MatchedOperation(c, f, f, targets[0], mismatch, DependsOn(parent)) else UnmatchedOperation(c, f, f, DependsOn(parent))
  {
    if targets != [] {
      assert targets[0] in targets;
    }
  }

  lemma OneCounterpart(c: Inputs, f: FileRecord, s: FileRecord, t: FileRecord)
    requires Named(c) && Distinct(c) && ShownSource(c, f) && !Ambiguous(c, f) && Counterpart(c, f, s) && Counterpart(c, f, t)
    ensures s == t
  {
    CounterpartExactly(c, f, s);
    CounterpartExactly(c, f, t);
  }

  lemma MatchedDecides(c: Inputs, f: FileRecord, t: FileRecord)
    requires Named(c) && Distinct(c) && f.path != [] && Open(c, f)
    requires Counterpart(c, f, t) && t.path != []
    ensures var op := ContentOperation(c, Directories(c).created, f);
            op.blocked.None? && op.source == Some(f.path) && op.sourceExpected == Some(FileStat(f)) && Matches(c, f, t, op)
  {
    OpenShape(c, f);
    CounterpartExactly(c, f, t);
    var mismatch := FilesAt(TargetFiles(c), Fold(f.path)) == [];
    if mismatch {
      TwinApart(c, f, t);
    } else {
      DirectKey(c, f, t);
    }
    MatchDecides(c, f, t, mismatch, Waits(c, f));
  }

  lemma TwinApart(c: Inputs, f: FileRecord, t: FileRecord)
    requires Named(c) && Distinct(c) && ShownSource(c, f) && FilesAt(TargetFiles(c), Fold(f.path)) == [] && Counterpart(c, f, t)
    ensures Fold(t.path) != Fold(f.path)
  {
    TargetsExactly(c, Fold(f.path));
  }

  lemma DirectKey(c: Inputs, f: FileRecord, t: FileRecord)
    requires Named(c) && Distinct(c) && ShownSource(c, f) && FilesAt(TargetFiles(c), Fold(f.path)) == [t]
    ensures Fold(t.path) == Fold(f.path)
  {
    assert t in FilesAt(TargetFiles(c), Fold(f.path));
  }

  lemma UnmatchedDecides(c: Inputs, f: FileRecord)
    requires Named(c) && Distinct(c) && f.path != [] && Open(c, f)
    requires forall t :: !Counterpart(c, f, t)
    ensures ContentOperation(c, Directories(c).created, f) == UnmatchedOperation(c, f, f, Waits(c, f))
  {
    OpenShape(c, f);
    var direct, twin := FilesAt(TargetFiles(c), Fold(f.path)), NormalizationTwin(c, f);
    if direct != [] {
      SingleIs(direct);
      CounterpartExactly(c, f, direct[0]);
    } else if twin.Some? {
      CounterpartExactly(c, f, twin.value);
    }
  }

  lemma SingleIs(xs: seq<FileRecord>)
    requires |xs| == 1
    ensures xs == [xs[0]]
  {
  }

  lemma MoveDecides(c: Inputs, f: FileRecord, dependencies: seq<OpId>)
    requires Distinct(c) && ShownSource(c, f)
    ensures var op := UnmatchedOperation(c, f, f, dependencies);
            && op.blocked.None? && op.source == Some(f.path) && op.sourceExpected == Some(FileStat(f))
            && (if exists pair, t :: MovedFrom(c, f, pair, t) then exists pair, t :: MovesAs(c, f, pair, t, op)
                else op.kind == Copy && op.target == f.path && op.targetExpected.None? && op.prior.None? && op.intended == Some(FileStat(f)))
  {
    var move := MovePair(c, f);
    if move.Some? {
      MoveExactly(c, f, move.value.0, move.value.1);
      MovedDecides(c, f, move.value.0, move.value.1, dependencies);
    } else if pair, t :| MovedFrom(c, f, pair, t) {
      MoveExactly(c, f, pair, t);
    }
  }

  lemma MovedDecides(c: Inputs, f: FileRecord, pair: MappingPair, t: FileRecord, dependencies: seq<OpId>)
    requires MovePair(c, f) == Some((pair, t)) && MovedFrom(c, f, pair, t)
    ensures MovesAs(c, f, pair, t, UnmatchedOperation(c, f, f, dependencies))
  {
    InStepExactly(c, f, t);
  }

  lemma ContentDecides(c: Inputs, f: FileRecord)
    requires Named(c) && Distinct(c) && AllNamed(c) && ShownSource(c, f)
    ensures Decides(c, Directories(c).ops, f, ContentOperation(c, Directories(c).created, f))
  {
    ParentBlockedExactly(c, f.path);
    if Ambiguous(c, f) || Occupied(c, f) {
      BlockedDecides(c, f);
    } else if ParentBlocked(Directories(c).ops, f.path) {
      SourcesExactly(c, f);
      TargetsExactly(c, Fold(f.path));
      OccupiedExactly(c, f);
    } else if t :| Counterpart(c, f, t) {
      MatchedDecides(c, f, t);
      forall s | Counterpart(c, f, s)
        ensures s == t
      {
        OneCounterpart(c, f, s, t);
      }
    } else {
      UnmatchedDecides(c, f);
      MoveDecides(c, f, Waits(c, f));
    }
  }

  lemma ContentBuildsNothing(c: Inputs, o: Operation)
    requires Named(c) && o in Content(c)
    ensures o.kind != Mkdir
  {
    var i :| 0 <= i < |Content(c)| && Content(c)[i] == o;
    assert SourceFiles(c)[i] in SourceFiles(c);
    ContentKind(c, Directories(c).created, SourceFiles(c)[i]);
  }

  lemma OthersBuildNothing(c: Inputs, o: Operation)
    requires Named(c) && (o in Removals(c) || o in UnsupportedOperations(UnsupportedPaths(c)) || o in Cleanups(c))
    ensures o.kind != Mkdir
  {
    if o in Removals(c) {
      var f :| f in TargetFiles(c) && Extra(c, Content(c), f) && o == RemovalOperation(c, f);
    } else if o in Cleanups(c) {
      var d, prior := CleanupOrigin(c, Content(c), Vacating(c), DirsByHeight(c), o);
    }
  }

  lemma OnlyDirectoriesBuild(c: Inputs, o: Operation)
    requires Named(c)
    ensures o in Arranged(c) && o.kind == Mkdir <==> o in Directories(c).ops
  {
    RequiredNonEmpty(c);
    MkdirsListed(c, RequiredDirectories(c));
    if o in Content(c) {
      ContentBuildsNothing(c, o);
    }
    if o in Removals(c) || o in UnsupportedOperations(UnsupportedPaths(c)) || o in Cleanups(c) {
      OthersBuildNothing(c, o);
    }
  }

  lemma NearestInPlan(c: Inputs, path: Path, o: Operation)
    requires Named(c)
    ensures Nearest(Arranged(c), path, o) <==> Nearest(Directories(c).ops, path, o)
  {
    forall q
      ensures q in Arranged(c) && q.kind == Mkdir <==> q in Directories(c).ops
    {
      OnlyDirectoriesBuild(c, q);
    }
    RequiredNonEmpty(c);
    MkdirsListed(c, RequiredDirectories(c));
  }

  lemma PlannedFor(n: Inputs, f: FileRecord) returns (op: Operation)
    requires Named(n) && Distinct(n) && AllNamed(n) && ShownSource(n, f)
    ensures op in Arranged(n) && Decides(n, Directories(n).ops, f, op) && WaitsForParent(Directories(n).ops, f.path, op)
  {
    var i :| 0 <= i < |SourceFiles(n)| && SourceFiles(n)[i] == f;
    op := Content(n)[i];
    ContentDecides(n, f);
    ContentId(n, Directories(n).created, f);
    WaitsExactly(n, f.path, op);
  }

  /** What a plan does about a source file that is not filtered, and what that waits for: decided by the two scans,
      the correspondence and the policies as stated.  `n` are the same inputs with their records in order. */
  lemma DecisionExactly(c: Inputs, f: FileRecord) returns (op: Operation, n: Inputs)
    requires Named(c) && Distinct(c) && ShownSource(c, f)
    ensures n == Canonicalized(c) && Named(n) && AllNamed(n) && f.path != []
    ensures op in Plan(c) && Decides(n, Plan(c), f, op) && WaitsForParent(Plan(c), f.path, op)
  {
    n := Canonicalized(c);
    CanonicalNamed(c);
    CanonicalDistinct(c.source);
    CanonicalDistinct(c.target);
    op := PlannedFor(n, f);
    forall o
      ensures Nearest(Plan(c), f.path, o) <==> Nearest(Directories(n).ops, f.path, o)
    {
      NearestInPlan(n, f.path, o);
    }
    DecidesAlike(n, Directories(n).ops, Plan(c), f, op);
  }

  lemma DecidesAlike(c: Inputs, a: seq<Operation>, b: seq<Operation>, f: FileRecord, op: Operation)
    requires f.path != [] && AllNamed(c) && forall o :: Nearest(b, f.path, o) <==> Nearest(a, f.path, o)
    requires Decides(c, a, f, op) && WaitsForParent(a, f.path, op)
    ensures Decides(c, b, f, op) && WaitsForParent(b, f.path, op)
  {
    assert ParentBlocked(a, f.path) <==> ParentBlocked(b, f.path);
  }

  // ------------------------------------------------------------------ directories exactly

  ghost predicate SourceDirectory(c: Inputs, key: Key, d: DirRecord) {
    d in c.source.dirs && d.path != [] && !Excludes(c.options, d.path) && Fold(d.path) == key
  }

  /** A directory can be created where the target shows no file and the source has exactly one directory. */
  ghost predicate Buildable(c: Inputs, key: Key) {
    !OnTarget(c, key) && exists d :: SourceDirectory(c, key, d) && forall e :: SourceDirectory(c, key, e) ==> e == d
  }

  lemma DirsDistinct(c: Inputs)
    requires Distinct(c)
    ensures NoRepeats(SourceDirs(c))
  {
    FilterNoRepeats(c.source.dirs, (d: DirRecord) => d.path != [] && !Excludes(c.options, d.path));
  }

  lemma DirsExactly(c: Inputs, key: Key, d: DirRecord)
    requires Distinct(c)
    ensures DirsAt(SourceDirs(c), key) == [d] <==> SourceDirectory(c, key, d) && forall e :: SourceDirectory(c, key, e) ==> e == d
  {
    DirsDistinct(c);
    var p := (e: DirRecord) => Fold(e.path) == key;
    SoleFiltered(SourceDirs(c), p, d);
    forall e: DirRecord
      ensures e in SourceDirs(c) && p(e) <==> SourceDirectory(c, key, e)
    {
    }
  }

  lemma BuildableExactly(c: Inputs, key: Key)
    requires Distinct(c)
    ensures Buildable(c, key) <==> !MkdirStuck(c, key)
  {
    NoneFiltered(TargetFiles(c), (t: FileRecord) => Fold(t.path) == key);
    var dirs := DirsAt(SourceDirs(c), key);
    if |dirs| == 1 {
      assert dirs == [dirs[0]];
      DirsExactly(c, key, dirs[0]);
    }
    if Buildable(c, key) {
      var d :| SourceDirectory(c, key, d) && forall e :: SourceDirectory(c, key, e) ==> e == d;
      DirsExactly(c, key, d);
    }
  }

  /** A free directory creation makes what the source's directory is. */
  lemma {:induction false} MkdirStat(c: Inputs, paths: seq<Path>, o: Operation)
    requires (forall i :: 0 <= i < |paths| ==> paths[i] != []) && o in MakeDirectories(c, paths).ops && o.blocked.None?
    ensures var dirs := DirsAt(SourceDirs(c), Fold(o.target));
            |dirs| == 1 && o.intended == Some(DirStat(dirs[0])) && o.sourceExpected == o.intended && o.source == Some(dirs[0].path)
  {
    var n := |paths| - 1;
    if o in MakeDirectories(c, paths[..n]).ops {
      MkdirStat(c, paths[..n], o);
    } else {
      assert o == MkdirOperation(c, paths[n], MakeDirectories(c, paths[..n]).created);
    }
  }

  /** A directory creation is free to run exactly where it can be built, and then intends what the source's
      one directory of its key is. */
  lemma MkdirExactly(c: Inputs, op: Operation) returns (n: Inputs)
    requires Named(c) && Distinct(c) && op in Plan(c) && op.kind == Mkdir
    ensures n == Canonicalized(c) && (op.blocked.None? <==> Buildable(n, Fold(op.target)))
    ensures op.blocked.None? ==> forall d :: SourceDirectory(n, Fold(op.target), d) ==> op.intended == Some(DirStat(d)) && op.source == Some(d.path)
  {
    n := Canonicalized(c);
    CanonicalNamed(c);
    CanonicalDistinct(c.source);
    CanonicalDistinct(c.target);
    OnlyDirectoriesBuild(n, op);
    RequiredNonEmpty(n);
    MkdirBlockedExactly(n, RequiredDirectories(n), op);
    BuildableExactly(n, Fold(op.target));
    if op.blocked.None? {
      IntendsSource(n, op);
    }
  }

  lemma IntendsSource(n: Inputs, op: Operation)
    requires op in Directories(n).ops && op.blocked.None?
    ensures forall d :: SourceDirectory(n, Fold(op.target), d) ==> op.intended == Some(DirStat(d)) && op.source == Some(d.path)
  {
    RequiredNonEmpty(n);
    MkdirStat(n, RequiredDirectories(n), op);
    forall d | SourceDirectory(n, Fold(op.target), d)
      ensures op.intended == Some(DirStat(d)) && op.source == Some(d.path)
    {
      OnlyDirectory(n, Fold(op.target), d);
    }
  }

  lemma OnlyDirectory(c: Inputs, key: Key, d: DirRecord)
    requires SourceDirectory(c, key, d)
    ensures d in DirsAt(SourceDirs(c), key) && (|DirsAt(SourceDirs(c), key)| == 1 ==> DirsAt(SourceDirs(c), key)[0] == d)
  {
    assert d in SourceDirs(c);
  }

  /** Every directory above a source file that is not filtered is on the target already or planned. */
  lemma AncestorIsPlanned(c: Inputs, f: FileRecord, p: Path)
    requires Named(c) && ShownSource(c, f) && p != [] && Beneath(f.path, p)
    ensures (exists e :: e in c.target.dirs && Fold(e.path) == Fold(p)) || (exists op :: op in Plan(c) && op.kind == Mkdir && op.target == p)
  {
    var n := Canonicalized(c);
    CanonicalNamed(c);
    assert f in SourceFiles(n);
    AncestorIsRequired(n, f, p);
    RequiredNonEmpty(n);
    MkdirsListed(n, RequiredDirectories(n));
    var there := DirsAt(TargetDirs(n), Fold(p));
    if there != [] {
      assert there[0] in there && there[0] in c.target.dirs;
    } else {
      var op :| op in Directories(n).ops && op.target == p;
      assert op in Plan(c);
    }
  }
}
