/** Scanning a target after a clean run and planning again: what is found to do, and exactly when nothing is. */
module Replan {
  import opened Paths
  import opened Model
  import opened Scans
  import opened Planner
  import opened Mirror
  import opened Convergence
  import opened ContentStage
  import opened MirrorTheorem
  import opened Volume
  import opened Effects
  import opened Steps
  import opened Safety
  import opened Refinement

  // ------------------------------------------------------------------ the later scan

  /** The scanner records size, time and the whole attribute word of a file; the name has the
      spelling the plan gave it, which the keyed volume does not hold. */
  predicate RecordedAs(g: FileRecord, w: World, t: Tree) {
    var key := Fold(g.path);
    && g.path != [] && HasFile(w, Live(key))
    && var o := w.files[w.entries[Live(key)].id];
    && g.size == |o.bytes| && g.mtime == o.mtime && g.metadata.attributes == o.metadata.attributes
    && key in t && t[key].FileNode? && t[key].path != [] && Last(g.path) == Last(t[key].path)
  }

  /** A later scan of the volume. */
  ghost predicate Rescanned(rescan: Scan, w: World, t: Tree) {
    && WellFormed(rescan) && rescan.unsupported == [] && MirrorsKeys(rescan, w)
    && forall g :: g in rescan.files ==> RecordedAs(g, w, t)
  }

  /** The tree that a plan yields. */
  ghost function ResultTree(c: Inputs): Tree
    requires Clean(c) && AllOpen(Plan(c))
  {
    var t := ApplyAll(Plan(c), TreeOf(c.target));
    if t.Some? then t.value else map[]
  }

  /** A read-only source file whose counterpart has lost its read-only bit. */
  predicate Stripped(w: World, f: FileRecord) {
    var p := Live(Fold(f.path));
    f.metadata.attributes.readonly && HasFile(w, p) && !w.files[w.entries[p].id].metadata.attributes.readonly
  }

  /** A file that was copied although its other attribute bits are not those of a new file, or one that has
      lost its read-only bit. */
  predicate Outdated(copied: set<Key>, w: World, f: FileRecord) {
    (Fold(f.path) in copied && f.metadata.attributes.others != w.newBits) || Stripped(w, f)
  }

  lemma RescanAligned(c: Inputs, w: World, t: Tree, rescan: Scan, mapping: Mapping)
    requires WellFormed(c.source) && c.source.unsupported == [] && MirrorsKeys(c.source, w)
    requires Mirrors(c.source, Granularity(c), c.options.propagateCasing, t) && Rescanned(rescan, w, t)
    ensures Aligned(Again(c, rescan, mapping))
  {
    var again := Again(c, rescan, mapping);
    forall f | f in c.source.files
      ensures HasCounterpart(again, f)
    {
      var key := Fold(f.path);
      assert FileKey(c.source, key) && FileKey(rescan, key);
      assert Reflects(f, Lookup(t, key), Granularity(c), c.options.propagateCasing);
      assert RecordedAs(FileWith(rescan, key).value, w, t);
    }
    forall k
      ensures DirKey(c.source, k) <==> DirKey(rescan, k)
      ensures FileKey(rescan, k) ==> FileKey(c.source, k)
    {
    }
  }

  /** After a clean run a file is up to date in the eyes of the planner unless it was copied with other
      bits than a new file has or has lost its read-only bit. */
  lemma CurrentExactly(c: Inputs, w: World, t: Tree, copied: set<Key>, rescan: Scan, mapping: Mapping, f: FileRecord)
    requires Depicted(w, t, copied, false) && f in c.source.files
    requires Mirrors(c.source, Granularity(c), c.options.propagateCasing, t) && Rescanned(rescan, w, t)
    requires rescan.profile.granularity == c.target.profile.granularity && HasCounterpart(Again(c, rescan, mapping), f)
    ensures Current(Again(c, rescan, mapping), f) <==> !Outdated(copied, w, f)
  {
    var key := Fold(f.path);
    var g := FileWith(rescan, key).value;
    assert RecordedAs(g, w, t);
    assert Reflects(f, Lookup(t, key), Granularity(c), c.options.propagateCasing);
    assert ShowsAt(w, key, Lookup(t, key), key in copied, false);
  }

  /** No read-only bit is lost when nothing in the plan can take one. */
  lemma NoneStripped(c: Inputs, w: World, t: Tree, copied: set<Key>, f: FileRecord)
    requires Depicted(w, t, copied, true) && f in c.source.files && Mirrors(c.source, Granularity(c), c.options.propagateCasing, t)
    ensures !Stripped(w, f)
  {
    var key := Fold(f.path);
    assert Reflects(f, Lookup(t, key), Granularity(c), c.options.propagateCasing);
    assert ShowsAt(w, key, Lookup(t, key), key in copied, true);
  }

  /** What planning again after a clean run finds: one operation per source file, which updates exactly
      the outdated ones.  So planning again is quiet if and only if every copied source file has the
      other attribute bits that the volume gives to new files and no read-only bit was lost. */
  lemma ReplanAfterRun(c: Inputs, w: World, rescan: Scan, mapping: Mapping)
    requires Clean(c) && AllOpen(Plan(c)) && Realized(c, w, false) && Rescanned(rescan, w, ResultTree(c))
    requires rescan.profile.granularity == c.target.profile.granularity
    ensures var again := Again(c, rescan, mapping); Named(again) && |Plan(again)| == |c.source.files|
    ensures var again := Again(c, rescan, mapping);
            Named(again) && forall i :: 0 <= i < |Plan(again)| ==> Refreshes(CopyKeys(Plan(c)), w, Plan(again)[i], Canonical(c.source).files[i])
    ensures Quiet(Plan(Again(c, rescan, mapping))) <==> forall f :: f in c.source.files ==> !Outdated(CopyKeys(Plan(c)), w, f)
  {
    var t := PlanConverges(c);
    var again := Again(c, rescan, mapping);
    RealizedMirrors(c, w, false);
    SourceSupported(c);
    AgainOrderly(c, rescan, mapping);
    RescanAligned(c, w, t, rescan, mapping);
    AlignedPlan(again);
    var ops, files, copied := Plan(again), Canonical(c.source).files, CopyKeys(Plan(c));
    forall i | 0 <= i < |ops|
      ensures Refreshes(copied, w, ops[i], files[i])
    {
      assert files[i] in files && Answers(again, ops[i], files[i]);
      CurrentExactly(c, w, t, copied, rescan, mapping, files[i]);
    }
    QuietExactly(copied, w, ops, files);
  }

  /** A plan that is realized closely has cost no source file's counterpart its read-only bit. */
  lemma CloselyStripsNothing(c: Inputs, w: World)
    requires Clean(c) && AllOpen(Plan(c)) && Realized(c, w, true)
    ensures forall f :: f in c.source.files ==> !Stripped(w, f)
  {
    var t := PlanConverges(c);
    forall f | f in c.source.files
      ensures !Stripped(w, f)
    {
      NoneStripped(c, w, t, CopyKeys(Plan(c)), f);
    }
  }

  /** The operation updates the file exactly if it is outdated, and does nothing otherwise. */
  predicate Refreshes(copied: set<Key>, w: World, op: Operation, f: FileRecord) {
    op.blocked.None? && Fold(op.target) == Fold(f.path) && op.kind == if Outdated(copied, w, f) then Update else Noop
  }

  lemma QuietExactly(copied: set<Key>, w: World, ops: seq<Operation>, files: seq<FileRecord>)
    requires |ops| == |files| && forall i :: 0 <= i < |ops| ==> Refreshes(copied, w, ops[i], files[i])
    ensures Quiet(ops) <==> forall f :: f in files ==> !Outdated(copied, w, f)
  {
    if Quiet(ops) {
      forall f | f in files
        ensures !Outdated(copied, w, f)
      {
        var i :| 0 <= i < |files| && files[i] == f;
        assert ops[i] in ops && Refreshes(copied, w, ops[i], files[i]);
      }
    } else {
      var op :| op in ops && !(op.kind == Noop && op.blocked.None?);
      var i :| 0 <= i < |ops| && ops[i] == op;
      assert Refreshes(copied, w, ops[i], files[i]) && files[i] in files;
    }
  }

  // --------------------------------------------------------- a file that is copied every time

  /** One source file at the top, and an empty target. */
  ghost predicate Lone(c: Inputs, f: FileRecord) {
    && c.source.files == [f] && c.source.dirs == [] && c.source.unsupported == []
    && c.target.files == [] && c.target.dirs == [] && c.target.unsupported == [] && c.mapping.pairs == []
    && |f.path| == 1 && f.identity == None && (forall k :: !c.options.matches(k)) && c.options.deletion != Additive
  }

  /** A one-byte file with the given other attribute bits. */
  function LoneFile(bits: nat): FileRecord {
    FileRecord([Name("a", "A", "a")], 1, 5, None, 1, Metadata(Attributes(false, false, false, bits), None))
  }

  function LoneInputs(f: FileRecord): (c: Inputs)
    ensures |f.path| == 1 && f.identity == None ==> Lone(c, f)
  {
    var empty := Scan([], [], [], Profile(0, false, false), None);
    Inputs(empty.(files := [f]), empty, Mapping(None, None, [], {}, {}, {}), Options(TrashExtras, true, false, (k: Key) => false))
  }

  lemma LoneClean(c: Inputs, f: FileRecord)
    requires Lone(c, f)
    ensures Clean(c)
  {
    assert f in c.source.files;
    assert FileKey(c.source, Fold(f.path));
  }

  lemma LoneCanonical(c: Inputs, f: FileRecord)
    requires Lone(c, f)
    ensures Lone(Canonicalized(c), f)
  {
    var files := Canonical(c.source).files;
    SomeMember(files);
    assert files[0] in files;
    SomeMember(Canonical(c.source).dirs);
    SomeMember(Canonical(c.source).unsupported);
    SomeMember(Canonical(c.target).files);
    SomeMember(Canonical(c.target).dirs);
    SomeMember(Canonical(c.target).unsupported);
  }

  lemma LoneParts(c: Inputs, f: FileRecord)
    requires Lone(c, f) && Clean(c)
    ensures SourceFiles(c) == [f] && TargetFiles(c) == [] && TargetDirs(c) == [] && Directories(c) == Made([], map[])
  {
    KeepsAll(c.source.files, (f: FileRecord) => !Excludes(c.options, f.path));
    SomeMember(TargetFiles(c));
    SomeMember(TargetDirs(c));
    var paths := RequiredDirectories(c);
    if paths != [] {
      assert paths[0] in paths;
      var d, g := RequiredOrigin(c, paths[0]);
    }
  }

  lemma LoneContent(c: Inputs, f: FileRecord)
    requires Lone(c, f) && Clean(c)
    ensures Content(c) == [UnmatchedOperation(c, f, f, [])]
  {
    LoneParts(c, f);
    assert f in SourceFiles(c);
    SourcesAreOne(c, f);
    SomeMember(FilesAt(TargetFiles(c), Fold(f.path)));
    SomeMember(DirsAt(TargetDirs(c), Fold(f.path)));
    TwinIsDirect(c, f);
    assert ContentOperation(c, map[], f) == UnmatchedOperation(c, f, f, []);
  }

  /** The copy of a file to its own path. */
  predicate CopiesFile(op: Operation, f: FileRecord) {
    && op.kind == Copy && op.blocked.None? && op.source == Some(f.path) && op.target == f.path
    && op.sourceExpected == Some(FileStat(f)) && op.intended == Some(FileStat(f))
  }

  /** The plan of a lone file, seen without the inputs it was made from. */
  ghost predicate LonePlanned(c: Inputs, f: FileRecord) {
    && Clean(c) && AllOpen(Plan(c)) && |Plan(c)| == 1 && CopiesFile(Plan(c)[0], f)
    && TreeOf(c.target) == map[] && Canonical(c.source).files == [f]
  }

  lemma LonePlan(c: Inputs, f: FileRecord)
    requires Lone(c, f)
    ensures LonePlanned(c, f)
  {
    var n := Canonicalized(c);
    LoneClean(c, f);
    LoneCanonical(c, f);
    LoneClean(n, f);
    LoneParts(n, f);
    LoneContent(n, f);
    SomeMember(Removals(n));
    NothingUnsupportedPlanned(n);
    assert Cleanups(n) == [];
    assert Plan(c) == [UnmatchedOperation(n, f, f, [])];
  }

  /** The copy of a lone file is achieved on an empty volume. */
  lemma LoneCopied(s: Setup, op: Operation, w: World, o: FileObject)
    requires op.kind == Copy && Intends(op) && w.entries == map[] && w.files == map[]
    requires NewContent(s, op) == Some(o.bytes) && o.mtime == op.intended.value.mtime
    requires o.metadata == op.intended.value.metadata.(attributes := op.intended.value.metadata.attributes.(others := w.newBits))
    ensures Accomplished(s, op, w, Created(w, TargetPlace(op), o))
  {
    var target, v := TargetPlace(op), Created(w, TargetPlace(op), o);
    CreatedSteady(w, target, o);
    SteadyRefl(v, {TempPlace(s, op)});
    SteadyTransitive(w, v, v, {target}, {TempPlace(s, op)});
    assert {target} + {TempPlace(s, op)} == {target, TempPlace(s, op)};
  }

  /** The tree of the lone file's plan has the file, with its own stat. */
  lemma LoneApplied(ops: seq<Operation>, f: FileRecord, base: Tree)
    requires |ops| == 1 && CopiesFile(ops[0], f) && |f.path| == 1 && Fold(f.path) !in base
    ensures ApplyAll(ops, base) == Some(base[Fold(f.path) := FileNode(f.path, FileStat(f))])
  {
    assert ops[..|ops| - 1] == [];
  }

  lemma LoneKeys(ops: seq<Operation>, f: FileRecord)
    requires |ops| == 1 && CopiesFile(ops[0], f)
    ensures CopyKeys(ops) == {Fold(f.path)}
  {
    assert ops[0] in ops;
  }

  lemma LoneTree(c: Inputs, f: FileRecord, t: Tree)
    requires LonePlanned(c, f) && |f.path| == 1 && t == map[Fold(f.path) := FileNode(f.path, FileStat(f))]
    ensures ResultTree(c) == t && CopyKeys(Plan(c)) == {Fold(f.path)}
  {
    LoneApplied(Plan(c), f, TreeOf(c.target));
    LoneKeys(Plan(c), f);
  }

  lemma LoneRescanned(g: FileRecord, w: World, t: Tree, rescan: Scan)
    requires rescan.files == [g] && rescan.dirs == [] && rescan.unsupported == [] && |g.path| == 1
    requires w.entries.Keys == {Live(Fold(g.path))} && RecordedAs(g, w, t)
    ensures Rescanned(rescan, w, t)
  {
    assert g in rescan.files;
    assert FileKey(rescan, Fold(g.path));
  }

  lemma EmptyDepicted(w: World)
    requires w.entries == map[]
    ensures Depicted(w, map[], {}, true)
  {
  }

  lemma LoneHarmless(s: Setup, ops: seq<Operation>, f: FileRecord)
    requires |ops| == 1 && CopiesFile(ops[0], f)
    ensures AllHarmless(s, ops)
  {
  }

  lemma LoneCarried(s: Setup, ops: seq<Operation>, f: FileRecord, w: World, v: World, o: FileObject)
    requires |ops| == 1 && CopiesFile(ops[0], f) && w.entries == map[] && w.files == map[] && v == Created(w, Live(Fold(f.path)), o)
    requires Fold(f.path) in s.source && s.source[Fold(f.path)] == SourceFile(o.bytes, FileStat(f)) && o.mtime == f.mtime
    requires o.metadata == f.metadata.(attributes := f.metadata.attributes.(others := w.newBits))
    ensures Carried(s, ops, [w, v])
  {
    LoneCopied(s, ops[0], w, o);
    var ws := [w, v];
    forall i | 0 <= i < |ops|
      ensures Step(s, ops, ws, i)
    {
      assert ws[i] == w && ws[i + 1] == v;
    }
  }

  /** The lone file's plan, achieved from an empty volume. */
  lemma LoneRun(c: Inputs, s: Setup, w: World, v: World)
    requires Clean(c) && AllOpen(Plan(c)) && |Plan(c)| == 1 && SourceSound(s) && Carried(s, Plan(c), [w, v])
    requires w.entries == map[] && TreeOf(c.target) == map[] && AllHarmless(s, Plan(c))
    ensures Realized(c, v, true)
  {
    EmptyDepicted(w);
    AchievedPlanRealized(c, s, [w, v], true);
  }

  lemma LoneAgain(c: Inputs, f: FileRecord, w: World, rescan: Scan, mapping: Mapping) returns (op: Operation)
    requires LonePlanned(c, f) && |f.path| == 1 && Realized(c, w, true) && Rescanned(rescan, w, ResultTree(c))
    requires rescan.profile.granularity == c.target.profile.granularity && f.metadata.attributes.others != w.newBits
    ensures Named(Again(c, rescan, mapping)) && op in Plan(Again(c, rescan, mapping)) && op.kind == Update && op.blocked.None?
  {
    LoneTree(c, f, map[Fold(f.path) := FileNode(f.path, FileStat(f))]);
    DepictedLoosely(w, ResultTree(c), CopyKeys(Plan(c)), false);
    ReplanAfterRun(c, w, rescan, mapping);
    LoneSource(c, f);
    var ops := Plan(Again(c, rescan, mapping));
    op := ops[0];
    assert Refreshes(CopyKeys(Plan(c)), w, ops[0], Canonical(c.source).files[0]);
  }

  lemma LoneSource(c: Inputs, f: FileRecord)
    requires Canonical(c.source).files == [f]
    ensures |c.source.files| == 1
  {
  }

  lemma LoneShown(f: FileRecord, o: FileObject, w: World, t: Tree, rescan: Scan)
    requires |f.path| == 1 && f.size == |o.bytes| && f.mtime == o.mtime && t == map[Fold(f.path) := FileNode(f.path, FileStat(f))]
    requires w.entries == map[] && w.files == map[]
    requires rescan.files == [f.(metadata := o.metadata)] && rescan.dirs == [] && rescan.unsupported == []
    ensures Rescanned(rescan, Created(w, Live(Fold(f.path)), o), t)
  {
    LoneRescanned(f.(metadata := o.metadata), Created(w, Live(Fold(f.path)), o), t, rescan);
  }

  /** For any two different words of other attribute bits there is a source with one file, whose plan
      is achieved on an empty volume and leaves a file that the next plan updates. */
  lemma OtherBitsUpdateAgain(bits: nat, newBits: nat, mapping: Mapping)
    returns (c: Inputs, s: Setup, w0: World, w1: World, rescan: Scan, op: Operation)
    requires bits != newBits
    ensures Clean(c) && AllOpen(Plan(c)) && SourceSound(s) && AllHarmless(s, Plan(c)) && Depicted(w0, TreeOf(c.target), {}, true) && w0.newBits == newBits
    ensures Carried(s, Plan(c), [w0, w1]) && Rescanned(rescan, w1, ResultTree(c))
    ensures Named(Again(c, rescan, mapping)) && op in Plan(Again(c, rescan, mapping)) && op.kind == Update && op.blocked.None?
  {
    var f := LoneFile(bits);
    c := LoneInputs(f);
    LonePlan(c, f);
    s, w0 := LoneSetup(f), World(map[], map[], 0, newBits);
    w1 := Created(w0, Live(Fold(f.path)), CopyOf(f, newBits));
    EmptyDepicted(w0);
    LoneFirst(c, f, s, w0, w1);
    rescan, op := LoneSecond(c, f, w0, w1, mapping);
  }

  /** What a one-byte file becomes when it is copied. */
  function CopyOf(f: FileRecord, newBits: nat): FileObject {
    FileObject([0], f.mtime, f.metadata.(attributes := f.metadata.attributes.(others := newBits)))
  }

  function LoneSetup(f: FileRecord): (s: Setup)
    ensures f.size == 1 ==> SourceSound(s)
  {
    Setup("run", "serial", true, false, false, false, map[Fold(f.path) := SourceFile([0], FileStat(f))])
  }

  /** Copy a lone file onto an empty volume. */
  lemma LoneFirst(c: Inputs, f: FileRecord, s: Setup, w0: World, w1: World)
    requires LonePlanned(c, f) && f.size == 1 && s == LoneSetup(f)
    requires w0.entries == map[] && w0.files == map[] && w1 == Created(w0, Live(Fold(f.path)), CopyOf(f, w0.newBits))
    ensures Carried(s, Plan(c), [w0, w1]) && Realized(c, w1, true) && AllHarmless(s, Plan(c))
  {
    LoneHarmless(s, Plan(c), f);
    LoneCarried(s, Plan(c), f, w0, w1, CopyOf(f, w0.newBits));
    LoneRun(c, s, w0, w1);
  }

  /** Scan and plan again. */
  lemma LoneSecond(c: Inputs, f: FileRecord, w0: World, w1: World, mapping: Mapping) returns (rescan: Scan, op: Operation)
    requires LonePlanned(c, f) && |f.path| == 1 && f.size == 1 && f.metadata.attributes.others != w0.newBits
    requires w0.entries == map[] && w0.files == map[] && w1 == Created(w0, Live(Fold(f.path)), CopyOf(f, w0.newBits)) && Realized(c, w1, true)
    requires c.target.dirs == [] && c.target.unsupported == []
    ensures Rescanned(rescan, w1, ResultTree(c))
    ensures Named(Again(c, rescan, mapping)) && op in Plan(Again(c, rescan, mapping)) && op.kind == Update && op.blocked.None?
  {
    rescan := c.target.(files := [f.(metadata := CopyOf(f, w0.newBits).metadata)]);
    var t := map[Fold(f.path) := FileNode(f.path, FileStat(f))];
    LoneTree(c, f, t);
    LoneShown(f, CopyOf(f, w0.newBits), w0, t, rescan);
    op := LoneAgain(c, f, w1, rescan, mapping);
  }
}
