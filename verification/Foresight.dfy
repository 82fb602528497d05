/** What a passed judgement is worth: evidence, footing and room for the run that follows. */
module Foresight {
  import opened Paths
  import opened Model
  import opened Volume
  import opened Effects
  import opened Safety
  import opened Scans
  import opened Selection
  import opened Preflight

  // --------------------------------------------------------- the judge's and the executor's evidence

  ghost predicate Passes(seen: Option<Observation>, expected: Option<Stat>, side: Side, granularity: nat) {
    forall code :: !Drifted(code, seen, expected, side, granularity)
  }

  predicate Usable(seen: Option<Observation>) {
    seen.Some? && !seen.value.error && seen.value.contained && seen.value.representable
  }

  /** The judge's test by way of the executor's matcher: it is the same but for the time, which the judge
      lets differ by the granularity and the executor does not. */
  lemma PassesExactly(seen: Option<Observation>, expected: Option<Stat>, side: Side, granularity: nat)
    ensures Passes(seen, expected, side, granularity) <==>
            && Usable(seen)
            && (expected.None? <==> seen.value.stat.None?)
            && (expected.Some? ==>
                  && MatchesExpected(seen.value.stat.value.(mtime := expected.value.mtime), expected.value)
                  && !Apart(seen.value.stat.value.mtime, expected.value.mtime, granularity))
  {
    if Passes(seen, expected, side, granularity) {
      assert !Drifted(ObservationUnavailable, seen, expected, side, granularity);
      assert !Drifted(PathEscape, seen, expected, side, granularity);
      assert !Drifted(PathUnrepresentable, seen, expected, side, granularity);
      assert !Drifted(DestinationAppeared, seen, expected, side, granularity);
      assert !Drifted(if side == SourceSide then SourceDrifted else TargetDrifted, seen, expected, side, granularity);
      assert !Drifted(TypeChanged, seen, expected, side, granularity);
      assert !Drifted(IdentityChanged, seen, expected, side, granularity);
      assert !Drifted(SizeChanged, seen, expected, side, granularity);
      assert !Drifted(MtimeChanged, seen, expected, side, granularity);
      assert !Drifted(Code.MetadataChanged, seen, expected, side, granularity);
    }
  }

  /** All the subjects of an operation passed. */
  ghost predicate Passed(x: ExecutionSet, observed: ObservedWorld, op: Operation) {
    forall c :: c in Checks(x, op) ==> Passes(Seen(observed, c.0), c.1, c.0.side, c.2)
  }

  /** In a set of which nothing is refused, every operation still to be run has passed. */
  lemma AcceptedPasses(x: ExecutionSet, observed: ObservedWorld, op: Operation)
    requires (forall r :: !Refused(x, observed, r)) && op in Left(x)
    ensures Passed(x, observed, op)
  {
    forall c, code | c in Checks(x, op)
      ensures !Drifted(code, Seen(observed, c.0), c.1, c.0.side, c.2)
    {
      assert !Refused(x, observed, Refusal(code, Some(op.id), Some(c.0), None));
    }
  }

  /** What was observed is what the operation finds when it begins. */
  ghost predicate Current(observed: ObservedWorld, s: Setup, w: World) {
    && (forall key :: Subject(TargetSide, key) in observed.stats ==> observed.stats[Subject(TargetSide, key)].stat == StatAt(w, s.serial, Live(key)))
    && (forall key :: Subject(SourceSide, key) in observed.stats ==>
                        observed.stats[Subject(SourceSide, key)].stat == if key in s.source then Some(s.source[key].stat) else None)
  }

  predicate CleansUp(op: Operation) {
    op.kind == Delete && op.targetExpected.Some? && op.targetExpected.value.kind == DirectoryEntry && op.reason == DirectoryCleanup
  }

  predicate Timely(actual: Option<Stat>, expected: Option<Stat>) {
    actual.Some? && expected.Some? && actual.value.mtime == expected.value.mtime
  }

  /** The times the executor will compare are exactly the reviewed ones. */
  predicate OnTime(s: Setup, op: Operation, w: World)
    requires Complete(op)
  {
    && (ReadsSource(op.kind) ==> Fold(op.source.value) in s.source && Timely(Some(s.source[Fold(op.source.value)].stat), op.sourceExpected))
    && (op.kind in {Update, Trash, Noop} || (op.kind == Delete && !CleansUp(op)) ==> Timely(StatAt(w, s.serial, TargetPlace(op)), op.targetExpected))
    && (op.kind in {Move, MoveUpdate, Recase} ==> Timely(StatAt(w, s.serial, Live(Fold(op.prior.value))), op.priorExpected))
  }

  lemma CheckPassed(x: ExecutionSet, observed: ObservedWorld, op: Operation, c: (Subject, Option<Stat>, nat))
    requires Passed(x, observed, op) && c in Checks(x, op)
    ensures c.0 in observed.stats && (c.1.None? <==> observed.stats[c.0].stat.None?)
    ensures c.1.Some? ==> MatchesExpected(observed.stats[c.0].stat.value.(mtime := c.1.value.mtime), c.1.value)
    ensures c.1.Some? && c.2 == 0 ==> observed.stats[c.0].stat.value.mtime == c.1.value.mtime
  {
    PassesExactly(Seen(observed, c.0), c.1, c.0.side, c.2);
  }

  lemma TargetPassed(x: ExecutionSet, observed: ObservedWorld, s: Setup, op: Operation, w: World)
    requires Sound(w) && Passed(x, observed, op) && Current(observed, s, w)
    ensures var actual := StatAt(w, s.serial, TargetPlace(op));
            if op.targetExpected.None? then TargetPlace(op) !in w.entries
            else && actual.Some? && MatchesExpected(actual.value.(mtime := op.targetExpected.value.mtime), op.targetExpected.value)
                 && (x.targetGranularity == 0 ==> Timely(actual, op.targetExpected))
  {
    var c := (Subject(TargetSide, Fold(op.target)), op.targetExpected, x.targetGranularity);
    assert c in Checks(x, op);
    CheckPassed(x, observed, op, c);
  }

  lemma PriorPassed(x: ExecutionSet, observed: ObservedWorld, s: Setup, op: Operation, w: World)
    requires Passed(x, observed, op) && Current(observed, s, w) && op.prior.Some? && op.priorExpected.Some?
    ensures var actual := StatAt(w, s.serial, Live(Fold(op.prior.value)));
            && actual.Some? && MatchesExpected(actual.value.(mtime := op.priorExpected.value.mtime), op.priorExpected.value)
            && (x.targetGranularity == 0 ==> Timely(actual, op.priorExpected))
  {
    var c := (Subject(TargetSide, Fold(op.prior.value)), op.priorExpected, x.targetGranularity);
    assert c in Checks(x, op);
    CheckPassed(x, observed, op, c);
  }

  lemma SourcePassed(x: ExecutionSet, observed: ObservedWorld, s: Setup, op: Operation, w: World)
    requires Passed(x, observed, op) && Current(observed, s, w) && op.source.Some? && op.sourceExpected.Some?
    ensures Fold(op.source.value) in s.source
    ensures var actual := s.source[Fold(op.source.value)].stat;
            && MatchesExpected(actual.(mtime := op.sourceExpected.value.mtime), op.sourceExpected.value)
            && (x.sourceGranularity == 0 ==> Timely(Some(actual), op.sourceExpected))
  {
    var c := (Subject(SourceSide, Fold(op.source.value)), op.sourceExpected, x.sourceGranularity);
    assert c in Checks(x, op);
    CheckPassed(x, observed, op, c);
  }

  /** An operation that passed, on observations that are still true when it begins, has the evidence
      that the executor asks for if and only if the times are exact. */
  lemma PassedIsEvidence(x: ExecutionSet, observed: ObservedWorld, s: Setup, op: Operation, w: World)
    requires Sound(w) && Complete(op) && Passed(x, observed, op) && Current(observed, s, w)
    ensures Evidenced(s, op, w) <==> OnTime(s, op, w)
    ensures x.sourceGranularity == 0 && x.targetGranularity == 0 ==> OnTime(s, op, w)
  {
    TargetPassed(x, observed, s, op, w);
    if op.kind in {Move, MoveUpdate, Recase} {
      PriorPassed(x, observed, s, op, w);
    }
    if ReadsSource(op.kind) {
      SourcePassed(x, observed, s, op, w);
    }
  }

  /** Drift within the granularity is let through by the judge and stopped by the executor: the operation
      leaves the volume as it was and is not achieved. */
  lemma LateIsStopped(x: ExecutionSet, observed: ObservedWorld, s: Setup, op: Operation, w: World, v: World)
    requires Sound(w) && Complete(op) && Passed(x, observed, op) && Current(observed, s, w)
    requires !OnTime(s, op, w) && During(s, op, w, v)
    ensures v == w && !Achieved(s, op, w, v)
  {
    PassedIsEvidence(x, observed, s, op, w);
    DuringIsJustified(s, op, w, v);
  }

  function TickedOperation(kind: OperationKind, path: Path, reviewed: Stat): (op: Operation)
    ensures op.kind == kind && op.target == path && op.targetExpected == Some(reviewed) && op.prior.None?
    ensures op.blocked.None? && op.dependencies == [] && op.source == (if kind == Noop then Some(path) else None)
    ensures kind == Noop ==> op.sourceExpected == Some(reviewed)
  {
    if kind == Noop
    then Operation(OpId(Noop, Some(path), path, None, MetadataMatch), Noop, Some(path), path, Some(reviewed), Some(reviewed), None, None, None, 0, [], MetadataMatch, None)
    else Operation(OpId(kind, None, path, None, TargetOnly), kind, None, path, None, Some(reviewed), None, None, None, 0, [], TargetOnly, None)
  }

  /** A file that is one tick younger than reviewed: with a granularity of one tick the judge refuses
      nothing about a set that trashes it, or that finds nothing to do about it. */
  lemma TickIsTolerated(kind: OperationKind) returns (x: ExecutionSet, observed: ObservedWorld, s: Setup, op: Operation, w: World)
    requires kind in {Trash, Noop}
    ensures Sound(w) && Complete(op) && op.kind == kind && Left(x) == [op]
    ensures forall r :: !Refused(x, observed, r)
    ensures Current(observed, s, w) && !OnTime(s, op, w)
  {
    var path := [Name("a", "A", "a")];
    var key, plain := Fold(path), Metadata(Attributes(false, false, false, 0), None);
    var found := Stat(FileEntry, 0, 6, Some(Identity("serial", 0)), 1, plain);
    var reviewed := found.(mtime := 5);
    op := TickedOperation(kind, path, reviewed);
    s := Setup("run", "serial", true, false, false, false, map[key := SourceFile([], reviewed)]);
    w := World(map[Live(key) := File(0)], map[0 := FileObject([], 6, plain)], 1, 0);
    var volume := VolumeId("serial", "");
    var root := Some(RootObservation(true, Some(volume), false, false));
    var subject, origin := Subject(TargetSide, key), Subject(SourceSide, key);
    x := ExecutionSet(Reviewed([op], true, true), {op.id}, map[], s, Some(volume), Some(volume), 0, 1);
    observed := ObservedWorld(map[subject := Observation(Some(found), false, true, true), origin := Observation(Some(reviewed), false, true, true)],
                              map[subject := path, origin := path], root, root, false, Some(0), 0,
                              Some(TrashObservation(true, true, true, true, true)), true, true, false);
    LoneFileStat(w, "serial", key, plain);
    SeenIsCurrent(observed, s, w, key, found, reviewed);
    TickRefusesNothing(x, observed, op, found);
  }

  lemma SeenIsCurrent(observed: ObservedWorld, s: Setup, w: World, key: Key, found: Stat, reviewed: Stat)
    requires observed.stats == map[Subject(TargetSide, key) := Observation(Some(found), false, true, true),
                                   Subject(SourceSide, key) := Observation(Some(reviewed), false, true, true)]
    requires StatAt(w, s.serial, Live(key)) == Some(found) && s.source == map[key := SourceFile([], reviewed)]
    ensures Current(observed, s, w)
  {
  }

  lemma TickRefusesNothing(x: ExecutionSet, observed: ObservedWorld, op: Operation, found: Stat)
    requires x.plan == Reviewed([op], true, true) && x.selection == {op.id} && x.status == map[] && Settled(x, observed)
    requires op.blocked.None? && op.dependencies == [] && !CopiesContent(op.kind) && op.prior.None? && LoneTargets(observed, op)
    requires op.source.Some? ==> op.source.value == op.target && op.sourceExpected == op.targetExpected
    requires found.mtime > 0 && op.targetExpected == Some(found.(mtime := found.mtime - 1)) && x.targetGranularity == 1
    requires Seen(observed, Subject(TargetSide, Fold(op.target))) == Some(Observation(Some(found), false, true, true))
    requires Seen(observed, Subject(SourceSide, Fold(op.target))) == Some(Observation(op.targetExpected, false, true, true))
    ensures Left(x) == [op] && forall r :: !Refused(x, observed, r)
  {
    OneLeft(x, op);
    OneRefused(x, observed, op);
    TickPasses(x, observed, op, found);
  }

  lemma TickPasses(x: ExecutionSet, observed: ObservedWorld, op: Operation, found: Stat)
    requires op.prior.None? && found.mtime > 0 && op.targetExpected == Some(found.(mtime := found.mtime - 1)) && x.targetGranularity == 1
    requires op.source.Some? ==> op.source.value == op.target && op.sourceExpected == op.targetExpected
    requires Seen(observed, Subject(TargetSide, Fold(op.target))) == Some(Observation(Some(found), false, true, true))
    requires Seen(observed, Subject(SourceSide, Fold(op.target))) == Some(Observation(op.targetExpected, false, true, true))
    ensures forall r :: !Contradicted(x, observed, op, r)
  {
    forall c | c in Checks(x, op)
      ensures Passes(Seen(observed, c.0), c.1, c.0.side, c.2)
    {
      PassesExactly(Seen(observed, c.0), c.1, c.0.side, c.2);
    }
  }

  /** A directory about to be cleaned up, for which the judge is the stricter of the two: with the
      executor's evidence it passes if and only if its time is near and its link count is the reviewed one. */
  lemma CleanupPasses(x: ExecutionSet, observed: ObservedWorld, s: Setup, op: Operation, w: World)
    requires CleansUp(op) && op.source.None? && op.prior.None? && Evidenced(s, op, w) && Current(observed, s, w)
    requires Usable(Seen(observed, Subject(TargetSide, Fold(op.target))))
    ensures var actual, expected := StatAt(w, s.serial, TargetPlace(op)).value, op.targetExpected.value;
            Passed(x, observed, op) <==> !Apart(actual.mtime, expected.mtime, x.targetGranularity) && actual.nlink == expected.nlink
  {
    var subject := Subject(TargetSide, Fold(op.target));
    assert Checks(x, op) == [(subject, op.targetExpected, x.targetGranularity)];
    PassesExactly(Seen(observed, subject), op.targetExpected, TargetSide, x.targetGranularity);
    assert (subject, op.targetExpected, x.targetGranularity) in Checks(x, op);
  }

  /** The time of a directory is renewed when its last child is removed: the executor would still remove it,
      and the judge of a resumed set refuses. */
  lemma ChurnIsRefused() returns (x: ExecutionSet, observed: ObservedWorld, s: Setup, op: Operation, w: World)
    ensures Sound(w) && Complete(op) && CleansUp(op) && Left(x) == [op] && IsEmptyDirectory(w, TargetPlace(op))
    ensures Current(observed, s, w) && Evidenced(s, op, w)
    ensures forall r :: Refused(x, observed, r) <==> r == Refusal(MtimeChanged, Some(op.id), Some(Subject(TargetSide, Fold(op.target))), None)
  {
    var path := [Name("a", "A", "a")];
    var key, plain := Fold(path), Metadata(Attributes(false, false, false, 0), None);
    var found := Stat(DirectoryEntry, 0, 9, None, 1, plain);
    op := Operation(OpId(Delete, None, path, None, DirectoryCleanup), Delete, None, path, None, Some(found.(mtime := 5)), None, None, None, 0, [], DirectoryCleanup, None);
    s := Setup("run", "serial", true, false, false, false, map[]);
    w := World(map[Live(key) := Directory(found)], map[], 0, 0);
    var volume := VolumeId("serial", "");
    var root := Some(RootObservation(true, Some(volume), false, false));
    var subject := Subject(TargetSide, key);
    x := ExecutionSet(Reviewed([op], true, true), {op.id}, map[], s, Some(volume), Some(volume), 0, 1);
    observed := ObservedWorld(map[subject := Observation(Some(found), false, true, true)], map[subject := path], root, root, false, Some(0), 0,
                              Some(TrashObservation(true, true, true, true, true)), true, true, false);
    OneLeft(x, op);
    OneRefused(x, observed, op);
    LateRefusal(x, observed, op, found);
  }

  lemma LateRefusal(x: ExecutionSet, observed: ObservedWorld, op: Operation, found: Stat)
    requires op.source.None? && op.prior.None? && op.targetExpected == Some(found.(mtime := 5)) && found.mtime == 9 && x.targetGranularity == 1
    requires Seen(observed, Subject(TargetSide, Fold(op.target))) == Some(Observation(Some(found), false, true, true))
    ensures forall r :: Contradicted(x, observed, op, r) <==> r == Refusal(MtimeChanged, Some(op.id), Some(Subject(TargetSide, Fold(op.target))), None)
  {
    var c := (Subject(TargetSide, Fold(op.target)), op.targetExpected, x.targetGranularity);
    assert Checks(x, op) == [c] && c in Checks(x, op);
  }

  lemma OneLeft(x: ExecutionSet, op: Operation)
    requires x.plan.ops == [op] && x.selection == {op.id} && x.status == map[]
    ensures Left(x) == [op]
  {
    assert [op][..0] == [] && Remaining([], x.selection, x.status) == [];
    assert Remaining([op], x.selection, x.status) == Remaining([op][..0], x.selection, x.status) + [op];
  }

  predicate LoneTargets(observed: ObservedWorld, op: Operation) {
    forall s :: s in observed.paths ==> s.key == Fold(op.target)
  }

  /** Of a lone operation without dependencies, with everything else in order, only the observations of
      its own subjects can be refused. */
  lemma OneRefused(x: ExecutionSet, observed: ObservedWorld, op: Operation)
    requires x.plan == Reviewed([op], true, true) && Left(x) == [op] && op.blocked.None? && op.dependencies == [] && !CopiesContent(op.kind)
    requires LoneTargets(observed, op) && Settled(x, observed)
    ensures forall r :: Refused(x, observed, r) <==> Contradicted(x, observed, op, r)
  {
    forall r
      ensures Refused(x, observed, r) <==> Contradicted(x, observed, op, r)
    {
      NothingOwn(x, op, r);
      NothingRequired(x.setup, op);
      NothingInTheWorld(x, observed, r.code);
      if r.subject.Some? {
        NothingAbove(x, observed, op, r.code, r.subject.value);
      }
      assert op in Left(x);
    }
  }

  /** Roots, settings, space and trash are all in order. */
  predicate Settled(x: ExecutionSet, observed: ObservedWorld) {
    && RootInOrder(x.sourceVolume, observed.sourceRoot) && RootInOrder(x.targetVolume, observed.targetRoot) && !observed.rootsOverlap
    && observed.filtersUnchanged && observed.policyUnchanged && !observed.settingsError && observed.freeSpace.Some?
    && observed.trash == Some(TrashObservation(true, true, true, true, true))
  }

  predicate RootInOrder(expected: Option<VolumeId>, root: Option<RootObservation>) {
    expected.Some? && root == Some(RootObservation(true, expected, false, false))
  }

  lemma NothingOwn(x: ExecutionSet, op: Operation, r: Refusal)
    requires x.plan == Reviewed([op], true, true) && op.blocked.None? && op.dependencies == []
    ensures !Warranted(x, op, r)
  {
    assert BlockedTargets([op]) == {} && BlockedSources([op]) == {};
  }

  lemma NothingRequired(s: Setup, op: Operation)
    requires !CopiesContent(op.kind)
    ensures RequiredBytes(s, [op]) == 0
  {
    assert [op][..0] == [] && RequiredBytes(s, []) == 0;
  }

  lemma NothingInTheWorld(x: ExecutionSet, observed: ObservedWorld, code: Code)
    requires Settled(x, observed) && RequiredBytes(x.setup, Left(x)) == 0
    ensures !WorldRefused(code, x, observed)
  {
  }

  lemma NothingAbove(x: ExecutionSet, observed: ObservedWorld, op: Operation, code: Code, s: Subject)
    requires op in Left(x) && LoneTargets(observed, op)
    ensures !ParentRefused(x, observed, s, code)
  {
    if s in observed.paths {
      assert Direct(x, s);
    }
  }

  lemma LoneFileStat(w: World, serial: string, key: Key, plain: Metadata)
    requires w == World(map[Live(key) := File(0)], map[0 := FileObject([], 6, plain)], 1, 0)
    ensures Sound(w) && StatAt(w, serial, Live(key)) == Some(Stat(FileEntry, 0, 6, Some(Identity(serial, 0)), 1, plain))
  {
    var links := set q | q in w.entries && w.entries[q] == File(0);
    assert links == {Live(key)};
    assert Live(key) in w.entries;
  }

  // --------------------------------------------------------------------------- footing

  /** A path of the target, and the directory it needs unless it is at the top. */
  predicate NeedsPath(path: Path, needed: Path) {
    needed == path || (|path| > 1 && needed == Parent(path))
  }

  predicate NeedsOnTarget(op: Operation, needed: Path) {
    NeedsPath(op.target, needed) || (op.prior.Some? && NeedsPath(op.prior.value, needed))
  }

  /** What has to be observed for an operation: its source, its target paths and their parents. */
  predicate Concerns(op: Operation, subject: Subject, path: Path) {
    && subject.key == Fold(path)
    && if subject.side == SourceSide then op.source == Some(path) else NeedsOnTarget(op, path)
  }

  ghost predicate Covers(ops: seq<Operation>, paths: map<Subject, Path>) {
    && (forall op, path :: op in ops && NeedsOnTarget(op, path) ==> Subject(TargetSide, Fold(path)) in paths)
    && (forall op :: op in ops && op.source.Some? ==> Subject(SourceSide, Fold(op.source.value)) in paths)
    && (forall s :: s in paths ==> exists op :: op in ops && Concerns(op, s, paths[s]))
  }

  /** Record a target path; with `keep`, only where nothing is recorded yet. */
  function WithPath(paths: map<Subject, Path>, path: Path, keep: bool): map<Subject, Path> {
    var subject := Subject(TargetSide, Fold(path));
    if keep && subject in paths then paths else paths[subject := path]
  }

  function WithTarget(paths: map<Subject, Path>, path: Path): map<Subject, Path> {
    var own := WithPath(paths, path, false);
    if |path| > 1 then WithPath(own, Parent(path), true) else own
  }

  /** The subjects to be observed for the remaining operations; a parent never displaces a path that is
      recorded already. */
  method Subjects(ops: seq<Operation>) returns (paths: map<Subject, Path>)
    ensures Covers(ops, paths)
  {
    paths := map[];
    for i := 0 to |ops|
      invariant Covers(ops[..i], paths)
    {
      ghost var before := paths;
      var op := ops[i];
      if op.source.Some? {
        paths := paths[Subject(SourceSide, Fold(op.source.value)) := op.source.value];
      }
      paths := WithTarget(paths, op.target);
      if op.prior.Some? {
        paths := WithTarget(paths, op.prior.value);
      }
      CoversNext(ops, i, before, paths);
    }
    assert ops[..|ops|] == ops;
  }

  /** The subjects of one more operation. */
  function WithOperation(paths: map<Subject, Path>, op: Operation): map<Subject, Path> {
    var a := if op.source.Some? then paths[Subject(SourceSide, Fold(op.source.value)) := op.source.value] else paths;
    var b := WithTarget(a, op.target);
    if op.prior.Some? then WithTarget(b, op.prior.value) else b
  }

  /** The entry was there already, or it is a path that is needed for `path`. */
  predicate FromPath(paths: map<Subject, Path>, path: Path, s: Subject, found: Path) {
    (s in paths && found == paths[s]) || (s.side == TargetSide && s.key == Fold(found) && NeedsPath(path, found))
  }

  lemma WithTargetFacts(paths: map<Subject, Path>, path: Path)
    ensures paths.Keys <= WithTarget(paths, path).Keys
    ensures forall needed :: NeedsPath(path, needed) ==> Subject(TargetSide, Fold(needed)) in WithTarget(paths, path)
    ensures forall s :: s in WithTarget(paths, path) ==> FromPath(paths, path, s, WithTarget(paths, path)[s])
  {
  }

  predicate FromOperation(paths: map<Subject, Path>, op: Operation, s: Subject, found: Path) {
    (s in paths && found == paths[s]) || Concerns(op, s, found)
  }

  lemma WithOperationFacts(paths: map<Subject, Path>, op: Operation)
    ensures paths.Keys <= WithOperation(paths, op).Keys
    ensures forall needed :: NeedsOnTarget(op, needed) ==> Subject(TargetSide, Fold(needed)) in WithOperation(paths, op)
    ensures op.source.Some? ==> Subject(SourceSide, Fold(op.source.value)) in WithOperation(paths, op)
    ensures forall s :: s in WithOperation(paths, op) ==> FromOperation(paths, op, s, WithOperation(paths, op)[s])
  {
    var a := if op.source.Some? then paths[Subject(SourceSide, Fold(op.source.value)) := op.source.value] else paths;
    WithTargetFacts(a, op.target);
    if op.prior.Some? {
      WithTargetFacts(WithTarget(a, op.target), op.prior.value);
    }
  }

  lemma CoversNext(ops: seq<Operation>, i: nat, before: map<Subject, Path>, after: map<Subject, Path>)
    requires i < |ops| && Covers(ops[..i], before) && after == WithOperation(before, ops[i])
    ensures Covers(ops[..i + 1], after)
  {
    var front, all := ops[..i], ops[..i + 1];
    assert all == front + [ops[i]];
    WithOperationFacts(before, ops[i]);
    forall s | s in after
      ensures exists op :: op in all && Concerns(op, s, after[s])
    {
      assert FromOperation(before, ops[i], s, after[s]);
      if Concerns(ops[i], s, after[s]) {
        assert ops[i] in all;
      } else {
        var op :| op in front && Concerns(op, s, before[s]);
        assert op in all;
      }
    }
  }

  /** The directory is one the run checks itself, one that is there, or one that the run creates. */
  predicate HasFooting(x: ExecutionSet, observed: ObservedWorld, directory: Path) {
    var subject := Subject(TargetSide, Fold(directory));
    || Direct(x, subject)
    || CreatesDirectory(x, Fold(directory))
    || (subject in observed.stats && observed.stats[subject].stat.Some? && observed.stats[subject].stat.value.kind == DirectoryEntry)
  }

  /** If everything the remaining operations concern was observed and nothing is refused, then the parent
      of every path they act on has its footing. */
  lemma PassedHasFooting(x: ExecutionSet, observed: ObservedWorld, op: Operation, path: Path)
    requires (forall r :: !Refused(x, observed, r)) && Covers(Left(x), observed.paths)
    requires op in Left(x) && (path == op.target || op.prior == Some(path)) && |path| > 1
    ensures HasFooting(x, observed, Parent(path))
  {
    var subject := Subject(TargetSide, Fold(Parent(path)));
    assert NeedsOnTarget(op, Parent(path));
    assert subject in observed.paths;
    ParentStands(x, observed, subject);
  }

  lemma NothingRefusedThere(x: ExecutionSet, observed: ObservedWorld, s: Subject, code: Code)
    requires forall r :: !Refused(x, observed, r)
    ensures !ParentRefused(x, observed, s, code)
  {
    assert !Refused(x, observed, Refusal(code, None, Some(s), None));
  }

  lemma ParentStands(x: ExecutionSet, observed: ObservedWorld, s: Subject)
    requires (forall r :: !Refused(x, observed, r)) && Covers(Left(x), observed.paths) && s in observed.paths && s.side == TargetSide
    ensures || Direct(x, s) || CreatesDirectory(x, s.key)
            || (s in observed.stats && observed.stats[s].stat.Some? && observed.stats[s].stat.value.kind == DirectoryEntry)
  {
    var o :| o in Left(x) && Concerns(o, s, observed.paths[s]);
    NothingRefusedThere(x, observed, s, ObservationUnavailable);
    NothingRefusedThere(x, observed, s, TargetDrifted);
    NothingRefusedThere(x, observed, s, TypeChanged);
  }

  // ------------------------------------------------------------------------------ room

  lemma PassedHasRoom(x: ExecutionSet, observed: ObservedWorld)
    requires forall r :: !Refused(x, observed, r)
    ensures observed.freeSpace.Some? && RequiredBytes(x.setup, Left(x)) <= observed.freeSpace.value + observed.reclaimable
  {
    assert !Refused(x, observed, Refusal(ObservationUnavailable, None, None, None));
    assert !Refused(x, observed, Refusal(InsufficientSpace, None, None, None));
  }
}
