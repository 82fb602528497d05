/** The judge that looks at an execution set once more, just before it runs. */
module Preflight {
  import opened Paths
  import opened Model
  import opened Scans
  import opened Effects
  import opened Safety
  import opened Selection

  datatype Side = SourceSide | TargetSide

  datatype Subject = Subject(side: Side, key: Key)

  datatype Observation = Observation(stat: Option<Stat>, error: bool, contained: bool, representable: bool)

  datatype RootObservation = RootObservation(resolved: bool, volume: Option<VolumeId>, cloneAmbiguous: bool, error: bool)

  datatype TrashObservation = TrashObservation(available: bool, contained: bool, sameVolume: bool, writable: bool, reparseSafe: bool)

  /** What was observed before the judgement; every part of it is arbitrary. */
  datatype ObservedWorld = ObservedWorld(
    stats: map<Subject, Observation>,
    paths: map<Subject, Path>,
    sourceRoot: Option<RootObservation>,
    targetRoot: Option<RootObservation>,
    rootsOverlap: bool,
    freeSpace: Option<nat>,
    reclaimable: nat,
    trash: Option<TrashObservation>,
    filtersUnchanged: bool,
    policyUnchanged: bool,
    settingsError: bool)

  datatype Code =
    | IncompleteSourceScan | IncompleteTargetScan | RootUnavailable | RootChanged | RootsOverlap | VolumeCloneAmbiguous
    | SelectionNotClosed | OperationBlocked | CorrespondenceBlocked | DependencyUnavailable | ObservationUnavailable
    | SourceDrifted | TargetDrifted | DestinationAppeared | TypeChanged | IdentityChanged | SizeChanged | MtimeChanged | MetadataChanged
    | FilterDrift | OptionsDrift | InsufficientSpace | TrashUnavailable | TrashEscape | TrashOffVolume | TrashNotWritable | TrashReparse
    | PathEscape | PathUnrepresentable

  datatype Refusal = Refusal(code: Code, op: Option<OpId>, subject: Option<Subject>, about: Option<OpId>)

  /** An execution set: the plan with its options and volumes, what was selected, and statuses so far. */
  datatype ExecutionSet = ExecutionSet(
    plan: Reviewed,
    selection: set<OpId>,
    status: map<OpId, Outcome>,
    setup: Setup,
    sourceVolume: Option<VolumeId>,
    targetVolume: Option<VolumeId>,
    sourceGranularity: nat,
    targetGranularity: nat)

  function Left(x: ExecutionSet): seq<Operation> {
    Remaining(x.plan.ops, x.selection, x.status)
  }

  // ------------------------------------------------------------------ structural refusals

  predicate Structural(code: Code) {
    code in {IncompleteSourceScan, IncompleteTargetScan, OperationBlocked, CorrespondenceBlocked, SelectionNotClosed, DependencyUnavailable}
  }

  /** A dependency that can no longer succeed, or is nowhere to be run. */
  predicate Unavailable(x: ExecutionSet, dependency: OpId) {
    || (dependency in x.status && x.status[dependency] in {Failed, Canceled, Deferred, Blocked})
    || (exists o :: o in x.plan.ops && o.id == dependency && o.blocked.Some?)
    || (dependency !in x.status && dependency !in Ids(Left(x)))
  }

  /** The refusals one remaining operation draws for its place in the plan. */
  predicate Warranted(x: ExecutionSet, op: Operation, r: Refusal) {
    && r.op == Some(op.id) && r.subject.None?
    && match r.code
       case IncompleteSourceScan => r.about.None? && UnsafeWhenIncomplete(op.kind) && !x.plan.sourceComplete
       case IncompleteTargetScan => r.about.None? && UnsafeWhenIncomplete(op.kind) && !x.plan.targetComplete
       case OperationBlocked => r.about.None? && op.blocked.Some?
       case CorrespondenceBlocked => r.about.None? && op.blocked.None? && exists o :: o in x.plan.ops && o.id == op.id && Quarantined(x.plan.ops, o)
       case SelectionNotClosed => r.about.Some? && r.about.value in op.dependencies && r.about.value !in x.selection
       case DependencyUnavailable => r.about.Some? && r.about.value in op.dependencies && r.about.value in x.selection && Unavailable(x, r.about.value)
       case _ => false
  }

  /** Ids of quarantined operations, and of those still to be run. */
  ghost predicate Indexed(x: ExecutionSet, quarantined: set<OpId>, leftIds: set<OpId>) {
    && (forall id :: id in quarantined <==> exists o :: o in x.plan.ops && o.id == id && Quarantined(x.plan.ops, o))
    && (forall id :: id in leftIds <==> id in Ids(Left(x)))
  }

  /** The refusals for what an operation is. */
  method JudgeNature(x: ExecutionSet, op: Operation, quarantined: set<OpId>, leftIds: set<OpId>) returns (refusals: set<Refusal>)
    requires Indexed(x, quarantined, leftIds)
    ensures forall r :: r in refusals <==> Warranted(x, op, r) && r.about.None?
  {
    refusals := {};
    if UnsafeWhenIncomplete(op.kind) {
      if !x.plan.sourceComplete {
        refusals := refusals + {Refusal(IncompleteSourceScan, Some(op.id), None, None)};
      }
      if !x.plan.targetComplete {
        refusals := refusals + {Refusal(IncompleteTargetScan, Some(op.id), None, None)};
      }
    }
    if op.blocked.Some? {
      refusals := refusals + {Refusal(OperationBlocked, Some(op.id), None, None)};
    } else if op.id in quarantined {
      refusals := refusals + {Refusal(CorrespondenceBlocked, Some(op.id), None, None)};
    }
  }

  /** The refusal for one dependency, if it is missing from the selection or cannot succeed any more. */
  method JudgeDependency(x: ExecutionSet, op: Operation, d: OpId, quarantined: set<OpId>, leftIds: set<OpId>) returns (refusals: set<Refusal>)
    requires Indexed(x, quarantined, leftIds) && d in op.dependencies
    ensures forall r :: r in refusals <==> Warranted(x, op, r) && r.about == Some(d)
  {
    if d !in x.selection {
      return {Refusal(SelectionNotClosed, Some(op.id), None, Some(d))};
    }
    var bad := d in x.status && x.status[d] in {Failed, Canceled, Deferred, Blocked};
    var blocked := exists o :: o in x.plan.ops && o.id == d && o.blocked.Some?;
    if bad || blocked || (d !in x.status && d !in leftIds) {
      return {Refusal(DependencyUnavailable, Some(op.id), None, Some(d))};
    }
    return {};
  }

  method JudgePlace(x: ExecutionSet, op: Operation, quarantined: set<OpId>, leftIds: set<OpId>) returns (refusals: set<Refusal>)
    requires Indexed(x, quarantined, leftIds)
    ensures forall r :: r in refusals <==> Warranted(x, op, r)
  {
    refusals := JudgeNature(x, op, quarantined, leftIds);
    for i := 0 to |op.dependencies|
      invariant forall r :: r in refusals <==> Warranted(x, op, r) && (r.about.None? || r.about.value in op.dependencies[..i])
    {
      assert op.dependencies[..i + 1] == op.dependencies[..i] + [op.dependencies[i]];
      var more := JudgeDependency(x, op, op.dependencies[i], quarantined, leftIds);
      refusals := refusals + more;
    }
    assert op.dependencies[..|op.dependencies|] == op.dependencies;
  }

  // ----------------------------------------------------------------------- observed stats

  predicate Apart(a: nat, b: nat, granularity: nat) {
    a > b + granularity || b > a + granularity
  }

  /** The refusals an observation draws, given what the plan expects there. */
  predicate Drifted(code: Code, seen: Option<Observation>, expected: Option<Stat>, side: Side, granularity: nat) {
    if seen.None? || seen.value.error then code == ObservationUnavailable
    else
      var actual := seen.value.stat;
      || (code == PathEscape && !seen.value.contained)
      || (code == PathUnrepresentable && !seen.value.representable)
      || (code == DestinationAppeared && expected.None? && actual.Some?)
      || (code == (if side == SourceSide then SourceDrifted else TargetDrifted) && expected.Some? && actual.None?)
      || (expected.Some? && actual.Some? &&
          (|| (code == TypeChanged && actual.value.kind != expected.value.kind)
           || (code == IdentityChanged && expected.value.identity.Some? && actual.value.identity != expected.value.identity)
           || (code == SizeChanged && actual.value.size != expected.value.size)
           || (code == MtimeChanged && Apart(actual.value.mtime, expected.value.mtime, granularity))
           || (code == Code.MetadataChanged && (actual.value.metadata != expected.value.metadata || actual.value.nlink != expected.value.nlink))))
  }

  method StatCodes(seen: Option<Observation>, expected: Option<Stat>, side: Side, granularity: nat) returns (codes: set<Code>)
    ensures forall code :: code in codes <==> Drifted(code, seen, expected, side, granularity)
  {
    codes := {};
    if seen.None? || seen.value.error {
      return {ObservationUnavailable};
    }
    if !seen.value.contained {
      codes := codes + {PathEscape};
    }
    if !seen.value.representable {
      codes := codes + {PathUnrepresentable};
    }
    var actual := seen.value.stat;
    if expected.None? {
      if actual.Some? {
        codes := codes + {DestinationAppeared};
      }
      return;
    }
    if actual.None? {
      codes := codes + {if side == SourceSide then SourceDrifted else TargetDrifted};
      return;
    }
    if actual.value.kind != expected.value.kind {
      codes := codes + {TypeChanged};
    }
    if expected.value.identity.Some? && actual.value.identity != expected.value.identity {
      codes := codes + {IdentityChanged};
    }
    if actual.value.size != expected.value.size {
      codes := codes + {SizeChanged};
    }
    if Apart(actual.value.mtime, expected.value.mtime, granularity) {
      codes := codes + {MtimeChanged};
    }
    if actual.value.metadata != expected.value.metadata || actual.value.nlink != expected.value.nlink {
      codes := codes + {Code.MetadataChanged};
    }
  }

  function Seen(w: ObservedWorld, s: Subject): Option<Observation> {
    if s in w.stats then Some(w.stats[s]) else None
  }

  /** The subjects an operation is checked at, with what is expected there. */
  function Checks(x: ExecutionSet, op: Operation): seq<(Subject, Option<Stat>, nat)> {
    (if op.source.Some? && op.sourceExpected.Some? then [(Subject(SourceSide, Fold(op.source.value)), op.sourceExpected, x.sourceGranularity)] else [])
    + [(Subject(TargetSide, Fold(op.target)), op.targetExpected, x.targetGranularity)]
    + (if op.prior.Some? then [(Subject(TargetSide, Fold(op.prior.value)), op.priorExpected, x.targetGranularity)] else [])
  }

  predicate Contradicted(x: ExecutionSet, w: ObservedWorld, op: Operation, r: Refusal) {
    && r.op == Some(op.id) && r.subject.Some? && r.about.None?
    && exists c :: c in Checks(x, op) && r.subject.value == c.0 && Drifted(r.code, Seen(w, c.0), c.1, c.0.side, c.2)
  }

  method JudgeStats(x: ExecutionSet, w: ObservedWorld, op: Operation) returns (refusals: set<Refusal>)
    ensures forall r :: r in refusals <==> Contradicted(x, w, op, r)
  {
    var checks := Checks(x, op);
    refusals := {};
    for i := 0 to |checks|
      invariant forall r :: r in refusals <==>
        r.op == Some(op.id) && r.subject.Some? && r.about.None?
        && exists j :: 0 <= j < i && r.subject.value == checks[j].0 && Drifted(r.code, Seen(w, checks[j].0), checks[j].1, checks[j].0.side, checks[j].2)
    {
      var c := checks[i];
      var codes := StatCodes(Seen(w, c.0), c.1, c.0.side, c.2);
      refusals := refusals + set code | code in codes :: Refusal(code, Some(op.id), Some(c.0), None);
    }
    forall r
      ensures r in refusals <==> Contradicted(x, w, op, r)
    {
      if r in refusals {
        var j :| 0 <= j < |checks| && r.subject.value == checks[j].0 && Drifted(r.code, Seen(w, checks[j].0), checks[j].1, checks[j].0.side, checks[j].2);
        assert checks[j] in checks;
      }
    }
  }

  // ---------------------------------------------------------------- roots, parents, space, trash

  predicate RootRefused(code: Code, expected: Option<VolumeId>, root: Option<RootObservation>) {
    if root.None? || root.value.error || !root.value.resolved then code == RootUnavailable
    else (code == VolumeCloneAmbiguous && root.value.cloneAmbiguous)
         || (code == RootChanged && (expected.None? || root.value.volume != expected))
  }

  method JudgeRoot(expected: Option<VolumeId>, root: Option<RootObservation>) returns (codes: set<Code>)
    ensures forall code :: code in codes <==> RootRefused(code, expected, root)
  {
    if root.None? || root.value.error || !root.value.resolved {
      return {RootUnavailable};
    }
    codes := {};
    if root.value.cloneAmbiguous {
      codes := codes + {VolumeCloneAmbiguous};
    }
    if expected.None? || root.value.volume != expected {
      codes := codes + {RootChanged};
    }
  }

  predicate RootsRefused(code: Code, x: ExecutionSet, w: ObservedWorld) {
    || RootRefused(code, x.sourceVolume, w.sourceRoot)
    || RootRefused(code, x.targetVolume, w.targetRoot)
    || (code == RootsOverlap && w.rootsOverlap && w.sourceRoot.Some? && w.targetRoot.Some? && w.sourceRoot.value.resolved && w.targetRoot.value.resolved)
  }

  predicate WorldRefused(code: Code, x: ExecutionSet, w: ObservedWorld) {
    || RootsRefused(code, x, w)
    || (code == FilterDrift && !w.filtersUnchanged)
    || (code == OptionsDrift && !w.policyUnchanged)
    || (code == ObservationUnavailable && (w.settingsError || w.freeSpace.None?))
    || (code == InsufficientSpace && w.freeSpace.Some? && RequiredBytes(x.setup, Left(x)) > w.freeSpace.value + w.reclaimable)
    || (NeedsTrash(x) && TrashRefused(code, w.trash))
  }

  predicate NeedsTrash(x: ExecutionSet) {
    exists op :: op in Left(x) && (op.kind == Trash || (x.setup.trashOnUpdate && op.kind in {Update, MoveUpdate}))
  }

  predicate TrashRefused(code: Code, trash: Option<TrashObservation>) {
    || (code == TrashUnavailable && (trash.None? || !trash.value.available))
    || (trash.Some? &&
        (|| (code == TrashEscape && !trash.value.contained)
         || (code == TrashOffVolume && !trash.value.sameVolume)
         || (code == TrashNotWritable && !trash.value.writable)
         || (code == TrashReparse && !trash.value.reparseSafe)))
  }

  method JudgeTrash(trash: Option<TrashObservation>) returns (codes: set<Code>)
    ensures forall code :: code in codes <==> TrashRefused(code, trash)
  {
    codes := {};
    if trash.None? || !trash.value.available {
      codes := codes + {TrashUnavailable};
    }
    if trash.Some? {
      if !trash.value.contained {
        codes := codes + {TrashEscape};
      }
      if !trash.value.sameVolume {
        codes := codes + {TrashOffVolume};
      }
      if !trash.value.writable {
        codes := codes + {TrashNotWritable};
      }
      if !trash.value.reparseSafe {
        codes := codes + {TrashReparse};
      }
    }
  }

  method JudgeRoots(x: ExecutionSet, w: ObservedWorld) returns (codes: set<Code>)
    ensures forall code :: code in codes <==> RootsRefused(code, x, w)
  {
    var source := JudgeRoot(x.sourceVolume, w.sourceRoot);
    var target := JudgeRoot(x.targetVolume, w.targetRoot);
    codes := source + target;
    if w.sourceRoot.Some? && w.targetRoot.Some? && w.sourceRoot.value.resolved && w.targetRoot.value.resolved && w.rootsOverlap {
      codes := codes + {RootsOverlap};
    }
  }

  method JudgeWorld(x: ExecutionSet, w: ObservedWorld) returns (codes: set<Code>)
    ensures forall code :: code in codes <==> WorldRefused(code, x, w)
  {
    codes := JudgeRoots(x, w);
    if !w.filtersUnchanged {
      codes := codes + {FilterDrift};
    }
    if !w.policyUnchanged {
      codes := codes + {OptionsDrift};
    }
    if w.settingsError {
      codes := codes + {ObservationUnavailable};
    }
    var required := CalculateRequiredBytes(x.setup, Left(x));
    if w.freeSpace.None? {
      codes := codes + {ObservationUnavailable};
    } else if required > w.freeSpace.value + w.reclaimable {
      codes := codes + {InsufficientSpace};
    }
    if NeedsTrash(x) {
      var trash := JudgeTrash(w.trash);
      codes := codes + trash;
    }
  }

  /** Target subjects that some remaining operation is checked at directly. */
  predicate Direct(x: ExecutionSet, s: Subject) {
    exists op :: op in Left(x) && (s.key == Fold(op.target) || (op.prior.Some? && s.key == Fold(op.prior.value)))
  }

  predicate CreatesDirectory(x: ExecutionSet, key: Key) {
    exists op :: op in Left(x) && op.kind == Mkdir && Fold(op.target) == key
  }

  /** The refusals a required parent directory draws. */
  predicate ParentRefused(x: ExecutionSet, w: ObservedWorld, s: Subject, code: Code) {
    && s in w.paths && s.side == TargetSide && !Direct(x, s)
    && var seen := Seen(w, s);
       if seen.None? || seen.value.error then code == ObservationUnavailable
       else || (code == PathEscape && !seen.value.contained)
            || (code == PathUnrepresentable && !seen.value.representable)
            || (code == TargetDrifted && seen.value.stat.None? && !CreatesDirectory(x, Fold(w.paths[s])))
            || (code == TypeChanged && seen.value.stat.Some? && seen.value.stat.value.kind != DirectoryEntry)
  }

  method JudgeParent(x: ExecutionSet, w: ObservedWorld, s: Subject) returns (codes: set<Code>)
    requires s in w.paths
    ensures forall code :: code in codes <==> ParentRefused(x, w, s, code)
  {
    codes := {};
    if s.side != TargetSide || Direct(x, s) {
      return;
    }
    var seen := Seen(w, s);
    if seen.None? || seen.value.error {
      return {ObservationUnavailable};
    }
    if !seen.value.contained {
      codes := codes + {PathEscape};
    }
    if !seen.value.representable {
      codes := codes + {PathUnrepresentable};
    }
    if seen.value.stat.None? && !CreatesDirectory(x, Fold(w.paths[s])) {
      codes := codes + {TargetDrifted};
    } else if seen.value.stat.Some? && seen.value.stat.value.kind != DirectoryEntry {
      codes := codes + {TypeChanged};
    }
  }

  // --------------------------------------------------------------------------- the verdict

  /** Everything there is to refuse about an execution set in an observed world. */
  ghost predicate Refused(x: ExecutionSet, w: ObservedWorld, r: Refusal) {
    || (exists op :: op in Left(x) && (Warranted(x, op, r) || Contradicted(x, w, op, r)))
    || (r.op.None? && r.subject.None? && r.about.None? && WorldRefused(r.code, x, w))
    || (r.op.None? && r.subject.Some? && r.about.None? && ParentRefused(x, w, r.subject.value, r.code))
  }

  method JudgeOperations(x: ExecutionSet, w: ObservedWorld) returns (refusals: set<Refusal>)
    ensures forall r :: r in refusals <==> exists op :: op in Left(x) && (Warranted(x, op, r) || Contradicted(x, w, op, r))
  {
    var left := Left(x);
    var quarantined := QuarantinedIds(x.plan.ops);
    var leftIds := set op | op in left :: op.id;
    LeftIdsExact(left, leftIds);
    refusals := {};
    for i := 0 to |left|
      invariant forall r :: r in refusals <==> exists j :: 0 <= j < i && (Warranted(x, left[j], r) || Contradicted(x, w, left[j], r))
    {
      var place := JudgePlace(x, left[i], quarantined, leftIds);
      var stats := JudgeStats(x, w, left[i]);
      refusals := refusals + place + stats;
    }
  }

  lemma LeftIdsExact(ops: seq<Operation>, ids: set<OpId>)
    requires ids == set op | op in ops :: op.id
    ensures forall id :: id in ids <==> id in Ids(ops)
  {
    forall id | id in Ids(ops)
      ensures id in ids
    {
      var i := IdIndex(ops, id);
      assert ops[i] in ops;
    }
    forall id | id in ids
      ensures id in Ids(ops)
    {
      var op :| op in ops && op.id == id;
      var i := MemberIndex(ops, op);
    }
  }

  method JudgeParents(x: ExecutionSet, w: ObservedWorld) returns (refusals: set<Refusal>)
    ensures forall r :: r in refusals <==>
              r.op.None? && r.subject.Some? && r.about.None? && ParentRefused(x, w, r.subject.value, r.code)
  {
    refusals := {};
    var rest := w.paths.Keys;
    while rest != {}
      invariant rest <= w.paths.Keys
      invariant forall r :: r in refusals <==>
        r.op.None? && r.subject.Some? && r.about.None? && r.subject.value !in rest && ParentRefused(x, w, r.subject.value, r.code)
      decreases |rest|
    {
      var s :| s in rest;
      var codes := JudgeParent(x, w, s);
      refusals := refusals + set code | code in codes :: Refusal(code, None, Some(s), None);
      rest := rest - {s};
    }
  }

  /** Judge an execution set: it may run when nothing is refused. */
  method Judge(x: ExecutionSet, w: ObservedWorld) returns (ok: bool, refusals: set<Refusal>)
    ensures forall r :: r in refusals <==> Refused(x, w, r)
    ensures ok <==> refusals == {}
  {
    var codes := JudgeWorld(x, w);
    var operations := JudgeOperations(x, w);
    var parents := JudgeParents(x, w);
    refusals := (set code | code in codes :: Refusal(code, None, None, None)) + operations + parents;
    ok := refusals == {};
  }

  // --------------------------------------------------------------- selector and judge agree

  ghost predicate StructurallySound(x: ExecutionSet, w: ObservedWorld) {
    forall r :: Refused(x, w, r) ==> !Structural(r.code)
  }

  lemma StatsAreNotStructural(code: Code, seen: Option<Observation>, expected: Option<Stat>, side: Side, granularity: nat)
    requires Structural(code)
    ensures !Drifted(code, seen, expected, side, granularity)
  {
  }

  lemma WorldIsNotStructural(code: Code, x: ExecutionSet, w: ObservedWorld)
    requires Structural(code)
    ensures !WorldRefused(code, x, w)
    ensures forall s :: !ParentRefused(x, w, s, code)
  {
  }

  lemma OnlyPlacesAreStructural(x: ExecutionSet, w: ObservedWorld, r: Refusal)
    requires Structural(r.code) && Refused(x, w, r)
    ensures exists op :: op in Left(x) && Warranted(x, op, r)
  {
    WorldIsNotStructural(r.code, x, w);
    var op :| op in Left(x) && (Warranted(x, op, r) || Contradicted(x, w, op, r));
    forall c | c in Checks(x, op)
      ensures !Drifted(r.code, Seen(w, c.0), c.1, c.0.side, c.2)
    {
      StatsAreNotStructural(r.code, Seen(w, c.0), c.1, c.0.side, c.2);
    }
  }

  lemma SameIdSameOperation(ops: seq<Operation>, a: Operation, b: Operation)
    requires UniqueIds(ops) && a in ops && b in ops && a.id == b.id
    ensures a == b
  {
    var i := MemberIndex(ops, a);
    var j := MemberIndex(ops, b);
  }

  lemma NothingWarranted(x: ExecutionSet, op: Operation, r: Refusal)
    requires Ordered(x.plan) && SafeClosed(x.plan, x.selection) && x.status == map[]
    requires op in Left(x) && Structural(r.code)
    ensures !Warranted(x, op, r)
  {
    assert Safe(x.plan, op) && Supported(op, x.selection);
    if r.code == CorrespondenceBlocked {
      forall o | o in x.plan.ops && o.id == op.id
        ensures !Quarantined(x.plan.ops, o)
      {
        SameIdSameOperation(x.plan.ops, o, op);
      }
    }
    if r.code == DependencyUnavailable && r.about.Some? && r.about.value in op.dependencies {
      DependencyAtHand(x, r.about.value);
    }
  }

  lemma DependencyAtHand(x: ExecutionSet, d: OpId)
    requires Ordered(x.plan) && SafeClosed(x.plan, x.selection) && x.status == map[] && d in x.selection
    ensures !Unavailable(x, d)
  {
    var i := IdIndex(x.plan.ops, d);
    var o := x.plan.ops[i];
    assert o in x.plan.ops && o in Left(x);
    var j := MemberIndex(Left(x), o);
    forall b | b in x.plan.ops && b.id == d
      ensures b.blocked.None?
    {
      SameIdSameOperation(x.plan.ops, b, o);
      assert Safe(x.plan, o);
    }
  }

  /** Whatever makes a selected operation unsafe or unsupported is refused. */
  lemma UnsafeIsWarranted(x: ExecutionSet, op: Operation) returns (r: Refusal)
    requires op in x.plan.ops && !(Safe(x.plan, op) && Supported(op, x.selection))
    ensures Structural(r.code) && Warranted(x, op, r)
  {
    if op.blocked.Some? {
      r := Refusal(OperationBlocked, Some(op.id), None, None);
    } else if Quarantined(x.plan.ops, op) {
      r := Refusal(CorrespondenceBlocked, Some(op.id), None, None);
    } else if Incomplete(x.plan) && UnsafeWhenIncomplete(op.kind) {
      r := Refusal(if x.plan.sourceComplete then IncompleteTargetScan else IncompleteSourceScan, Some(op.id), None, None);
    } else {
      var d :| d in op.dependencies && d !in x.selection;
      r := Refusal(SelectionNotClosed, Some(op.id), None, Some(d));
    }
  }

  /** In any observed world, a fresh execution set draws no structural refusal exactly when its
      selection consists of safe operations and is closed under dependencies. */
  lemma JudgeMatchesSelector(x: ExecutionSet, w: ObservedWorld)
    requires Ordered(x.plan) && x.status == map[] && forall id :: id in x.selection ==> id in Ids(x.plan.ops)
    ensures StructurallySound(x, w) <==> SafeClosed(x.plan, x.selection)
  {
    if SafeClosed(x.plan, x.selection) {
      forall r | Refused(x, w, r)
        ensures !Structural(r.code)
      {
        if Structural(r.code) {
          OnlyPlacesAreStructural(x, w, r);
          var op :| op in Left(x) && Warranted(x, op, r);
          NothingWarranted(x, op, r);
        }
      }
    }
    if !SafeClosed(x.plan, x.selection) {
      var op :| op in x.plan.ops && op.id in x.selection && !(Safe(x.plan, op) && Supported(op, x.selection));
      var r := UnsafeIsWarranted(x, op);
      assert op in Left(x) && Refused(x, w, r);
    }
  }

  /** The derived selection never draws a structural refusal. */
  lemma DerivedSelectionPasses(x: ExecutionSet, w: ObservedWorld)
    requires Ordered(x.plan) && x.selection == Selected(x.plan) && x.status == map[]
    ensures StructurallySound(x, w)
  {
    SelectionIsGreatest(x.plan);
    JudgeMatchesSelector(x, w);
  }
}
