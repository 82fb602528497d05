/** What it takes to be let through: the judge's refusals, put together and stated positively. */
module Clearance {
  import opened Paths
  import opened Model
  import opened Scans
  import opened Volume
  import opened Effects
  import opened Safety
  import opened Selection
  import opened Preflight
  import opened Foresight

  // ---------------------------------------------------------------------- the world

  predicate PutsIntoTrash(op: Operation, trashOnUpdate: bool) {
    op.kind == Trash || (op.kind in {Update, MoveUpdate} && trashOnUpdate)
  }

  /** Both roots are reachable, free of doubt, on exactly the reviewed volumes and apart; filters, policy and
      settings are as reviewed; there is room; and the trash is in order where it will be used. */
  predicate WorldInOrder(x: ExecutionSet, w: ObservedWorld) {
    && x.sourceVolume.Some? && w.sourceRoot == Some(RootObservation(true, x.sourceVolume, false, false))
    && x.targetVolume.Some? && w.targetRoot == Some(RootObservation(true, x.targetVolume, false, false))
    && !w.rootsOverlap
    && w.filtersUnchanged && w.policyUnchanged && !w.settingsError
    && w.freeSpace.Some? && RequiredBytes(x.setup, Left(x)) <= w.freeSpace.value + w.reclaimable
    && ((exists op :: op in x.plan.ops && op.id in x.selection && op.id !in x.status && PutsIntoTrash(op, x.setup.trashOnUpdate)) ==>
          w.trash == Some(TrashObservation(true, true, true, true, true)))
  }

  ghost predicate RefusesWorld(x: ExecutionSet, w: ObservedWorld) {
    exists code :: Refused(x, w, Refusal(code, None, None, None))
  }

  lemma RootInOrderExactly(expected: Option<VolumeId>, root: Option<RootObservation>)
    ensures (forall code :: !RootRefused(code, expected, root)) <==> expected.Some? && root == Some(RootObservation(true, expected, false, false))
  {
    assert !RootRefused(RootUnavailable, expected, root) || root.None? || root.value.error || !root.value.resolved;
    assert RootRefused(VolumeCloneAmbiguous, expected, root) || root.None? || root.value.error || !root.value.resolved || !root.value.cloneAmbiguous;
    assert RootRefused(RootChanged, expected, root) || root.None? || root.value.error || !root.value.resolved || root.value.volume == expected;
    if expected.Some? && root == Some(RootObservation(true, expected, false, false)) {
      assert forall code :: !RootRefused(code, expected, root);
    } else {
      assert RootRefused(RootUnavailable, expected, root) || RootRefused(VolumeCloneAmbiguous, expected, root) || RootRefused(RootChanged, expected, root);
    }
  }

  lemma TrashInOrderExactly(trash: Option<TrashObservation>)
    ensures (forall code :: !TrashRefused(code, trash)) <==> trash == Some(TrashObservation(true, true, true, true, true))
  {
    if trash != Some(TrashObservation(true, true, true, true, true)) {
      assert TrashRefused(TrashUnavailable, trash) || TrashRefused(TrashEscape, trash) || TrashRefused(TrashOffVolume, trash)
             || TrashRefused(TrashNotWritable, trash) || TrashRefused(TrashReparse, trash);
    }
  }

  lemma NeedsTrashExactly(x: ExecutionSet)
    ensures NeedsTrash(x) <==> exists op :: op in x.plan.ops && op.id in x.selection && op.id !in x.status && PutsIntoTrash(op, x.setup.trashOnUpdate)
  {
    if NeedsTrash(x) {
      var op :| op in Left(x) && (op.kind == Trash || (x.setup.trashOnUpdate && op.kind in {Update, MoveUpdate}));
      assert PutsIntoTrash(op, x.setup.trashOnUpdate);
    }
    if op :| op in x.plan.ops && op.id in x.selection && op.id !in x.status && PutsIntoTrash(op, x.setup.trashOnUpdate) {
      assert op in Left(x);
    }
  }

  lemma NothingElseRefused(x: ExecutionSet, w: ObservedWorld)
    requires forall code :: !WorldRefused(code, x, w)
    ensures w.filtersUnchanged && w.policyUnchanged && !w.settingsError
    ensures w.freeSpace.Some? && RequiredBytes(x.setup, Left(x)) <= w.freeSpace.value + w.reclaimable
    ensures w.sourceRoot.Some? && w.targetRoot.Some? && w.sourceRoot.value.resolved && w.targetRoot.value.resolved ==> !w.rootsOverlap
  {
    assert !WorldRefused(FilterDrift, x, w) && !WorldRefused(OptionsDrift, x, w) && !WorldRefused(ObservationUnavailable, x, w);
    assert !WorldRefused(InsufficientSpace, x, w) && !WorldRefused(RootsOverlap, x, w);
  }

  lemma WorldPartsInOrder(x: ExecutionSet, w: ObservedWorld)
    requires forall code :: !WorldRefused(code, x, w)
    ensures forall code :: !RootRefused(code, x.sourceVolume, w.sourceRoot) && !RootRefused(code, x.targetVolume, w.targetRoot)
    ensures NeedsTrash(x) ==> forall code :: !TrashRefused(code, w.trash)
  {
    forall code
      ensures !RootRefused(code, x.sourceVolume, w.sourceRoot) && !RootRefused(code, x.targetVolume, w.targetRoot)
      ensures NeedsTrash(x) ==> !TrashRefused(code, w.trash)
    {
      assert !WorldRefused(code, x, w);
    }
  }

  lemma InOrderIsUnrefused(x: ExecutionSet, w: ObservedWorld, code: Code)
    requires WorldInOrder(x, w)
    ensures !WorldRefused(code, x, w)
  {
    RootInOrderExactly(x.sourceVolume, w.sourceRoot);
    RootInOrderExactly(x.targetVolume, w.targetRoot);
    assert !RootsRefused(code, x, w);
    UsedTrashIsUnrefused(x, w, code);
  }

  lemma UsedTrashIsUnrefused(x: ExecutionSet, w: ObservedWorld, code: Code)
    requires WorldInOrder(x, w)
    ensures !(NeedsTrash(x) && TrashRefused(code, w.trash))
  {
    NeedsTrashExactly(x);
    if NeedsTrash(x) {
      TrashInOrderExactly(w.trash);
    }
  }

  lemma WorldCodes(x: ExecutionSet, w: ObservedWorld, code: Code)
    ensures Refused(x, w, Refusal(code, None, None, None)) <==> WorldRefused(code, x, w)
  {
  }

  /** The refusals that concern no operation and no place are absent exactly when the world is in order. */
  lemma WorldExactly(x: ExecutionSet, w: ObservedWorld)
    ensures !RefusesWorld(x, w) <==> WorldInOrder(x, w)
  {
    forall code
      ensures Refused(x, w, Refusal(code, None, None, None)) <==> WorldRefused(code, x, w)
      ensures WorldInOrder(x, w) ==> !WorldRefused(code, x, w)
    {
      WorldCodes(x, w, code);
      if WorldInOrder(x, w) {
        InOrderIsUnrefused(x, w, code);
      }
    }
    if !RefusesWorld(x, w) {
      UnrefusedIsInOrder(x, w);
    }
  }

  lemma UnrefusedIsInOrder(x: ExecutionSet, w: ObservedWorld)
    requires forall code :: !WorldRefused(code, x, w)
    ensures WorldInOrder(x, w)
  {
    WorldPartsInOrder(x, w);
    NothingElseRefused(x, w);
    NeedsTrashExactly(x);
    RootInOrderExactly(x.sourceVolume, w.sourceRoot);
    RootInOrderExactly(x.targetVolume, w.targetRoot);
    TrashInOrderExactly(w.trash);
  }

  // ------------------------------------------------------------------- one operation

  /** A dependency that has succeeded, or is still to be run and may run. */
  predicate AtHand(x: ExecutionSet, d: OpId) {
    && d in x.selection && (d in x.status ==> x.status[d] in {Succeeded, Skipped})
    && forall o :: o in x.plan.ops && o.id == d ==> o.blocked.None?
  }

  /** An operation that may run at all: safe, and with every dependency at hand. */
  predicate Eligible(x: ExecutionSet, op: Operation) {
    Safe(x.plan, op) && forall d :: d in op.dependencies ==> AtHand(x, d)
  }

  ghost predicate SetInOrder(x: ExecutionSet) {
    Ordered(x.plan) && forall id :: id in x.selection ==> id in Ids(x.plan.ops)
  }

  lemma OutcomeIsOne(o: Outcome)
    ensures o in {Succeeded, Skipped} <==> o !in {Failed, Canceled, Deferred, Outcome.Blocked}
  {
    assert o.Succeeded? || o.Failed? || o.Canceled? || o.Deferred? || o.Blocked? || o.Skipped?;
  }

  lemma AvailableExactly(x: ExecutionSet, d: OpId)
    requires SetInOrder(x) && d in x.selection
    ensures !Unavailable(x, d) <==> AtHand(x, d)
  {
    if d in x.status {
      OutcomeIsOne(x.status[d]);
    } else {
      var i := IdIndex(x.plan.ops, d);
      assert x.plan.ops[i] in Left(x);
      var j := MemberIndex(Left(x), x.plan.ops[i]);
      assert d in Ids(Left(x));
    }
    assert (exists o :: o in x.plan.ops && o.id == d && o.blocked.Some?) <==> !forall o :: o in x.plan.ops && o.id == d ==> o.blocked.None?;
  }

  lemma EligibleDrawsNothing(x: ExecutionSet, op: Operation, r: Refusal)
    requires SetInOrder(x) && op in Left(x) && Eligible(x, op)
    ensures !Warranted(x, op, r)
  {
    if r.code == CorrespondenceBlocked {
      forall o | o in x.plan.ops && o.id == op.id
        ensures !Quarantined(x.plan.ops, o)
      {
        SameIdSameOperation(x.plan.ops, o, op);
      }
    }
    if r.code == DependencyUnavailable && r.about.Some? && r.about.value in op.dependencies && r.about.value in x.selection {
      AvailableExactly(x, r.about.value);
    }
  }

  lemma IneligibleDraws(x: ExecutionSet, op: Operation) returns (r: Refusal)
    requires SetInOrder(x) && op in Left(x) && !Eligible(x, op)
    ensures Warranted(x, op, r)
  {
    if !(Safe(x.plan, op) && Supported(op, x.selection)) {
      r := UnsafeIsWarranted(x, op);
    } else {
      var d :| d in op.dependencies && !AtHand(x, d);
      AvailableExactly(x, d);
      r := Refusal(DependencyUnavailable, Some(op.id), None, Some(d));
    }
  }

  /** An observation agrees with what the plan expects there. */
  predicate Agrees(seen: Option<Observation>, expected: Option<Stat>, granularity: nat) {
    && Usable(seen)
    && (expected.None? <==> seen.value.stat.None?)
    && (expected.Some? ==>
          && MatchesExpected(seen.value.stat.value.(mtime := expected.value.mtime), expected.value)
          && !Apart(seen.value.stat.value.mtime, expected.value.mtime, granularity))
  }

  /** Source, target and prior path of an operation agree with what it was reviewed on. */
  predicate AgreesWith(x: ExecutionSet, w: ObservedWorld, op: Operation) {
    && (op.source.Some? && op.sourceExpected.Some? ==>
          Agrees(Seen(w, Subject(SourceSide, Fold(op.source.value))), op.sourceExpected, x.sourceGranularity))
    && Agrees(Seen(w, Subject(TargetSide, Fold(op.target))), op.targetExpected, x.targetGranularity)
    && (op.prior.Some? ==> Agrees(Seen(w, Subject(TargetSide, Fold(op.prior.value))), op.priorExpected, x.targetGranularity))
  }

  lemma CheckedAlike(x: ExecutionSet, w: ObservedWorld, op: Operation, c: (Subject, Option<Stat>, nat))
    requires c in Checks(x, op)
    ensures Passes(Seen(w, c.0), c.1, c.0.side, c.2) <==> Agrees(Seen(w, c.0), c.1, c.2)
  {
    PassesExactly(Seen(w, c.0), c.1, c.0.side, c.2);
  }

  lemma PassedIsAgreement(x: ExecutionSet, w: ObservedWorld, op: Operation)
    ensures Passed(x, w, op) <==> AgreesWith(x, w, op)
  {
    var target := (Subject(TargetSide, Fold(op.target)), op.targetExpected, x.targetGranularity);
    assert target in Checks(x, op);
    if op.source.Some? && op.sourceExpected.Some? {
      assert (Subject(SourceSide, Fold(op.source.value)), op.sourceExpected, x.sourceGranularity) in Checks(x, op);
    }
    if op.prior.Some? {
      assert (Subject(TargetSide, Fold(op.prior.value)), op.priorExpected, x.targetGranularity) in Checks(x, op);
    }
    forall c | c in Checks(x, op)
      ensures Passes(Seen(w, c.0), c.1, c.0.side, c.2) <==> Agrees(Seen(w, c.0), c.1, c.2)
    {
      CheckedAlike(x, w, op, c);
    }
  }

  // -------------------------------------------------------------------------- places

  /** A required parent that no operation is checked at: usable, and a directory unless the run creates it. */
  predicate Footed(x: ExecutionSet, w: ObservedWorld, s: Subject)
    requires s in w.paths
  {
    && Usable(Seen(w, s))
    && match Seen(w, s).value.stat
       case None => exists op :: op in x.plan.ops && op.id in x.selection && op.id !in x.status && op.kind == Mkdir && Fold(op.target) == Fold(w.paths[s])
       case Some(stat) => stat.kind == DirectoryEntry
  }

  predicate CheckedDirectly(x: ExecutionSet, s: Subject) {
    exists op :: op in x.plan.ops && op.id in x.selection && op.id !in x.status
                 && (s.key == Fold(op.target) || (op.prior.Some? && s.key == Fold(op.prior.value)))
  }

  lemma DirectExactly(x: ExecutionSet, s: Subject)
    ensures Direct(x, s) <==> CheckedDirectly(x, s)
  {
    if op :| op in x.plan.ops && op.id in x.selection && op.id !in x.status
             && (s.key == Fold(op.target) || (op.prior.Some? && s.key == Fold(op.prior.value))) {
      assert op in Left(x);
    }
  }

  lemma CreatesExactly(x: ExecutionSet, key: Key)
    ensures CreatesDirectory(x, key) <==>
            exists op :: op in x.plan.ops && op.id in x.selection && op.id !in x.status && op.kind == Mkdir && Fold(op.target) == key
  {
    if op :| op in x.plan.ops && op.id in x.selection && op.id !in x.status && op.kind == Mkdir && Fold(op.target) == key {
      assert op in Left(x);
    }
  }

  lemma FootedExactly(x: ExecutionSet, w: ObservedWorld, s: Subject)
    ensures (forall code :: !ParentRefused(x, w, s, code)) <==> (s in w.paths && s.side == TargetSide && !CheckedDirectly(x, s) ==> Footed(x, w, s))
  {
    DirectExactly(x, s);
    if s in w.paths && s.side == TargetSide && !CheckedDirectly(x, s) {
      CreatesExactly(x, Fold(w.paths[s]));
      if Footed(x, w, s) {
        FootedDrawsNothing(x, w, s);
      } else {
        var code := UnfootedDraws(x, w, s);
      }
    }
  }

  lemma FootedDrawsNothing(x: ExecutionSet, w: ObservedWorld, s: Subject)
    requires s in w.paths && Footed(x, w, s)
    ensures forall code :: !ParentRefused(x, w, s, code)
  {
    CreatesExactly(x, Fold(w.paths[s]));
  }

  lemma UnfootedDraws(x: ExecutionSet, w: ObservedWorld, s: Subject) returns (code: Code)
    requires s in w.paths && s.side == TargetSide && !Direct(x, s) && !Footed(x, w, s)
    ensures ParentRefused(x, w, s, code)
  {
    CreatesExactly(x, Fold(w.paths[s]));
    var seen := Seen(w, s);
    if seen.None? || seen.value.error {
      code := ObservationUnavailable;
    } else if !seen.value.contained {
      code := PathEscape;
    } else if !seen.value.representable {
      code := PathUnrepresentable;
    } else {
      code := if seen.value.stat.None? then TargetDrifted else TypeChanged;
    }
  }

  // ------------------------------------------------------------------------ all of it

  /** Everything that must be in order for an execution set to run. */
  ghost predicate AllClear(x: ExecutionSet, w: ObservedWorld) {
    && WorldInOrder(x, w)
    && (forall op :: op in x.plan.ops && op.id in x.selection && op.id !in x.status ==> Eligible(x, op) && AgreesWith(x, w, op))
    && (forall s :: s in w.paths && s.side == TargetSide && !CheckedDirectly(x, s) ==> Footed(x, w, s))
  }

  lemma ClearOperationDrawsNothing(x: ExecutionSet, w: ObservedWorld, op: Operation, r: Refusal)
    requires SetInOrder(x) && op in Left(x) && Eligible(x, op) && AgreesWith(x, w, op)
    ensures !Warranted(x, op, r) && !Contradicted(x, w, op, r)
  {
    EligibleDrawsNothing(x, op, r);
    PassedIsAgreement(x, w, op);
    forall c | c in Checks(x, op)
      ensures !Drifted(r.code, Seen(w, c.0), c.1, c.0.side, c.2)
    {
      assert Passes(Seen(w, c.0), c.1, c.0.side, c.2);
    }
  }

  lemma ClearIsUnrefused(x: ExecutionSet, w: ObservedWorld, r: Refusal)
    requires SetInOrder(x) && AllClear(x, w)
    ensures !Refused(x, w, r)
  {
    forall op | op in Left(x)
      ensures !Warranted(x, op, r) && !Contradicted(x, w, op, r)
    {
      ClearOperationDrawsNothing(x, w, op, r);
    }
    InOrderIsUnrefused(x, w, r.code);
    if r.subject.Some? {
      FootedExactly(x, w, r.subject.value);
    }
  }

  lemma UnrefusedOperationIsClear(x: ExecutionSet, w: ObservedWorld, op: Operation)
    requires SetInOrder(x) && op in Left(x) && forall r :: !Refused(x, w, r)
    ensures Eligible(x, op) && AgreesWith(x, w, op)
  {
    if !Eligible(x, op) {
      var r := IneligibleDraws(x, op);
      assert Refused(x, w, r);
    }
    AcceptedPasses(x, w, op);
    PassedIsAgreement(x, w, op);
  }

  lemma UnrefusedPlaceIsFooted(x: ExecutionSet, w: ObservedWorld, s: Subject)
    requires forall r :: !Refused(x, w, r)
    ensures s in w.paths && s.side == TargetSide && !CheckedDirectly(x, s) ==> Footed(x, w, s)
  {
    forall code
      ensures !ParentRefused(x, w, s, code)
    {
      NothingRefusedThere(x, w, s, code);
    }
    FootedExactly(x, w, s);
  }

  /** The judge refuses nothing, in a fresh or a resumed set, exactly when all of it is in order. */
  lemma ClearExactly(x: ExecutionSet, w: ObservedWorld)
    requires SetInOrder(x)
    ensures (forall r :: !Refused(x, w, r)) <==> AllClear(x, w)
  {
    if AllClear(x, w) {
      forall r
        ensures !Refused(x, w, r)
      {
        ClearIsUnrefused(x, w, r);
      }
    }
    if forall r :: !Refused(x, w, r) {
      WorldExactly(x, w);
      forall op | op in x.plan.ops && op.id in x.selection && op.id !in x.status
        ensures Eligible(x, op) && AgreesWith(x, w, op)
      {
        UnrefusedOperationIsClear(x, w, op);
      }
      forall s | s in w.paths && s.side == TargetSide && !CheckedDirectly(x, s)
        ensures Footed(x, w, s)
      {
        UnrefusedPlaceIsFooted(x, w, s);
      }
    }
  }

  // --------------------------------------------------------------- trash that is used

  /** The operation leaves something in the trash that was not there. */
  ghost predicate FillsTrash(w: World, v: World) {
    exists p: Place :: p.Trashed? && p in v.entries && p !in w.entries
  }

  /** Which achieved operations fill the trash: a move-update does, even when updates bypass it. */
  lemma FillsTrashExactly(s: Setup, op: Operation, w: World, v: World)
    requires Accomplished(s, op, w, v)
    ensures FillsTrash(w, v) <==> op.kind in {Trash, MoveUpdate} || (op.kind == Update && s.trashOnUpdate)
  {
    DuringIsSteady(s, op, w, v);
    if op.kind == Trash {
      assert TrashPlace(s, op.target) in v.entries;
    } else if op.kind == MoveUpdate {
      assert TrashPlace(s, op.prior.value) in v.entries;
    } else if op.kind == Update && s.trashOnUpdate {
      assert TrashPlace(s, op.target) in v.entries;
    } else {
      forall p: Place | p.Trashed? && p in v.entries
        ensures p in w.entries
      {
        assert Same(w, v, p);
      }
    }
  }

  /** Some remaining operation has the judge look at the trash. */
  predicate TrashDemanded(x: ExecutionSet) {
    exists op :: op in x.plan.ops && op.id in x.selection && op.id !in x.status && PutsIntoTrash(op, x.setup.trashOnUpdate)
  }

  /** The trash that an operation fills was looked at before if and only if it is not a move-update while
      updates bypass the trash, or some other operation trashes a file. */
  lemma FilledTrashIsJudged(x: ExecutionSet, op: Operation, w: World, v: World)
    requires op in x.plan.ops && op.id in x.selection && op.id !in x.status
    requires Accomplished(x.setup, op, w, v) && FillsTrash(w, v)
    ensures TrashDemanded(x) <==>
            || op.kind != MoveUpdate || x.setup.trashOnUpdate
            || (exists o :: o in x.plan.ops && o.id in x.selection && o.id !in x.status && o.kind == Trash)
  {
    FillsTrashExactly(x.setup, op, w, v);
    if op.kind != MoveUpdate || x.setup.trashOnUpdate {
      assert PutsIntoTrash(op, x.setup.trashOnUpdate);
    }
    if o :| o in x.plan.ops && o.id in x.selection && o.id !in x.status && o.kind == Trash {
      assert PutsIntoTrash(o, x.setup.trashOnUpdate);
    }
  }

  /** A renamed and changed file. */
  function MoveUpdateOf(path: Path, prior: Path, wanted: Stat, found: Stat): Operation {
    Operation(OpId(MoveUpdate, Some(path), path, Some(prior), IdentityRenameChanged), MoveUpdate, Some(path), path, Some(wanted), None, Some(wanted),
              Some(prior), Some(found), wanted.size, [], IdentityRenameChanged, None)
  }

  lemma LoneIsEligible(x: ExecutionSet, op: Operation)
    requires x.plan == Reviewed([op], true, true) && op.blocked.None? && op.dependencies == []
    ensures forall o :: o in x.plan.ops ==> o == op
    ensures Eligible(x, op)
  {
    assert BlockedTargets([op]) == {} && BlockedSources([op]) == {};
  }

  lemma LoneInOrder(x: ExecutionSet, op: Operation)
    requires x.plan == Reviewed([op], true, true) && x.selection == {op.id} && op.dependencies == []
    ensures SetInOrder(x)
  {
    assert Ids([op]) == [op.id];
  }

  lemma LoneIsClear(x: ExecutionSet, w: ObservedWorld, op: Operation, path: Path, prior: Path, wanted: Stat, found: Stat)
    requires op == MoveUpdateOf(path, prior, wanted, found) && x.plan == Reviewed([op], true, true) && x.selection == {op.id} && x.status == map[]
    requires !x.setup.trashOnUpdate && w.paths == map[] && w.freeSpace == Some(RequiredBytes(x.setup, Left(x)))
    requires w.filtersUnchanged && w.policyUnchanged && !w.settingsError && !w.rootsOverlap
    requires x.sourceVolume.Some? && w.sourceRoot == Some(RootObservation(true, x.sourceVolume, false, false))
    requires x.targetVolume.Some? && w.targetRoot == Some(RootObservation(true, x.targetVolume, false, false))
    requires Seen(w, Subject(SourceSide, Fold(path))) == Some(Observation(Some(wanted), false, true, true))
    requires Seen(w, Subject(TargetSide, Fold(path))) == Some(Observation(None, false, true, true))
    requires Seen(w, Subject(TargetSide, Fold(prior))) == Some(Observation(Some(found), false, true, true))
    ensures SetInOrder(x) && forall r :: !Refused(x, w, r)
  {
    LoneIsEligible(x, op);
    LoneInOrder(x, op);
    assert AgreesWith(x, w, op);
    ClearExactly(x, w);
  }

  /** A set with one move-update of which nothing is refused, though nothing is known of the trash that the
      old file will go to. */
  lemma TrashIsOverlooked() returns (x: ExecutionSet, observed: ObservedWorld, op: Operation)
    ensures SetInOrder(x) && op.kind == MoveUpdate && op in x.plan.ops && op.id in x.selection && op.id !in x.status
    ensures (forall r :: !Refused(x, observed, r)) && observed.trash == None
  {
    var path, prior := [Name("a", "A", "a")], [Name("b", "B", "b")];
    assert Fold(path)[0] == "A" && Fold(prior)[0] == "B";
    var plain := Metadata(Attributes(false, false, false, 0), None);
    var found, wanted := Stat(FileEntry, 0, 5, None, 1, plain), Stat(FileEntry, 0, 6, None, 1, plain);
    op := MoveUpdateOf(path, prior, wanted, found);
    var s := Setup("run", "serial", false, false, false, false, map[Fold(path) := SourceFile([], wanted)]);
    var volume := VolumeId("serial", "");
    var root := Some(RootObservation(true, Some(volume), false, false));
    x := ExecutionSet(Reviewed([op], true, true), {op.id}, map[], s, Some(volume), Some(volume), 0, 0);
    observed := ObservedWorld(map[Subject(SourceSide, Fold(path)) := Observation(Some(wanted), false, true, true),
                                  Subject(TargetSide, Fold(path)) := Observation(None, false, true, true),
                                  Subject(TargetSide, Fold(prior)) := Observation(Some(found), false, true, true)],
                              map[], root, root, false, Some(RequiredBytes(s, Left(x))), 0, None, true, true, false);
    LoneIsClear(x, observed, op, path, prior, wanted, found);
  }
}
