/** The executor: one guarded attempt per operation kind, retried with continuations.

Exceptions become `Result` values; a checkpoint may raise a cancel or pause request anywhere the
program places one; every read and every primitive may fail. */
module Executor {
  import opened Paths
  import opened Model
  import opened Volume
  import opened Effects
  import opened Steps
  import opened Progress

  /** What a retry of an update or move-update resumes from. */
  datatype Continuation =
    | UpdateContinuation(preparedStat: Stat, liveStat: Stat, backupStat: Option<Stat>, published: bool)
    | MoveUpdateContinuation(oldExpected: Stat, publishedStat: Stat)

  ghost predicate AllFilling(h0: seq<World>, h: seq<World>, w1: World, p: Place, content: Bytes) {
    && h0 <= h
    && forall i :: |h0| <= i < |h| ==> Filling(w1, h[i], p, content)
  }

  /** Every state recorded since `h0` is one the operation may pass through. */
  ghost predicate AllDuring(h0: seq<World>, h: seq<World>, s: Setup, op: Operation, w0: World) {
    && h0 <= h
    && forall i :: |h0| <= i < |h| ==> During(s, op, w0, h[i])
  }

  lemma FillingCreated(w1: World, v: World, p: Place, content: Bytes)
    requires Sound(w1) && p !in w1.entries
    requires v == w1 || exists o: FileObject :: o.bytes == [] && OtherBits(o) == w1.newBits && v == Created(w1, p, o)
    ensures Filling(w1, v, p, content) && Sound(v)
    ensures v != w1 ==> FreshWith(w1, v, p, [])
  {
    if v != w1 {
      var o: FileObject :| o.bytes == [] && OtherBits(o) == w1.newBits && v == Created(w1, p, o);
      CreatedSteady(w1, p, o);
    } else {
      SteadyRefl(w1, {p});
    }
  }

  lemma FillingStored(w1: World, w: World, v: World, p: Place, content: Bytes, grown: Bytes)
    requires Sound(w1) && Filling(w1, w, p, content) && Fresh(w1, w, p) && grown <= content
    requires exists o: FileObject :: Rewrites(w, p, o, grown) && v == Stored(w, p, o)
    ensures Filling(w1, v, p, content) && FreshWith(w1, v, p, grown)
  {
    var o: FileObject :| Rewrites(w, p, o, grown) && v == Stored(w, p, o);
    StoredSteady(w1, w, p, o, {p});
  }

  lemma FillingFromEmpty(w1: World, w2: World, w: World, p: Place, content: Bytes)
    requires Filling(w1, w2, p, content) && Gone(w2, p) && Filling(w2, w, p, content)
    ensures Filling(w1, w, p, content)
    ensures FreshWith(w2, w, p, content) ==> FreshWith(w1, w, p, content)
  {
    SteadyTransitive(w1, w2, w, {p}, {p});
    assert {p} + {p} == {p};
  }

  lemma FillingCleared(w1: World, v: World, p: Place, content: Bytes)
    requires Sound(w1) && (v == w1 || v == Unlinked(w1, p))
    ensures Filling(w1, v, p, content)
  {
    SteadyRefl(w1, {p});
    UnlinkedSteady(w1, p);
  }

  /** Metadata of the file being filled. */
  lemma FillingRetouched(w1: World, w: World, v: World, p: Place, content: Bytes, stat: Stat, pc: bool, ro: bool)
    requires Sound(w1) && Filling(w1, w, p, content) && Fresh(w1, w, p)
    requires v == w || exists steps: nat :: v == Retouched(w, p, stat, pc, ro, steps)
    ensures Filling(w1, v, p, content) && Fresh(w1, v, p) && BytesAt(v, p) == BytesAt(w, p)
  {
    if v != w {
      var steps: nat :| v == Retouched(w, p, stat, pc, ro, steps);
      RetouchedStores(w, p, stat, pc, ro, steps);
      StoredSteady(w1, w, p, v.files[w.entries[p].id], {p});
    }
  }

  /** What a stored continuation vouches for. */
  ghost predicate Resumable(s: Setup, op: Operation, w0: World, w: World, c: Continuation) {
    match c
    case UpdateContinuation(_, _, _, published) =>
      && op.kind == Update && Evidenced(s, op, w0) && DuringUpdate(s, op, w0, w) && Displaces(op, w0)
      && (s.trashOnUpdate ==> BackedUp(s, op, w0, w))
      && (Published(s, op, w0, w) || (!published && Same(w0, w, TargetPlace(op)) && Ready(s, op, w0, w)))
    case MoveUpdateContinuation(_, _) =>
      && op.kind == MoveUpdate && op.prior.Some? && Evidenced(s, op, w0) && DuringMoveUpdate(s, op, w0, w)
      && TargetPlace(op) !in w0.entries && Published(s, op, w0, w)
      && HasFile(w0, Live(Fold(op.prior.value)))
  }

  /** It may be dressed as reviewed before it is replaced or removed, and afterwards if it is linked into trash. */
  ghost predicate Restores(s: Setup, op: Operation, w0: World, w: World, stat: Stat) {
    && op.targetExpected == Some(stat)
    && ((op.kind == Delete && !Gone(w, TargetPlace(op))) || (op.kind == Update && (LinksBackup(s) || !Published(s, op, w0, w))))
  }

  lemma RestoredIsWritable(s: Setup, op: Operation, w0: World, w: World, p: Place, stat: Stat, pc: bool, ro: bool, steps: nat)
    requires Sound(w0) && During(s, op, w0, w) && Evidenced(s, op, w0) && HasFile(w, p) && Own(s, op, w0, w, p)
    requires Fresh(w0, w, p) || Restores(s, op, w0, w, stat)
    ensures Writable(s, op, w0, w, p, Retouched(w, p, stat, pc, ro, steps).files[w.entries[p].id])
  {
    if !Fresh(w0, w, p) {
      var id := w.entries[p].id;
      OldReviewed(s, op, w0, id);
      DuringIsSteady(s, op, w0, w);
      assert ObjectKept(w0, w, Touched(s, op), id);
    }
  }

  /** No older file was read-only to begin with, or it has been unlocked. */
  lemma PlainIsBared(s: Setup, op: Operation, w0: World, w: World)
    requires Sound(w0) && op.kind in {Update, Delete} && Evidenced(s, op, w0) && During(s, op, w0, w)
    requires !op.targetExpected.value.metadata.attributes.readonly
    ensures Bared(op, w0, w)
  {
    if HasFile(w0, TargetPlace(op)) {
      var id := w0.entries[TargetPlace(op)].id;
      assert NamedIn(w0, Touched(s, op), id);
      OldReviewed(s, op, w0, id);
      DuringIsSteady(s, op, w0, w);
      assert ObjectKept(w0, w, Touched(s, op), id);
    }
  }

  /** Clearing the read-only bit of the old file leaves it the version it was. */
  lemma VersionStays(s: Setup, op: Operation, w0: World, w1: World, w: World, serial: string, live: Stat)
    requires Sound(w0) && HasFile(w0, TargetPlace(op)) && DuringUpdate(s, op, w0, w1) && DuringUpdate(s, op, w0, w)
    requires Same(w0, w1, TargetPlace(op)) && Reviewed(w1, serial, TargetPlace(op), live)
    ensures Same(w0, w, TargetPlace(op)) ==> StatAt(w, serial, TargetPlace(op)).Some? && SameFileVersion(StatAt(w, serial, TargetPlace(op)).value, live)
  {
    var id := w0.entries[TargetPlace(op)].id;
    var touched := {TargetPlace(op), TempPlace(s, op), TrashPlace(s, op.target), BackupTempPlace(s, op)};
    assert ObjectKept(w0, w1, touched, id) && ObjectKept(w0, w, touched, id);
  }

  /** Clearing the read-only bit of the target, while it is still there. */
  lemma UnprotectedIsDuring(s: Setup, op: Operation, w0: World, w: World)
    requires Sound(w0) && op.kind in {Update, Delete} && Evidenced(s, op, w0) && During(s, op, w0, w)
    requires HasFile(w, TargetPlace(op)) && Same(w0, w, TargetPlace(op))
    ensures var v := Unprotected(w, TargetPlace(op));
            && During(s, op, w0, v) && v.entries == w.entries && Bared(op, w0, v)
            && (Ready(s, op, w0, w) ==> Ready(s, op, w0, v))
            && (op.kind == Update && BackedUp(s, op, w0, w) ==> BackedUp(s, op, w0, v))
  {
    var target := TargetPlace(op);
    OwnTarget(s, op, w0, w);
    DuringIsSteady(s, op, w0, w);
    assert ObjectKept(w0, w, Touched(s, op), w.entries[target].id);
    StoredIsDuring(s, op, w0, w, target, Unlocked(w.files[w.entries[target].id]));
    StoredRedecorates(w0, w, target, Unlocked(w.files[w.entries[target].id]));
    RedecoratedSlots(s, op, w0, w, Unprotected(w, target));
  }

  /** Only the file object `id` was written to. */
  ghost predicate WrittenOnly(w: World, v: World, id: nat) {
    v.entries == w.entries && forall i :: i in w.files && i != id ==> i in v.files && v.files[i] == w.files[i]
  }

  lemma DressedIsDuring(s: Setup, op: Operation, w0: World, w: World, v: World, p: Place, stat: Stat, pc: bool, ro: bool)
    requires Sound(w0) && Sound(w) && During(s, op, w0, w) && HasFile(w, p)
    requires Own(s, op, w0, w, p) && Evidenced(s, op, w0) && (Publishes(op) || op.kind == Delete)
    requires Fresh(w0, w, p) || Restores(s, op, w0, w, stat)
    requires v == w || exists steps: nat :: v == Retouched(w, p, stat, pc, ro, steps)
    ensures During(s, op, w0, v) && v.entries == w.entries && HasFile(v, p) && Sound(v)
    ensures BytesAt(v, p) == BytesAt(w, p) && WrittenOnly(w, v, w.entries[p].id)
    ensures Publishes(op) && Published(s, op, w0, w) ==> Published(s, op, w0, v)
    ensures Publishes(op) && Ready(s, op, w0, w) ==> Ready(s, op, w0, v)
    ensures op.kind == Update && BackedUp(s, op, w0, w) ==> BackedUp(s, op, w0, v)
  {
    if v != w {
      var steps: nat :| v == Retouched(w, p, stat, pc, ro, steps);
      RetouchedStores(w, p, stat, pc, ro, steps);
      RestoredIsWritable(s, op, w0, w, p, stat, pc, ro, steps);
      StoredIsDuring(s, op, w0, w, p, v.files[w.entries[p].id]);
    }
    DuringIsSteady(s, op, w0, v);
  }

  lemma EvidencedDisplaces(s: Setup, op: Operation, w0: World)
    requires Sound(w0) && op.kind == Update && Shaped(op) && Evidenced(s, op, w0)
    ensures Displaces(op, w0)
  {
  }

  /** A file still at the operation's target is its own to dress. */
  lemma OwnTarget(s: Setup, op: Operation, w0: World, w: World)
    requires HasFile(w, TargetPlace(op)) && Same(w0, w, TargetPlace(op)) && TargetPlace(op) in Touched(s, op)
    ensures Own(s, op, w0, w, TargetPlace(op))
  {
    assert NamedIn(w0, Touched(s, op), w.entries[TargetPlace(op)].id);
  }

  /** The backup is readable, whichever way it was made. */
  lemma BackupReadable(s: Setup, op: Operation, w0: World, w: World)
    requires Sound(w0) && op.kind == Update && DuringUpdate(s, op, w0, w) && BackedUp(s, op, w0, w)
    ensures HasFile(w, TrashPlace(s, op.target))
    ensures BytesAt(w, TrashPlace(s, op.target)) == BytesAt(w0, TargetPlace(op))
    ensures Own(s, op, w0, w, TrashPlace(s, op.target))
  {
    if s.hardlinks {
      assert TargetPlace(op) in Touched(s, op) && TargetPlace(op).Live?;
      SameKeepsBytes(w0, w, Touched(s, op), TargetPlace(op), TrashPlace(s, op.target));
    }
  }

  lemma FillBackupStates(s: Setup, op: Operation, w0: World, w1: World, h0: seq<World>, h: seq<World>)
    requires Sound(w0) && UpdateReady(s, op, w0, w1) && s.trashOnUpdate && !s.hardlinks && TrashPlace(s, op.target) !in w1.entries
    requires AllFilling(h0, h, w1, BackupTempPlace(s, op), BytesAt(w0, TargetPlace(op)))
    ensures AllDuring(h0, h, s, op, w0)
  {
    forall i | |h0| <= i < |h|
      ensures During(s, op, w0, h[i])
    {
      FillBackupStep(s, op, w0, w1, h[i]);
    }
  }

  lemma DuringStart(s: Setup, op: Operation, w0: World)
    requires Sound(w0)
    ensures During(s, op, w0, w0)
  {
    SteadyRefl(w0, Touched(s, op));
    SteadyRefl(w0, {});
  }

  class Machine {
    const setup: Setup
    const volume: TargetVolume
    const progress: ProgressTracker
    var inflight: Option<Place>
    var continuations: map<OpId, Continuation>

    ghost predicate Valid()
      reads this, volume, progress
    {
      progress.Valid() && volume.Logged() && Sound(volume.world) && SourceSound(setup) && setup.serial == volume.serial
    }

    constructor (setup: Setup, volume: TargetVolume, progress: ProgressTracker)
      requires progress.Valid() && volume.Logged() && Sound(volume.world) && SourceSound(setup) && setup.serial == volume.serial
      ensures Valid() && this.setup == setup && this.volume == volume && this.progress == progress
      ensures inflight == None && continuations == map[]
    {
      this.setup, this.volume, this.progress := setup, volume, progress;
      inflight, continuations := None, map[];
    }

    /** The only temporary a cleanup may remove is the current operation's, which was created on
        evidence, and none once its content is published. */
    ghost predicate Tracks(op: Operation, w0: World)
      reads this
    {
      && (inflight == None || (inflight == Some(TempPlace(setup, op)) && Evidenced(setup, op, w0)))
      && (op.id in continuations && (continuations[op.id].MoveUpdateContinuation? || continuations[op.id].published) ==> inflight == None)
    }

    /** A stored continuation is sound, and without one nothing beyond preparation was done. */
    ghost predicate Resumes(op: Operation, w0: World)
      reads this, volume
    {
      if op.id in continuations
      then
        && Resumable(setup, op, w0, volume.world, continuations[op.id])
        && (op.kind == Update <==> continuations[op.id].UpdateContinuation?)
      else
        && (op.kind == Update ==> Same(w0, volume.world, TargetPlace(op)))
        && (op.kind == MoveUpdate && op.prior.Some? ==>
              && Same(w0, volume.world, Live(Fold(op.prior.value)))
              && Same(w0, volume.world, TrashPlace(setup, op.prior.value)))
    }

    /** What holds between the attempts at an operation that started in `w0`. */
    ghost predicate UnderWay(op: Operation, w0: World)
      reads this, volume, progress
    {
      && Valid() && Sound(w0) && Shaped(op)
      && During(setup, op, w0, volume.world) && Resumes(op, w0) && Tracks(op, w0)
      && continuations.Keys <= {op.id}
      && (!Publishes(op) ==> inflight == None)
    }

    /** A cooperative stop may be requested here. */
    method Checkpoint() returns (r: Result<Unit>)
      ensures r.Err? ==> r.error == CancelRequested || r.error == PauseRequested
    {
      if * {
        return Err(CancelRequested);
      } else if * {
        return Err(PauseRequested);
      }
      return Ok(Unit);
    }

    /** What was recorded so far is made to survive a crash, or nothing is destroyed. */
    method FlushBeforeDestructive() returns (r: Result<Unit>)
      modifies volume`durable, volume`faults
      ensures r.Err? ==> r.error == Failure(RecorderFailed) && volume.faults == old(volume.faults) + 1
      ensures r.Ok? ==> volume.durable && volume.faults == old(volume.faults)
    {
      if * {
        volume.Blame();
        return Err(Failure(RecorderFailed));
      }
      volume.durable := true;
      return Ok(Unit);
    }

    // ---------------------------------------------------------------- guards

    method GuardSource(op: Operation) returns (r: Result<Unit>)
      ensures r.Ok? ==> NewContent(setup, op).Some?
    {
      if * {
        return Err(IoError);
      }
      if op.source.None? || op.sourceExpected.None? || Fold(op.source.value) !in setup.source {
        return Err(Failure(SourceMissing));
      }
      if !MatchesExpected(setup.source[Fold(op.source.value)].stat, op.sourceExpected.value) {
        return Err(Failure(SourceDrift));
      }
      return Ok(Unit);
    }

    method GuardPresent(p: Place, expected: Stat, directoryCleanup: bool) returns (r: Result<Unit>)
      ensures r.Ok? ==> p in volume.world.entries && StatAt(volume.world, volume.serial, p).Some?
      ensures r.Ok? && !directoryCleanup ==> Reviewed(volume.world, volume.serial, p, expected)
      ensures r.Ok? && directoryCleanup ==> MatchesDirectoryCleanup(StatAt(volume.world, volume.serial, p).value, expected)
    {
      var actual :- volume.StatPath(p);
      if actual == None {
        return Err(Failure(TargetMissing));
      }
      var matched := if directoryCleanup then MatchesDirectoryCleanup(actual.value, expected) else MatchesExpected(actual.value, expected);
      if !matched {
        return Err(Failure(if actual.value.kind != expected.kind then WrongType else TargetDrift));
      }
      return Ok(Unit);
    }

    method GuardAbsent(p: Place) returns (r: Result<Unit>)
      requires Sound(volume.world)
      ensures r.Ok? ==> p !in volume.world.entries
    {
      var actual :- volume.StatPath(p);
      if actual != None {
        return Err(Failure(DestinationOccupied));
      }
      return Ok(Unit);
    }

    method GuardExpectedTarget(op: Operation) returns (r: Result<Unit>)
      requires Sound(volume.world)
      ensures r.Ok? && op.targetExpected.None? ==> TargetPlace(op) !in volume.world.entries
      ensures r.Ok? && op.targetExpected.Some? ==> Reviewed(volume.world, volume.serial, TargetPlace(op), op.targetExpected.value)
    {
      if op.targetExpected.None? {
        r := GuardAbsent(TargetPlace(op));
      } else {
        r := GuardPresent(TargetPlace(op), op.targetExpected.value, false);
      }
    }

    method RequireStat(p: Place) returns (r: Result<Stat>)
      ensures r.Ok? ==> StatAt(volume.world, volume.serial, p) == Some(r.value)
    {
      var actual :- volume.StatPath(p);
      if actual == None {
        return Err(IoError);
      }
      return Ok(actual.value);
    }

    // --------------------------------------------------------- streaming bytes

    /** Write out one chunk, however many partial writes it takes. */
    method WriteChunk(p: Place, content: Bytes, start: nat, end: nat, ghost w1: World) returns (r: Result<Unit>)
      requires Sound(w1) && start <= end <= |content|
      requires volume.Logged() && Filling(w1, volume.world, p, content) && FreshWith(w1, volume.world, p, content[..start])
      modifies volume
      ensures volume.Logged()
      ensures Filling(w1, volume.world, p, content) && Fresh(w1, volume.world, p)
      ensures AllFilling(old(volume.history), volume.history, w1, p, content)
      ensures r.Ok? ==> BytesAt(volume.world, p) == content[..end]
    {
      var at := start;
      while at < end
        invariant start <= at <= end && volume.Logged()
        invariant Filling(w1, volume.world, p, content) && FreshWith(w1, volume.world, p, content[..at])
        invariant AllFilling(old(volume.history), volume.history, w1, p, content)
        decreases end - at
      {
        ghost var before := volume.world;
        var wrote, n := volume.Write(p, content[at..end]);
        assert content[..at] + content[at..end][..n] == content[..at + n];
        FillingStored(w1, before, volume.world, p, content, content[..at + n]);
        if wrote.Err? {
          return Err(wrote.error);
        }
        if wrote.value == 0 {
          return Err(IoError);
        }
        at := at + wrote.value;
      }
      return Ok(Unit);
    }

    /** Chunked streaming: the file holds a prefix of the content at every step, and all of it
        on success. */
    method Stream(p: Place, content: Bytes, counted: bool, ghost w1: World) returns (r: Result<nat>)
      requires progress.Valid() && Sound(w1) && volume.Logged()
      requires Filling(w1, volume.world, p, content) && FreshWith(w1, volume.world, p, [])
      modifies volume, progress
      ensures progress.Advanced() && volume.Logged()
      ensures Filling(w1, volume.world, p, content) && Fresh(w1, volume.world, p)
      ensures AllFilling(old(volume.history), volume.history, w1, p, content)
      ensures r.Ok? ==> r.value == |content| && BytesAt(volume.world, p) == content
    {
      var done := 0;
      while true
        invariant progress.Advanced() && volume.Logged()
        invariant 0 <= done <= |content|
        invariant Filling(w1, volume.world, p, content) && FreshWith(w1, volume.world, p, content[..done])
        invariant AllFilling(old(volume.history), volume.history, w1, p, content)
        decreases |content| - done
      {
        var _ :- Checkpoint();
        if * {
          return Err(IoError);
        }
        if done == |content| {
          assert content[..done] == content;
          return Ok(done);
        }
        var size: int :| 1 <= size <= |content| - done;
        var _ :- WriteChunk(p, content, done, done + size, w1);
        done := done + size;
        if counted {
          progress.Copied(size);
        }
      }
    }

    /** Create a new file and stream the content into it. */
    method CopyInto(p: Place, content: Bytes, counted: bool) returns (r: Result<nat>)
      requires Valid() && p !in volume.world.entries
      modifies volume, progress
      ensures Valid() && progress.Advanced()
      ensures Filling(old(volume.world), volume.world, p, content)
      ensures AllFilling(old(volume.history), volume.history, old(volume.world), p, content)
      ensures r.Ok? ==> r.value == |content| && FreshWith(old(volume.world), volume.world, p, content)
    {
      ghost var w1 := volume.world;
      SteadyRefl(w1, {p});
      var _ :- volume.Durable();
      var made := volume.CreateNew(p);
      FillingCreated(w1, volume.world, p, content);
      if made.Err? {
        return Err(made.error);
      }
      var size :- Stream(p, content, counted, w1);
      var _ :- volume.Durable();
      return Ok(size);
    }

    // --------------------------------------------------------------- preparing

    /** Recover the owned temporary, fill it, and dress it, leaving everything else alone. */
    method FillTemp(op: Operation, content: Bytes) returns (r: Result<Unit>)
      requires Valid() && op.sourceExpected.Some? && NewContent(setup, op) == Some(content)
      modifies volume, progress, this`inflight
      ensures Valid() && progress.Advanced()
      ensures Filling(old(volume.world), volume.world, TempPlace(setup, op), content)
      ensures AllFilling(old(volume.history), volume.history, old(volume.world), TempPlace(setup, op), content)
      ensures r.Ok? ==> FreshWith(old(volume.world), volume.world, TempPlace(setup, op), content)
      ensures inflight == old(inflight) || inflight == Some(TempPlace(setup, op))
    {
      var temp := TempPlace(setup, op);
      ghost var w1 := volume.world;
      var removed := volume.RemoveOwnedTemp(temp);
      FillingCleared(w1, volume.world, temp, content);
      if removed.Err? {
        return Err(Failure(CleanupFailed));
      }
      inflight := Some(temp);
      ghost var w2, h2 := volume.world, volume.history;
      var copied := CopyInto(temp, content, true);
      forall i | |h2| <= i < |volume.history|
        ensures Filling(w1, volume.history[i], temp, content)
      {
        FillingFromEmpty(w1, w2, volume.history[i], temp, content);
      }
      FillingFromEmpty(w1, w2, volume.world, temp, content);
      var size :- copied;
      r := DressTemp(op, content, size, w1);
    }

    method DressTemp(op: Operation, content: Bytes, size: nat, ghost w1: World) returns (r: Result<Unit>)
      requires Valid() && op.sourceExpected.Some? && Sound(w1)
      requires Filling(w1, volume.world, TempPlace(setup, op), content) && FreshWith(w1, volume.world, TempPlace(setup, op), content)
      modifies volume
      ensures Valid()
      ensures Filling(w1, volume.world, TempPlace(setup, op), content) && FreshWith(w1, volume.world, TempPlace(setup, op), content)
      ensures AllFilling(old(volume.history), volume.history, w1, TempPlace(setup, op), content)
    {
      var temp := TempPlace(setup, op);
      if size != op.sourceExpected.value.size {
        return Err(Failure(SourceDrift));
      }
      if setup.preserveAcl {
        var secured := volume.Durable();
        if secured.Err? {
          return Err(Failure(AclCopyFailed));
        }
      }
      var intended := if op.intended.Some? then op.intended.value else op.sourceExpected.value;
      ghost var before := volume.world;
      var dressed := volume.ApplyMetadata(temp, intended, setup.preserveCreated, false);
      FillingRetouched(w1, before, volume.world, temp, content, intended, setup.preserveCreated, false);
      var _ :- dressed;
      r := volume.Durable();
    }

    /** Guard, copy to the owned temporary, and guard again. */
    method PrepareCopy(op: Operation, ghost w0: World) returns (r: Result<Unit>)
      requires Valid() && Sound(w0) && Shaped(op) && Publishes(op)
      requires During(setup, op, w0, volume.world)
      requires op.kind == Update ==> op.targetExpected.Some? && Same(w0, volume.world, TargetPlace(op))
      requires op.kind == MoveUpdate ==> volume.world != w0 || PriorReviewed(setup, op, w0)
      modifies volume, progress, this`inflight
      ensures Valid() && progress.Advanced()
      ensures During(setup, op, w0, volume.world)
      ensures AllDuring(old(volume.history), volume.history, setup, op, w0)
      ensures Calm(old(volume.world), volume.world, {TempPlace(setup, op)})
      ensures op.kind == Update ==> Same(w0, volume.world, TargetPlace(op))
      ensures inflight == old(inflight) || (inflight == Some(TempPlace(setup, op)) && Evidenced(setup, op, w0))
      ensures r.Ok? ==> Ready(setup, op, w0, volume.world) && Unpublished(setup, op, w0, volume.world) && Evidenced(setup, op, w0)
      ensures r.Ok? && op.targetExpected.None? ==> TargetPlace(op) !in volume.world.entries
      ensures r.Ok? && op.targetExpected.Some? ==> Reviewed(volume.world, volume.serial, TargetPlace(op), op.targetExpected.value)
    {
      ghost var w1, h1 := volume.world, volume.history;
      SteadyRefl(w1, {TempPlace(setup, op)});
      var _ :- GuardSource(op);
      var _ :- GuardExpectedTarget(op);
      assert Unpublished(setup, op, w0, w1);
      assert Evidenced(setup, op, w0);
      var _ :- volume.Resolve(TargetPlace(op), false);
      var content := setup.source[Fold(op.source.value)].bytes;
      var filled := FillTemp(op, content);
      forall i | |h1| <= i < |volume.history|
        ensures During(setup, op, w0, volume.history[i])
      {
        PreparingIsDuring(setup, op, w0, w1, volume.history[i]);
      }
      PreparingIsDuring(setup, op, w0, w1, volume.world);
      var _ :- filled;
      var _ :- Checkpoint();
      var _ :- GuardSource(op);
      r := GuardExpectedTarget(op);
    }

    /** The file is read-only exactly if it is to be. */
    predicate Shielded(w: World, p: Place, intended: Stat) {
      HasFile(w, p) && w.files[w.entries[p].id].metadata.attributes.readonly == intended.metadata.attributes.readonly
    }

    /** Metadata of one of the operation's own files, which keeps every other fact about it. */
    method Dress(op: Operation, p: Place, intended: Stat, preserveCreated: bool, applyReadonly: bool, ghost w0: World)
      returns (r: Result<Unit>)
      requires Valid() && Sound(w0) && During(setup, op, w0, volume.world) && HasFile(volume.world, p)
      requires Own(setup, op, w0, volume.world, p) && Evidenced(setup, op, w0) && (Publishes(op) || op.kind == Delete)
      requires Fresh(w0, volume.world, p) || Restores(setup, op, w0, volume.world, intended)
      modifies volume
      ensures Valid() && During(setup, op, w0, volume.world)
      ensures AllDuring(old(volume.history), volume.history, setup, op, w0)
      ensures WrittenOnly(old(volume.world), volume.world, old(volume.world).entries[p].id)
      ensures HasFile(volume.world, p) && BytesAt(volume.world, p) == old(BytesAt(volume.world, p))
      ensures Publishes(op) && old(Published(setup, op, w0, volume.world)) ==> Published(setup, op, w0, volume.world)
      ensures Publishes(op) && old(Ready(setup, op, w0, volume.world)) ==> Ready(setup, op, w0, volume.world)
      ensures op.kind == Update && old(BackedUp(setup, op, w0, volume.world)) ==> BackedUp(setup, op, w0, volume.world)
      ensures r.Ok? && applyReadonly && preserveCreated == setup.preserveCreated ==> Wears(setup, volume.world, p, intended)
      ensures r.Ok? && applyReadonly ==> Shielded(volume.world, p, intended)
      ensures old(volume.faults) <= volume.faults && (r.Err? ==> volume.faults > old(volume.faults))
    {
      ghost var before := volume.world;
      r := volume.ApplyMetadata(p, intended, preserveCreated, applyReadonly);
      DressedIsDuring(setup, op, w0, before, volume.world, p, intended, preserveCreated, applyReadonly);
    }

    /** Conditional publish of a complete temporary; it never replaces. */
    method Publish(op: Operation, ghost w0: World) returns (r: Result<Unit>)
      requires Valid() && Sound(w0) && Publishes(op) && op.kind != Update
      requires During(setup, op, w0, volume.world)
      requires Ready(setup, op, w0, volume.world) && Unpublished(setup, op, w0, volume.world) && Evidenced(setup, op, w0)
      requires op.kind == MoveUpdate ==> Live(Fold(op.prior.value)) in volume.world.entries
      modifies volume, this`inflight
      ensures Valid() && During(setup, op, w0, volume.world)
      ensures AllDuring(old(volume.history), volume.history, setup, op, w0)
      ensures Calm(old(volume.world), volume.world, {TempPlace(setup, op), TargetPlace(op)})
      ensures r.Ok? ==> Published(setup, op, w0, volume.world) && inflight == None
      ensures r.Err? ==> inflight == old(inflight)
    {
      var target, temp := TargetPlace(op), TempPlace(setup, op);
      ghost var w2 := volume.world;
      SteadyRefl(w2, {temp, target});
      r := volume.RenameNew(temp, target);
      if volume.world != w2 {
        PublishIsDuring(setup, op, w0, w2);
        RenamedCalm(w2, temp, target);
      }
      if r.Err? {
        return if r.error == AlreadyExists then Err(Failure(DestinationOccupied)) else r;
      }
      inflight := None;
    }

    /** The intended metadata on the published file, read-only included. */
    method DressTarget(op: Operation, ghost w0: World) returns (r: Result<Unit>)
      requires Valid() && Sound(w0) && Publishes(op) && During(setup, op, w0, volume.world) && Evidenced(setup, op, w0)
      requires Published(setup, op, w0, volume.world)
      modifies volume
      ensures Valid() && During(setup, op, w0, volume.world)
      ensures AllDuring(old(volume.history), volume.history, setup, op, w0)
      ensures WrittenOnly(old(volume.world), volume.world, old(volume.world).entries[TargetPlace(op)].id) && Published(setup, op, w0, volume.world)
      ensures op.kind == Update && old(BackedUp(setup, op, w0, volume.world)) ==> BackedUp(setup, op, w0, volume.world)
      ensures r.Ok? ==> WearsIntended(setup, op, volume.world)
    {
      var target := TargetPlace(op);
      var intended := if op.intended.Some? then op.intended.value else op.sourceExpected.value;
      var _ :- Dress(op, target, intended, setup.preserveCreated, true, w0);
      var _ :- RequireStat(target);
      return Ok(Unit);
    }

    // -------------------------------------------------------------------- copy

    /** Prepare the copy and publish it at a target that was free from the start. */
    method PlaceCopy(op: Operation, ghost w0: World) returns (r: Result<Unit>)
      requires Valid() && Sound(w0) && Shaped(op) && op.kind == Copy
      requires During(setup, op, w0, volume.world) && Tracks(op, w0) && op.id !in continuations
      modifies volume, progress, this`inflight
      ensures Valid() && progress.Advanced()
      ensures During(setup, op, w0, volume.world) && Tracks(op, w0)
      ensures AllDuring(old(volume.history), volume.history, setup, op, w0)
      ensures r.Ok? ==> inflight == None && Evidenced(setup, op, w0) && Published(setup, op, w0, volume.world)
    {
      var _ :- PrepareCopy(op, w0);
      r := Publish(op, w0);
    }

    method AttemptCopy(op: Operation, ghost w0: World) returns (r: Result<Outcome>)
      requires Valid() && Sound(w0) && Shaped(op) && op.kind == Copy
      requires During(setup, op, w0, volume.world) && Tracks(op, w0) && op.id !in continuations
      modifies volume, progress, this`inflight
      ensures Valid() && progress.Advanced()
      ensures During(setup, op, w0, volume.world) && Tracks(op, w0)
      ensures AllDuring(old(volume.history), volume.history, setup, op, w0)
      ensures r.Ok? ==> r.value == Succeeded && inflight == None && Achieved(setup, op, w0, volume.world)
    {
      var _ :- PlaceCopy(op, w0);
      var _ :- DressTarget(op, w0);
      return Ok(Succeeded);
    }

    // ------------------------------------------------------------------ update

    /** Copy the displaced file to the backup's own temporary name. */
    method FillBackup(op: Operation, ghost w0: World) returns (r: Result<Unit>)
      requires Valid() && Sound(w0) && UpdateReady(setup, op, w0, volume.world)
      requires setup.trashOnUpdate && !setup.hardlinks && TrashPlace(setup, op.target) !in volume.world.entries
      modifies volume, progress
      ensures Valid() && progress.Advanced() && UpdateReady(setup, op, w0, volume.world)
      ensures AllDuring(old(volume.history), volume.history, setup, op, w0)
      ensures TrashPlace(setup, op.target) !in volume.world.entries
      ensures r.Ok? ==> FreshWith(w0, volume.world, BackupTempPlace(setup, op), BytesAt(w0, TargetPlace(op)))
    {
      var backup := BackupTempPlace(setup, op);
      ghost var w1, h1 := volume.world, volume.history;
      SameKeepsBytes(w0, w1, Touched(setup, op), TargetPlace(op), TargetPlace(op));
      var content := BytesAt(volume.world, TargetPlace(op));
      var removed := volume.RemoveOwnedTemp(backup);
      FillingCleared(w1, volume.world, backup, content);
      FillBackupStep(setup, op, w0, w1, volume.world);
      if removed.Err? {
        return Err(Failure(CleanupFailed));
      }
      ghost var w2, h2 := volume.world, volume.history;
      var copied := CopyInto(backup, content, false);
      FillBackupStates(setup, op, w0, w2, h2, volume.history);
      FillBackupStep(setup, op, w0, w2, volume.world);
      r := if copied.Ok? then Ok(Unit) else Err(copied.error);
    }

    method DressReady(op: Operation, p: Place, intended: Stat, applyReadonly: bool, ghost w0: World) returns (r: Result<Unit>)
      requires Valid() && Sound(w0) && UpdateReady(setup, op, w0, volume.world) && HasFile(volume.world, p) && Fresh(w0, volume.world, p)
      modifies volume
      ensures Valid() && UpdateReady(setup, op, w0, volume.world)
      ensures AllDuring(old(volume.history), volume.history, setup, op, w0)
      ensures volume.world.entries == old(volume.world).entries
      ensures HasFile(volume.world, p) && BytesAt(volume.world, p) == old(BytesAt(volume.world, p))
      ensures old(BackedUp(setup, op, w0, volume.world)) ==> BackedUp(setup, op, w0, volume.world)
    {
      r := Dress(op, p, intended, true, applyReadonly, w0);
    }

    method RenameBackup(op: Operation, ghost w0: World) returns (r: Result<Unit>)
      requires Valid() && Sound(w0) && UpdateReady(setup, op, w0, volume.world)
      requires setup.trashOnUpdate && !setup.hardlinks && TrashPlace(setup, op.target) !in volume.world.entries
      requires FreshWith(w0, volume.world, BackupTempPlace(setup, op), BytesAt(w0, TargetPlace(op)))
      modifies volume
      ensures Valid() && UpdateReady(setup, op, w0, volume.world)
      ensures AllDuring(old(volume.history), volume.history, setup, op, w0)
      ensures TrashPlace(setup, op.target) in volume.world.entries ==> BackedUp(setup, op, w0, volume.world)
      ensures r.Ok? ==> BackedUp(setup, op, w0, volume.world)
    {
      ghost var w2 := volume.world;
      r := volume.RenameNew(BackupTempPlace(setup, op), TrashPlace(setup, op.target));
      if volume.world != w2 {
        PublishBackupStep(setup, op, w0, w2);
      }
    }

    /** Dress the finished backup like the displaced file, but for the read-only bit. */
    method DressBackup(op: Operation, ghost w0: World) returns (r: Result<Stat>)
      requires Valid() && Sound(w0) && UpdateReady(setup, op, w0, volume.world)
      requires FreshWith(w0, volume.world, BackupTempPlace(setup, op), BytesAt(w0, TargetPlace(op)))
      modifies volume
      ensures Valid() && UpdateReady(setup, op, w0, volume.world)
      ensures AllDuring(old(volume.history), volume.history, setup, op, w0)
      ensures volume.world.entries == old(volume.world).entries
      ensures FreshWith(w0, volume.world, BackupTempPlace(setup, op), BytesAt(w0, TargetPlace(op)))
    {
      var displaced :- RequireStat(TargetPlace(op));
      var _ :- DressReady(op, BackupTempPlace(setup, op), displaced, false, w0);
      var _ :- volume.Durable();
      return Ok(displaced);
    }

    /** Dress the finished backup and publish it into trash. */
    method PublishBackup(op: Operation, ghost w0: World) returns (r: Result<Unit>)
      requires Valid() && Sound(w0) && UpdateReady(setup, op, w0, volume.world)
      requires setup.trashOnUpdate && !setup.hardlinks && TrashPlace(setup, op.target) !in volume.world.entries
      requires FreshWith(w0, volume.world, BackupTempPlace(setup, op), BytesAt(w0, TargetPlace(op)))
      modifies volume
      ensures Valid() && UpdateReady(setup, op, w0, volume.world)
      ensures AllDuring(old(volume.history), volume.history, setup, op, w0)
      ensures TrashPlace(setup, op.target) in volume.world.entries ==> BackedUp(setup, op, w0, volume.world)
      ensures r.Ok? ==> BackedUp(setup, op, w0, volume.world)
    {
      var displaced :- DressBackup(op, w0);
      var _ :- RenameBackup(op, w0);
      r := DressReady(op, TrashPlace(setup, op.target), displaced, true, w0);
    }

    /** Put the displaced content into this run's trash, by link or by copy. */
    method MakeBackup(op: Operation, ghost w0: World) returns (r: Result<Unit>)
      requires Valid() && Sound(w0) && UpdateReady(setup, op, w0, volume.world)
      requires setup.trashOnUpdate && TrashPlace(setup, op.target) !in volume.world.entries
      modifies volume, progress
      ensures Valid() && progress.Advanced() && UpdateReady(setup, op, w0, volume.world)
      ensures AllDuring(old(volume.history), volume.history, setup, op, w0)
      ensures TrashPlace(setup, op.target) in volume.world.entries ==> BackedUp(setup, op, w0, volume.world)
      ensures r.Ok? ==> BackedUp(setup, op, w0, volume.world)
    {
      if setup.hardlinks {
        ghost var w1 := volume.world;
        r := volume.Hardlink(TargetPlace(op), TrashPlace(setup, op.target));
        if volume.world != w1 {
          LinkBackupStep(setup, op, w0, w1);
        }
      } else {
        var _ :- FillBackup(op, w0);
        r := PublishBackup(op, w0);
      }
    }

    /** Back the displaced file up if the plan asks for it.  A failure after the backup took effect
        is reported but does not undo it. */
    method EnsureBackup(op: Operation, ghost w0: World) returns (r: Result<Option<Error>>)
      requires Valid() && Sound(w0) && UpdateReady(setup, op, w0, volume.world)
      modifies volume, progress
      ensures Valid() && progress.Advanced() && UpdateReady(setup, op, w0, volume.world)
      ensures AllDuring(old(volume.history), volume.history, setup, op, w0)
      ensures r.Ok? && setup.trashOnUpdate ==> BackedUp(setup, op, w0, volume.world)
    {
      if !setup.trashOnUpdate {
        return Ok(None);
      }
      var trash := TrashPlace(setup, op.target);
      var _ :- volume.Resolve(trash, false);
      var existing :- volume.StatPath(trash);
      if existing != None {
        return Err(Failure(TrashCollision));
      }
      var made := MakeBackup(op, w0);
      if made.Ok? {
        return Ok(None);
      }
      if made.error == CancelRequested || made.error == PauseRequested {
        return Err(made.error);
      }
      var present :- volume.StatPath(trash);
      if present == None {
        return Err(made.error);
      }
      return Ok(Some(made.error));
    }

    /** Record what a retry may resume from. */
    method RecordUpdate(op: Operation, ghost w0: World) returns (r: Result<Unit>)
      requires Valid() && Sound(w0) && UpdateReady(setup, op, w0, volume.world)
      requires setup.trashOnUpdate ==> BackedUp(setup, op, w0, volume.world)
      requires op.id !in continuations
      modifies this`continuations
      ensures if r.Ok?
              then continuations.Keys == old(continuations).Keys + {op.id} && continuations[op.id].UpdateContinuation? && !continuations[op.id].published
              else continuations == old(continuations)
    {
      var preparedStat :- RequireStat(TempPlace(setup, op));
      var liveStat :- RequireStat(TargetPlace(op));
      var backupStat := None;
      if setup.trashOnUpdate {
        var found :- RequireStat(TrashPlace(setup, op.target));
        backupStat := Some(found);
      }
      continuations := continuations[op.id := UpdateContinuation(preparedStat, liveStat, backupStat, false)];
      return Ok(Unit);
    }

    /** Everything of an update but the backup and the replacement. */
    method PrepareUpdate(op: Operation, ghost w0: World) returns (r: Result<Unit>)
      requires Valid() && Sound(w0) && Shaped(op) && op.kind == Update && op.targetExpected.Some?
      requires During(setup, op, w0, volume.world) && Same(w0, volume.world, TargetPlace(op))
      modifies volume, progress, this`inflight
      ensures Valid() && progress.Advanced() && During(setup, op, w0, volume.world) && Same(w0, volume.world, TargetPlace(op))
      ensures AllDuring(old(volume.history), volume.history, setup, op, w0)
      ensures inflight == old(inflight) || (inflight == Some(TempPlace(setup, op)) && Evidenced(setup, op, w0))
      ensures r.Ok? ==> UpdateReady(setup, op, w0, volume.world)
    {
      var _ :- PrepareCopy(op, w0);
      EvidencedDisplaces(setup, op, w0);
      r := GuardPresent(TargetPlace(op), op.targetExpected.value, false);
    }

    /** First half of an update: prepare, back up, and record what a retry may resume from. */
    method StartUpdate(op: Operation, ghost w0: World) returns (r: Result<Unit>)
      requires Valid() && Sound(w0) && Shaped(op) && op.kind == Update && op.targetExpected.Some?
      requires During(setup, op, w0, volume.world) && Same(w0, volume.world, TargetPlace(op))
      requires op.id !in continuations && Tracks(op, w0)
      modifies volume, progress, this`inflight, this`continuations
      ensures Valid() && progress.Advanced() && During(setup, op, w0, volume.world)
      ensures AllDuring(old(volume.history), volume.history, setup, op, w0)
      ensures continuations.Keys <= old(continuations).Keys + {op.id}
      ensures if op.id in continuations
              then Resumable(setup, op, w0, volume.world, continuations[op.id]) && continuations[op.id].UpdateContinuation?
              else Same(w0, volume.world, TargetPlace(op))
      ensures Tracks(op, w0) && (r.Ok? ==> op.id in continuations)
    {
      var _ :- PrepareUpdate(op, w0);
      var late :- EnsureBackup(op, w0);
      var _ :- RecordUpdate(op, w0);
      if late.Some? {
        return Err(late.value);
      }
      return Ok(Unit);
    }

    /** The guards that must still hold right before the atomic replacement. */
    method GuardReplacement(op: Operation, c: Continuation, tempStat: Stat) returns (r: Result<Unit>)
      requires c.UpdateContinuation?
      ensures r.Ok? ==>
                && NewContent(setup, op).Some?
                && MatchesExpected(tempStat, c.preparedStat)
                && Reviewed(volume.world, volume.serial, TargetPlace(op), c.liveStat)
                && (setup.trashOnUpdate && c.backupStat.Some? ==>
                      Reviewed(volume.world, volume.serial, TrashPlace(setup, op.target), c.backupStat.value))
    {
      var _ :- GuardSource(op);
      if !MatchesExpected(tempStat, c.preparedStat) {
        return Err(Failure(TargetDrift));
      }
      var _ :- GuardPresent(TargetPlace(op), c.liveStat, false);
      if setup.trashOnUpdate && c.backupStat.Some? {
        var _ :- GuardPresent(TrashPlace(setup, op.target), c.backupStat.value, false);
      }
      return Ok(Unit);
    }

    method Unprotect(op: Operation, ghost w0: World) returns (r: Result<Unit>)
      requires Valid() && Sound(w0) && UpdateReady(setup, op, w0, volume.world)
      modifies volume
      ensures Valid() && UpdateReady(setup, op, w0, volume.world)
      ensures AllDuring(old(volume.history), volume.history, setup, op, w0)
      ensures old(BackedUp(setup, op, w0, volume.world)) ==> BackedUp(setup, op, w0, volume.world)
      ensures r.Ok? ==> Bared(op, w0, volume.world)
      ensures old(volume.faults) <= volume.faults && (r.Err? ==> volume.faults > old(volume.faults))
    {
      ghost var w1 := volume.world;
      r := volume.ClearReadonly(TargetPlace(op));
      UnprotectedIsDuring(setup, op, w0, w1);
    }

    method ReplaceTarget(op: Operation, ghost w0: World) returns (r: Result<Unit>)
      requires Valid() && Sound(w0) && UpdateReady(setup, op, w0, volume.world)
      requires setup.trashOnUpdate ==> BackedUp(setup, op, w0, volume.world)
      requires Bared(op, w0, volume.world)
      modifies volume
      ensures Valid() && DuringUpdate(setup, op, w0, volume.world)
      ensures AllDuring(old(volume.history), volume.history, setup, op, w0)
      ensures setup.trashOnUpdate ==> BackedUp(setup, op, w0, volume.world)
      ensures UpdateReady(setup, op, w0, volume.world) || Published(setup, op, w0, volume.world)
      ensures r.Ok? ==> Published(setup, op, w0, volume.world)
      ensures old(volume.faults) <= volume.faults && (r.Err? ==> volume.faults > old(volume.faults))
    {
      ghost var w1 := volume.world;
      var _ :- FlushBeforeDestructive();
      r := volume.Replace(TempPlace(setup, op), TargetPlace(op));
      if volume.world != w1 {
        ReplaceStep(setup, op, w0, w1);
      }
    }

    method RestoreLive(op: Operation, ghost w0: World) returns (r: Result<Unit>)
      requires Valid() && Sound(w0) && op.targetExpected.Some? && DuringUpdate(setup, op, w0, volume.world) && Evidenced(setup, op, w0)
      requires setup.trashOnUpdate ==> BackedUp(setup, op, w0, volume.world)
      requires UpdateReady(setup, op, w0, volume.world) || (op.kind == Update && Published(setup, op, w0, volume.world))
      modifies volume
      ensures Valid() && DuringUpdate(setup, op, w0, volume.world)
      ensures AllDuring(old(volume.history), volume.history, setup, op, w0)
      ensures setup.trashOnUpdate ==> BackedUp(setup, op, w0, volume.world)
      ensures UpdateReady(setup, op, w0, volume.world) || Published(setup, op, w0, volume.world)
      ensures old(volume.faults) <= volume.faults && (r.Err? ==> volume.faults > old(volume.faults))
      ensures r.Ok? ==> Shielded(volume.world, TargetPlace(op), op.targetExpected.value)
    {
      if Same(w0, volume.world, TargetPlace(op)) {
        OwnTarget(setup, op, w0, volume.world);
      }
      r := Dress(op, TargetPlace(op), op.targetExpected.value, setup.preserveCreated, true, w0);
    }

    /** Clear a read-only target and replace it. */
    method TrySwap(op: Operation, cleared: bool, ghost w0: World) returns (r: Result<Unit>)
      requires Valid() && Sound(w0) && UpdateReady(setup, op, w0, volume.world)
      requires op.targetExpected.Some? && cleared == op.targetExpected.value.metadata.attributes.readonly
      requires setup.trashOnUpdate ==> BackedUp(setup, op, w0, volume.world)
      modifies volume
      ensures Valid() && DuringUpdate(setup, op, w0, volume.world)
      ensures AllDuring(old(volume.history), volume.history, setup, op, w0)
      ensures setup.trashOnUpdate ==> BackedUp(setup, op, w0, volume.world)
      ensures UpdateReady(setup, op, w0, volume.world) || Published(setup, op, w0, volume.world)
      ensures r.Ok? ==> Published(setup, op, w0, volume.world)
      ensures old(volume.faults) <= volume.faults && (r.Err? ==> volume.faults > old(volume.faults))
    {
      r := Ok(Unit);
      if cleared {
        r := Unprotect(op, w0);
      } else {
        PlainIsBared(setup, op, w0, volume.world);
      }
      if r.Ok? {
        r := ReplaceTarget(op, w0);
      }
    }

    /** When a read-only file could not be replaced and nothing else went wrong, it is read-only as it was. */
    ghost predicate LiveSurvivesOneFault(op: Operation, w0: World, r: Result<Unit>, before: nat)
      requires op.targetExpected.Some?
      reads volume
    {
      r.Err? && op.targetExpected.value.metadata.attributes.readonly
      && volume.faults <= before + 1 && Same(w0, volume.world, TargetPlace(op)) ==>
        Shielded(volume.world, TargetPlace(op), op.targetExpected.value)
    }

    /** Clear a read-only target, replace it, and put the attribute back if it was not replaced. */
    method SwapIn(op: Operation, c: Continuation, ghost w0: World) returns (r: Result<Unit>, swapped: bool)
      requires Valid() && Sound(w0) && op.targetExpected.Some? && c.UpdateContinuation?
      requires UpdateReady(setup, op, w0, volume.world) && Reviewed(volume.world, volume.serial, TargetPlace(op), c.liveStat)
      requires setup.trashOnUpdate ==> BackedUp(setup, op, w0, volume.world)
      modifies volume
      ensures Valid() && DuringUpdate(setup, op, w0, volume.world)
      ensures AllDuring(old(volume.history), volume.history, setup, op, w0)
      ensures setup.trashOnUpdate ==> BackedUp(setup, op, w0, volume.world)
      ensures UpdateReady(setup, op, w0, volume.world) || Published(setup, op, w0, volume.world)
      ensures swapped ==> Published(setup, op, w0, volume.world)
      ensures r.Ok? ==> swapped
      ensures LiveSurvivesOneFault(op, w0, r, old(volume.faults))
    {
      ghost var w1 := volume.world;
      var cleared := op.targetExpected.value.metadata.attributes.readonly;
      r := TrySwap(op, cleared, w0);
      swapped := r.Ok?;
      r := PutBack(op, c, r, cleared && !swapped, w0, w1);
    }

    /** Look at the target after a try, and give an old file that is still there its read-only bit back. */
    method PutBack(op: Operation, c: Continuation, tried: Result<Unit>, cleared: bool, ghost w0: World, ghost w1: World) returns (r: Result<Unit>)
      requires Valid() && Sound(w0) && op.kind == Update && op.targetExpected.Some? && c.UpdateContinuation? && Evidenced(setup, op, w0)
      requires DuringUpdate(setup, op, w0, volume.world) && UpdateReady(setup, op, w0, w1) && Reviewed(w1, volume.serial, TargetPlace(op), c.liveStat)
      requires setup.trashOnUpdate ==> BackedUp(setup, op, w0, volume.world)
      requires UpdateReady(setup, op, w0, volume.world) || Published(setup, op, w0, volume.world)
      modifies volume
      ensures Valid() && DuringUpdate(setup, op, w0, volume.world)
      ensures AllDuring(old(volume.history), volume.history, setup, op, w0)
      ensures setup.trashOnUpdate ==> BackedUp(setup, op, w0, volume.world)
      ensures UpdateReady(setup, op, w0, volume.world) || Published(setup, op, w0, volume.world)
      ensures old(Published(setup, op, w0, volume.world)) && !cleared ==> Published(setup, op, w0, volume.world)
      ensures old(volume.faults) <= volume.faults && (r.Ok? ==> tried.Ok?)
      ensures cleared && volume.faults == old(volume.faults) && Same(w0, volume.world, TargetPlace(op)) ==>
                Shielded(volume.world, TargetPlace(op), op.targetExpected.value)
    {
      VersionStays(setup, op, w0, w1, volume.world, volume.serial, c.liveStat);
      var live := volume.StatPath(TargetPlace(op));
      r := tried;
      if live.Err? {
        volume.Blame();
        r := Err(live.error);
      } else if cleared && live.value.Some? && SameFileVersion(live.value.value, c.liveStat) {
        var restored := RestoreLive(op, w0);
        r := if restored.Err? then restored else r;
      }
    }

    /** A temporary that is gone means that an earlier attempt replaced the target. */
    method RecognizeReplaced(op: Operation, c: Continuation, ghost w0: World) returns (r: Result<Unit>)
      requires c.UpdateContinuation? && Resumable(setup, op, w0, volume.world, c) && Gone(volume.world, TempPlace(setup, op))
      ensures Published(setup, op, w0, volume.world)
    {
      var published :- RequireStat(TargetPlace(op));
      if !SameFileVersion(published, c.preparedStat) {
        return Err(Failure(TargetDrift));
      }
      return Ok(Unit);
    }

    /** Guard once more, then replace. */
    method GuardedSwap(op: Operation, c: Continuation, tempStat: Stat, ghost w0: World) returns (r: Result<Unit>, swapped: bool)
      requires Valid() && Sound(w0) && op.targetExpected.Some? && c.UpdateContinuation? && !c.published
      requires Resumable(setup, op, w0, volume.world, c) && !Gone(volume.world, TempPlace(setup, op))
      modifies volume
      ensures Valid() && Resumable(setup, op, w0, volume.world, c)
      ensures AllDuring(old(volume.history), volume.history, setup, op, w0)
      ensures swapped ==> Published(setup, op, w0, volume.world)
      ensures r.Ok? ==> swapped
    {
      swapped := false;
      r := GuardReplacement(op, c, tempStat);
      if r.Ok? {
        r, swapped := SwapIn(op, c, w0);
      }
    }

    /** Replace the target, or find that it was replaced. */
    method Swap(op: Operation, c: Continuation, ghost w0: World) returns (r: Result<Unit>, swapped: bool)
      requires Valid() && Sound(w0) && op.targetExpected.Some? && c.UpdateContinuation? && !c.published
      requires Resumable(setup, op, w0, volume.world, c)
      modifies volume
      ensures Valid() && Resumable(setup, op, w0, volume.world, c)
      ensures AllDuring(old(volume.history), volume.history, setup, op, w0)
      ensures swapped ==> Published(setup, op, w0, volume.world)
      ensures r.Ok? ==> swapped
    {
      swapped := false;
      var tempStat := volume.StatPath(TempPlace(setup, op));
      if tempStat.Err? {
        r := Err(tempStat.error);
      } else if tempStat.value == None {
        r := RecognizeReplaced(op, c, w0);
        swapped := r.Ok?;
      } else {
        r, swapped := GuardedSwap(op, c, tempStat.value.value, w0);
      }
    }

    /** Second half of an update: replace the target unless an earlier attempt already did. */
    method CommitUpdate(op: Operation, ghost w0: World) returns (r: Result<Unit>)
      requires Valid() && Sound(w0) && op.kind == Update && op.targetExpected.Some?
      requires op.id in continuations && continuations[op.id].UpdateContinuation?
      requires Resumable(setup, op, w0, volume.world, continuations[op.id]) && Tracks(op, w0)
      modifies volume, this`inflight, this`continuations
      ensures Valid() && Tracks(op, w0) && continuations.Keys == old(continuations).Keys
      ensures continuations[op.id].UpdateContinuation? && Resumable(setup, op, w0, volume.world, continuations[op.id])
      ensures AllDuring(old(volume.history), volume.history, setup, op, w0)
      ensures r.Ok? ==> inflight == None && Published(setup, op, w0, volume.world)
    {
      var c := continuations[op.id];
      if c.published {
        return Ok(Unit);
      }
      var swapped;
      r, swapped := Swap(op, c, w0);
      if swapped {
        continuations := continuations[op.id := c.(published := true)];
        inflight := None;
      }
    }

    /** Dress the backup like the displaced file and the target like the source. */
    method FinishUpdate(op: Operation, ghost c: Continuation, ghost w0: World) returns (r: Result<Outcome>)
      requires Valid() && Sound(w0) && op.kind == Update && op.targetExpected.Some? && c.UpdateContinuation?
      requires Resumable(setup, op, w0, volume.world, c) && Published(setup, op, w0, volume.world)
      modifies volume
      ensures Valid() && Resumable(setup, op, w0, volume.world, c)
      ensures AllDuring(old(volume.history), volume.history, setup, op, w0)
      ensures r.Ok? ==> r.value == Succeeded && Achieved(setup, op, w0, volume.world)
    {
      if setup.trashOnUpdate {
        BackupReadable(setup, op, w0, volume.world);
        var _ :- Dress(op, TrashPlace(setup, op.target), op.targetExpected.value, setup.preserveCreated, true, w0);
      }
      var _ :- DressTarget(op, w0);
      return Ok(Succeeded);
    }

    method ResumeUpdate(op: Operation, ghost w0: World) returns (r: Result<Outcome>)
      requires Valid() && Sound(w0) && op.kind == Update && op.targetExpected.Some?
      requires op.id in continuations && continuations[op.id].UpdateContinuation?
      requires Resumable(setup, op, w0, volume.world, continuations[op.id]) && Tracks(op, w0)
      modifies volume, this`inflight, this`continuations
      ensures Valid() && Tracks(op, w0) && continuations.Keys == old(continuations).Keys
      ensures continuations[op.id].UpdateContinuation? && Resumable(setup, op, w0, volume.world, continuations[op.id])
      ensures AllDuring(old(volume.history), volume.history, setup, op, w0)
      ensures r.Ok? ==> r.value == Succeeded && inflight == None && Achieved(setup, op, w0, volume.world)
    {
      var _ :- CommitUpdate(op, w0);
      ghost var c := continuations[op.id];
      r := FinishUpdate(op, c, w0);
      assert continuations[op.id] == c;
      assert Tracks(op, w0) by {
        assert inflight == None;
      }
    }

    /** The first half of an update, unless an earlier attempt has done it. */
    method BeginUpdate(op: Operation, ghost w0: World) returns (r: Result<Unit>)
      requires Valid() && Sound(w0) && Shaped(op) && op.kind == Update
      requires During(setup, op, w0, volume.world) && Resumes(op, w0) && Tracks(op, w0)
      modifies volume, progress, this`inflight, this`continuations
      ensures Valid() && progress.Advanced() && During(setup, op, w0, volume.world) && Resumes(op, w0) && Tracks(op, w0)
      ensures continuations.Keys <= old(continuations).Keys + {op.id}
      ensures AllDuring(old(volume.history), volume.history, setup, op, w0)
      ensures r.Ok? ==> op.targetExpected.Some? && op.id in continuations
    {
      r := Ok(Unit);
      if op.targetExpected.None? {
        r := Err(Failure(TargetMissing));
      } else if op.id !in continuations {
        r := StartUpdate(op, w0);
      }
    }

    /** One attempt at an update, resuming where the previous one stopped. */
    method AttemptUpdate(op: Operation, ghost w0: World) returns (r: Result<Outcome>)
      requires Valid() && Sound(w0) && Shaped(op) && op.kind == Update
      requires During(setup, op, w0, volume.world) && Resumes(op, w0) && Tracks(op, w0)
      modifies volume, progress, this`inflight, this`continuations
      ensures Valid() && progress.Advanced() && During(setup, op, w0, volume.world) && Resumes(op, w0) && Tracks(op, w0)
      ensures continuations.Keys <= old(continuations).Keys + {op.id}
      ensures AllDuring(old(volume.history), volume.history, setup, op, w0)
      ensures r.Ok? ==> r.value == Succeeded && inflight == None && Achieved(setup, op, w0, volume.world)
    {
      var begun := BeginUpdate(op, w0);
      if begun.Ok? {
        r := ResumeUpdate(op, w0);
      } else {
        r := Err(begun.error);
      }
    }

    // --------------------------------------------------------- move, trash, recase

    /** Rename a reviewed file to a free place. */
    method Relocate(op: Operation, a: Place, b: Place, ghost w0: World) returns (r: Result<Unit>)
      requires Valid() && Sound(w0) && HasFile(volume.world, a) && a.Live?
      requires DuringRelocation(w0, volume.world, a, b)
      requires forall w :: DuringRelocation(w0, w, a, b) ==> During(setup, op, w0, w)
      modifies volume
      ensures Valid() && DuringRelocation(w0, volume.world, a, b)
      ensures AllDuring(old(volume.history), volume.history, setup, op, w0)
      ensures r.Ok? ==> Relocated(w0, volume.world, a, b)
    {
      var _ :- FlushBeforeDestructive();
      ghost var w1 := volume.world;
      r := volume.RenameAway(a, b);
      if volume.world != w1 {
        RelocateStep(w0, w1, a, b);
      }
    }

    method AttemptMove(op: Operation, ghost w0: World) returns (r: Result<Outcome>)
      requires Valid() && Sound(w0) && Shaped(op) && op.kind == Move && During(setup, op, w0, volume.world)
      modifies volume
      ensures Valid() && During(setup, op, w0, volume.world)
      ensures AllDuring(old(volume.history), volume.history, setup, op, w0)
      ensures r.Ok? ==> r.value == Succeeded && Achieved(setup, op, w0, volume.world)
    {
      if op.prior.None? || op.priorExpected.None? {
        return Err(Failure(TargetMissing));
      }
      var prior, target := Live(Fold(op.prior.value)), TargetPlace(op);
      var _ :- GuardPresent(prior, op.priorExpected.value, false);
      var _ :- GuardAbsent(target);
      var _ :- volume.Resolve(prior, true);
      var _ :- volume.Resolve(target, false);
      assert Evidenced(setup, op, w0);
      var moved := Relocate(op, prior, target, w0);
      if moved.Err? {
        return Err(if moved.error == AlreadyExists then Failure(DestinationOccupied) else moved.error);
      }
      var _ :- RequireStat(target);
      return Ok(Succeeded);
    }

    method AttemptTrash(op: Operation, ghost w0: World) returns (r: Result<Outcome>)
      requires Valid() && Sound(w0) && Shaped(op) && op.kind == Trash && During(setup, op, w0, volume.world)
      modifies volume
      ensures Valid() && During(setup, op, w0, volume.world)
      ensures AllDuring(old(volume.history), volume.history, setup, op, w0)
      ensures r.Ok? ==> r.value == Succeeded && Achieved(setup, op, w0, volume.world)
    {
      if op.targetExpected.None? {
        return Err(Failure(TargetMissing));
      }
      var target, trash := TargetPlace(op), TrashPlace(setup, op.target);
      var _ :- GuardPresent(target, op.targetExpected.value, false);
      var _ :- volume.Resolve(target, true);
      var _ :- volume.Resolve(trash, false);
      var existing :- volume.StatPath(trash);
      if existing != None {
        return Err(Failure(TrashCollision));
      }
      assert Evidenced(setup, op, w0);
      var moved := Relocate(op, target, trash, w0);
      if moved.Err? {
        return Err(if moved.error == AlreadyExists then Failure(TrashCollision) else moved.error);
      }
      var _ :- RequireStat(trash);
      return Ok(Succeeded);
    }

    /** A case-only rename keeps the key, so the keyed volume does not change. */
    method AttemptRecase(op: Operation, ghost w0: World) returns (r: Result<Outcome>)
      requires Valid() && Sound(w0) && op.kind == Recase && During(setup, op, w0, volume.world)
      modifies volume`durable, volume`faults
      ensures r.Ok? ==> r.value == Succeeded && Achieved(setup, op, w0, volume.world)
      ensures r.Ok? ==> op.prior.Some? && op.prior.value != op.target && Fold(op.prior.value) == Fold(op.target)
    {
      if op.prior.None? || op.priorExpected.None? {
        return Err(Failure(TargetMissing));
      }
      if op.prior.value == op.target || Fold(op.prior.value) != Fold(op.target) {
        return Err(Failure(UnsafePath));
      }
      var _ :- GuardSource(op);
      var _ :- GuardPresent(TargetPlace(op), op.priorExpected.value, false);
      var _ :- volume.Resolve(TargetPlace(op), true);
      var _ :- FlushBeforeDestructive();
      var _ :- volume.Respell();
      var _ :- RequireStat(TargetPlace(op));
      return Ok(Succeeded);
    }

    method AttemptNoop(op: Operation) returns (r: Result<Outcome>)
      requires op.kind == Noop
      ensures r.Ok? ==> r.value == Skipped && op.targetExpected.Some? && NewContent(setup, op).Some?
      ensures r.Ok? ==> Reviewed(volume.world, volume.serial, TargetPlace(op), op.targetExpected.value)
    {
      if op.source.None? || op.sourceExpected.None? || op.targetExpected.None? {
        return Err(Failure(SourceDrift));
      }
      var _ :- GuardSource(op);
      var _ :- GuardPresent(TargetPlace(op), op.targetExpected.value, false);
      return Ok(Skipped);
    }

    // ------------------------------------------------------------- move and update

    method PrepareMoved(op: Operation, ghost w0: World) returns (r: Result<Unit>)
      requires Valid() && Sound(w0) && Shaped(op) && op.kind == MoveUpdate && op.prior.Some? && op.priorExpected.Some?
      requires DuringMoveUpdate(setup, op, w0, volume.world)
      requires Same(w0, volume.world, Live(Fold(op.prior.value))) && Same(w0, volume.world, TrashPlace(setup, op.prior.value))
      modifies volume, progress, this`inflight
      ensures Valid() && progress.Advanced() && DuringMoveUpdate(setup, op, w0, volume.world)
      ensures AllDuring(old(volume.history), volume.history, setup, op, w0)
      ensures Same(w0, volume.world, Live(Fold(op.prior.value))) && Same(w0, volume.world, TrashPlace(setup, op.prior.value))
      ensures inflight == old(inflight) || (inflight == Some(TempPlace(setup, op)) && Evidenced(setup, op, w0))
      ensures r.Ok? ==> Ready(setup, op, w0, volume.world) && Unpublished(setup, op, w0, volume.world) && Evidenced(setup, op, w0)
      ensures r.Ok? ==> HasFile(volume.world, Live(Fold(op.prior.value))) && TargetPlace(op) !in volume.world.entries
    {
      var temp, prior, trash := TempPlace(setup, op), Live(Fold(op.prior.value)), TrashPlace(setup, op.prior.value);
      var _ :- GuardPresent(prior, op.priorExpected.value, false);
      ghost var w1 := volume.world;
      r := PrepareCopy(op, w0);
      SlotKept(w0, w1, volume.world, {temp}, prior);
      SlotKept(w0, w1, volume.world, {temp}, trash);
    }

    method PublishMoved(op: Operation, ghost w0: World) returns (r: Result<Unit>)
      requires Valid() && Sound(w0) && op.kind == MoveUpdate && op.prior.Some?
      requires DuringMoveUpdate(setup, op, w0, volume.world)
      requires Ready(setup, op, w0, volume.world) && Unpublished(setup, op, w0, volume.world) && Evidenced(setup, op, w0)
      requires Live(Fold(op.prior.value)) in volume.world.entries && TargetPlace(op) !in volume.world.entries
      modifies volume, this`inflight
      ensures Valid() && DuringMoveUpdate(setup, op, w0, volume.world)
      ensures AllDuring(old(volume.history), volume.history, setup, op, w0)
      ensures Same(w0, volume.world, Live(Fold(op.prior.value))) && Same(w0, volume.world, TrashPlace(setup, op.prior.value))
      ensures if r.Ok? then Published(setup, op, w0, volume.world) && inflight == None else inflight == old(inflight)
    {
      var target, temp := TargetPlace(op), TempPlace(setup, op);
      ghost var w2 := volume.world;
      r := Publish(op, w0);
      SlotKept(w0, w2, volume.world, {temp, target}, Live(Fold(op.prior.value)));
      SlotKept(w0, w2, volume.world, {temp, target}, TrashPlace(setup, op.prior.value));
    }

    method StartMoveUpdate(op: Operation, ghost w0: World) returns (r: Result<Unit>)
      requires Valid() && Sound(w0) && Shaped(op) && op.kind == MoveUpdate && op.prior.Some? && op.priorExpected.Some?
      requires During(setup, op, w0, volume.world) && Resumes(op, w0) && Tracks(op, w0) && op.id !in continuations
      modifies volume, progress, this`inflight, this`continuations
      ensures Valid() && progress.Advanced() && During(setup, op, w0, volume.world) && Resumes(op, w0) && Tracks(op, w0)
      ensures continuations.Keys <= old(continuations).Keys + {op.id}
      ensures AllDuring(old(volume.history), volume.history, setup, op, w0)
      ensures r.Ok? ==> op.id in continuations && continuations[op.id].MoveUpdateContinuation?
    {
      var _ :- PrepareMoved(op, w0);
      var _ :- PublishMoved(op, w0);
      var publishedStat :- RequireStat(TargetPlace(op));
      continuations := continuations[op.id := MoveUpdateContinuation(op.priorExpected.value, publishedStat)];
      return Ok(Unit);
    }

    /** Rename the old file into trash once the new one is in place. */
    method Retire(op: Operation, ghost w0: World) returns (r: Result<Unit>)
      requires Valid() && Sound(w0) && op.kind == MoveUpdate && op.prior.Some?
      requires DuringMoveUpdate(setup, op, w0, volume.world) && Published(setup, op, w0, volume.world)
      requires TargetPlace(op) !in w0.entries && HasFile(w0, Live(Fold(op.prior.value))) && Evidenced(setup, op, w0)
      modifies volume
      ensures Valid() && DuringMoveUpdate(setup, op, w0, volume.world) && Published(setup, op, w0, volume.world)
      ensures AllDuring(old(volume.history), volume.history, setup, op, w0)
      ensures old(WearsIntended(setup, op, volume.world)) ==> WearsIntended(setup, op, volume.world)
      ensures r.Ok? ==> Relocated(w0, volume.world, Live(Fold(op.prior.value)), TrashPlace(setup, op.prior.value))
    {
      var _ :- FlushBeforeDestructive();
      ghost var w1 := volume.world;
      r := volume.RenameAway(Live(Fold(op.prior.value)), TrashPlace(setup, op.prior.value));
      if volume.world != w1 {
        RetireStep(setup, op, w0, w1);
      }
      if r.Err? && r.error == AlreadyExists {
        r := Err(Failure(TrashCollision));
      }
    }

    /** The published file is still the one that was published. */
    method GuardPublished(op: Operation, c: Continuation) returns (r: Result<Unit>)
      requires c.MoveUpdateContinuation?
      ensures r.Ok? ==> && StatAt(volume.world, volume.serial, TargetPlace(op)).Some?
                        && SameFileVersion(StatAt(volume.world, volume.serial, TargetPlace(op)).value, c.publishedStat)
    {
      var actual :- RequireStat(TargetPlace(op));
      return if SameFileVersion(actual, c.publishedStat) then Ok(Unit) else Err(Failure(TargetDrift));
    }

    method FinishMoveUpdate(op: Operation, c: Continuation, ghost w0: World) returns (r: Result<Outcome>)
      requires Valid() && Sound(w0) && op.kind == MoveUpdate && c.MoveUpdateContinuation?
      requires Resumable(setup, op, w0, volume.world, c)
      modifies volume
      ensures Valid() && Resumable(setup, op, w0, volume.world, c)
      ensures AllDuring(old(volume.history), volume.history, setup, op, w0)
      ensures r.Ok? ==> r.value == Succeeded && Achieved(setup, op, w0, volume.world)
    {
      var _ :- GuardPublished(op, c);
      var _ :- DressTarget(op, w0);
      var _ :- RetireOld(op, c, w0);
      return Ok(Succeeded);
    }

    /** The old file is already in trash, or it is reviewed again and retired. */
    method RetireOld(op: Operation, c: Continuation, ghost w0: World) returns (r: Result<Unit>)
      requires Valid() && Sound(w0) && op.kind == MoveUpdate && c.MoveUpdateContinuation?
      requires Resumable(setup, op, w0, volume.world, c)
      modifies volume
      ensures Valid() && Resumable(setup, op, w0, volume.world, c)
      ensures AllDuring(old(volume.history), volume.history, setup, op, w0)
      ensures old(WearsIntended(setup, op, volume.world)) ==> WearsIntended(setup, op, volume.world)
      ensures r.Ok? ==> Relocated(w0, volume.world, Live(Fold(op.prior.value)), TrashPlace(setup, op.prior.value))
    {
      var prior, trash := Live(Fold(op.prior.value)), TrashPlace(setup, op.prior.value);
      var _ :- volume.Resolve(trash, false);
      var oldActual :- volume.StatPath(prior);
      var trashActual :- volume.StatPath(trash);
      if oldActual == None {
        if trashActual == None || !MatchesExpected(trashActual.value, c.oldExpected) {
          return Err(Failure(TargetMissing));
        }
      } else {
        if !MatchesExpected(oldActual.value, c.oldExpected) {
          return Err(Failure(TargetDrift));
        }
        if trashActual != None {
          return Err(Failure(TrashCollision));
        }
        var _ :- Retire(op, w0);
      }
      return Ok(Unit);
    }

    /** Everything up to publication, unless an earlier attempt has done it. */
    method BeginMoveUpdate(op: Operation, ghost w0: World) returns (r: Result<Unit>)
      requires Valid() && Sound(w0) && Shaped(op) && op.kind == MoveUpdate
      requires During(setup, op, w0, volume.world) && Resumes(op, w0) && Tracks(op, w0)
      modifies volume, progress, this`inflight, this`continuations
      ensures Valid() && progress.Advanced() && During(setup, op, w0, volume.world) && Resumes(op, w0) && Tracks(op, w0)
      ensures continuations.Keys <= old(continuations).Keys + {op.id}
      ensures AllDuring(old(volume.history), volume.history, setup, op, w0)
      ensures r.Ok? ==> op.id in continuations
      ensures op.prior.None? ==> inflight == old(inflight)
    {
      r := Ok(Unit);
      if op.id !in continuations {
        if op.prior.None? || op.priorExpected.None? {
          r := Err(Failure(TargetMissing));
        } else {
          r := StartMoveUpdate(op, w0);
        }
      }
    }

    /** One attempt at a move-update, resuming where the previous one stopped. */
    method AttemptMoveUpdate(op: Operation, ghost w0: World) returns (r: Result<Outcome>)
      requires Valid() && Sound(w0) && Shaped(op) && op.kind == MoveUpdate
      requires During(setup, op, w0, volume.world) && Resumes(op, w0) && Tracks(op, w0)
      modifies volume, progress, this`inflight, this`continuations
      ensures Valid() && progress.Advanced() && During(setup, op, w0, volume.world) && Resumes(op, w0) && Tracks(op, w0)
      ensures continuations.Keys <= old(continuations).Keys + {op.id}
      ensures AllDuring(old(volume.history), volume.history, setup, op, w0)
      ensures r.Ok? ==> r.value == Succeeded && inflight == None && Achieved(setup, op, w0, volume.world)
      ensures op.prior.None? ==> inflight == old(inflight)
    {
      var _ :- BeginMoveUpdate(op, w0);
      ghost var c := continuations[op.id];
      r := FinishMoveUpdate(op, continuations[op.id], w0);
      assert continuations[op.id] == c && inflight == None;
    }

    // ------------------------------------------------------------------ delete

    method UnprotectDoomed(op: Operation, ghost w0: World) returns (r: Result<Unit>)
      requires Valid() && Sound(w0) && op.kind == Delete && op.targetExpected.Some? && During(setup, op, w0, volume.world) && Evidenced(setup, op, w0)
      requires TargetPlace(op) in volume.world.entries
      requires op.targetExpected.value.kind == FileEntry <==> volume.world.entries[TargetPlace(op)].File?
      modifies volume`world, volume`history, volume`faults
      ensures Valid() && During(setup, op, w0, volume.world)
      ensures AllDuring(old(volume.history), volume.history, setup, op, w0)
      ensures TargetPlace(op) in volume.world.entries
      ensures op.targetExpected.value.kind == FileEntry <==> volume.world.entries[TargetPlace(op)].File?
      ensures r.Ok? ==> Bared(op, w0, volume.world)
      ensures old(volume.faults) <= volume.faults && (r.Err? ==> volume.faults > old(volume.faults))
    {
      var target := TargetPlace(op);
      ghost var w1 := volume.world;
      r := volume.ClearReadonly(target);
      if w1.entries[target].File? {
        UnprotectedIsDuring(setup, op, w0, w1);
      } else if volume.world != w1 {
        DirectoryStep(setup, op, w0, w1, volume.world.entries[target].stat);
      }
      DuringIsSteady(setup, op, w0, volume.world);
    }

    method RemoveTarget(op: Operation, ghost w0: World) returns (r: Result<Unit>)
      requires Valid() && Sound(w0) && op.kind == Delete && op.targetExpected.Some? && During(setup, op, w0, volume.world) && Evidenced(setup, op, w0)
      requires TargetPlace(op) in volume.world.entries
      requires op.targetExpected.value.kind == FileEntry <==> volume.world.entries[TargetPlace(op)].File?
      requires Bared(op, w0, volume.world) && volume.durable
      modifies volume
      ensures Valid() && During(setup, op, w0, volume.world)
      ensures AllDuring(old(volume.history), volume.history, setup, op, w0)
      ensures r.Ok? ==> Gone(volume.world, TargetPlace(op))
      ensures volume.world == old(volume.world) || Gone(volume.world, TargetPlace(op))
      ensures Gone(volume.world, TargetPlace(op)) && op.targetExpected.value.kind == DirectoryEntry ==>
                IsEmptyDirectory(old(volume.world), TargetPlace(op))
      ensures old(volume.faults) <= volume.faults
      ensures r.Err? && op.targetExpected.value.kind == FileEntry ==> volume.faults > old(volume.faults)
    {
      var target := TargetPlace(op);
      ghost var w1 := volume.world;
      if op.targetExpected.value.kind == DirectoryEntry {
        r := volume.RemoveDirectory(target);
      } else {
        r := volume.RemoveFile(target);
      }
      if volume.world != w1 {
        RemoveStep(setup, op, w0, w1);
      }
    }

    /** Give a target that is still there its attributes back. */
    method RestoreDoomed(op: Operation, ghost w0: World) returns (r: Result<Unit>)
      requires Valid() && Sound(w0) && op.kind == Delete && op.targetExpected.Some? && During(setup, op, w0, volume.world) && Evidenced(setup, op, w0)
      requires TargetPlace(op) in volume.world.entries ==>
                 (op.targetExpected.value.kind == FileEntry <==> volume.world.entries[TargetPlace(op)].File?)
      modifies volume
      ensures Valid() && During(setup, op, w0, volume.world)
      ensures AllDuring(old(volume.history), volume.history, setup, op, w0)
      ensures old(volume.faults) <= volume.faults && (r.Err? && op.targetExpected.value.kind == FileEntry ==> volume.faults > old(volume.faults))
      ensures r.Ok? && HasFile(volume.world, TargetPlace(op)) ==> Shielded(volume.world, TargetPlace(op), op.targetExpected.value)
    {
      var target := TargetPlace(op);
      var live := volume.StatPath(target);
      if live.Err? {
        volume.Blame();
        return Err(live.error);
      }
      if live.value == None {
        return Ok(Unit);
      }
      if volume.world.entries[target].File? {
        OwnTarget(setup, op, w0, volume.world);
        r := Dress(op, target, op.targetExpected.value, true, true, w0);
      } else {
        ghost var w1 := volume.world;
        r := volume.ApplyMetadata(target, op.targetExpected.value, true, true);
        if volume.world != w1 {
          var steps: nat :| volume.world == Retouched(w1, target, op.targetExpected.value, true, true, steps);
          RetouchedStores(w1, target, op.targetExpected.value, true, true, steps);
          var s: Stat :| volume.world == WithDirectory(w1, target, s);
          DirectoryStep(setup, op, w0, w1, s);
          DuringIsSteady(setup, op, w0, volume.world);
        }
      }
    }

    /** When a read-only file could not be removed and nothing else went wrong, it is read-only as it was. */
    ghost predicate SurvivesOneFault(op: Operation, r: Result<Unit>, before: nat)
      requires op.targetExpected.Some?
      reads volume
    {
      r.Err? && op.targetExpected.value.kind == FileEntry && op.targetExpected.value.metadata.attributes.readonly
      && volume.faults <= before + 1 && HasFile(volume.world, TargetPlace(op)) ==>
        Shielded(volume.world, TargetPlace(op), op.targetExpected.value)
    }

    /** Clear a read-only target, remove it, and put the attribute back if it was not removed. */
    method RemoveReviewed(op: Operation, ghost w0: World) returns (r: Result<Unit>)
      requires Valid() && Sound(w0) && op.kind == Delete && op.targetExpected.Some? && During(setup, op, w0, volume.world) && Evidenced(setup, op, w0)
      requires TargetPlace(op) in volume.world.entries
      requires op.targetExpected.value.kind == FileEntry <==> volume.world.entries[TargetPlace(op)].File?
      requires volume.durable
      modifies volume
      ensures Valid() && During(setup, op, w0, volume.world)
      ensures AllDuring(old(volume.history), volume.history, setup, op, w0)
      ensures r.Ok? ==> Gone(volume.world, TargetPlace(op))
      ensures SurvivesOneFault(op, r, old(volume.faults))
    {
      var cleared := op.targetExpected.value.metadata.attributes.readonly;
      r := Ok(Unit);
      if cleared {
        r := UnprotectDoomed(op, w0);
      } else {
        PlainIsBared(setup, op, w0, volume.world);
      }
      if r.Ok? {
        r := RemoveTarget(op, w0);
      }
      if cleared && r.Err? {
        var _ :- RestoreDoomed(op, w0);
      }
    }

    method AttemptDelete(op: Operation, ghost w0: World) returns (r: Result<Outcome>)
      requires Valid() && Sound(w0) && op.kind == Delete && During(setup, op, w0, volume.world)
      modifies volume
      ensures Valid() && During(setup, op, w0, volume.world)
      ensures AllDuring(old(volume.history), volume.history, setup, op, w0)
      ensures r.Ok? ==> r.value == Succeeded && Achieved(setup, op, w0, volume.world)
    {
      if op.targetExpected.None? {
        return Err(Failure(TargetMissing));
      }
      var target, expected := TargetPlace(op), op.targetExpected.value;
      var cleanup := expected.kind == DirectoryEntry && op.reason == DirectoryCleanup;
      var _ :- GuardPresent(target, expected, cleanup);
      assert Evidenced(setup, op, w0);
      var _ :- volume.Resolve(target, true);
      var _ :- FlushBeforeDestructive();
      var _ :- RemoveReviewed(op, w0);
      return Ok(Succeeded);
    }

    // --------------------------------------------------------- attempts and retries

    /** One guarded attempt at an operation that copies nothing. */
    method AttemptPlain(op: Operation, ghost w0: World) returns (r: Result<Outcome>)
      requires UnderWay(op, w0) && !CopiesContent(op.kind)
      modifies volume
      ensures UnderWay(op, w0)
      ensures AllDuring(old(volume.history), volume.history, setup, op, w0)
      ensures r.Ok? ==> r.value == (if op.kind == Noop then Skipped else Succeeded) && Achieved(setup, op, w0, volume.world)
    {
      match op.kind {
        case Move => r := AttemptMove(op, w0);
        case Recase => r := AttemptRecase(op, w0);
        case Trash => r := AttemptTrash(op, w0);
        case Delete => r := AttemptDelete(op, w0);
        case Noop => r := AttemptNoop(op);
        case _ => r := Err(Failure(UnsupportedKind));
      }
    }

    /** One guarded attempt at any operation but a directory creation. */
    method Attempt(op: Operation, ghost w0: World) returns (r: Result<Outcome>)
      requires UnderWay(op, w0)
      modifies volume, progress, this`inflight, this`continuations
      ensures UnderWay(op, w0) && progress.Advanced()
      ensures AllDuring(old(volume.history), volume.history, setup, op, w0)
      ensures r.Ok? ==> r.value == (if op.kind == Noop then Skipped else Succeeded) && inflight == None
      ensures r.Ok? ==> Achieved(setup, op, w0, volume.world)
    {
      match op.kind {
        case Copy => r := AttemptCopy(op, w0);
        case Update => r := AttemptUpdate(op, w0);
        case MoveUpdate => r := AttemptMoveUpdate(op, w0);
        case _ => r := AttemptPlain(op, w0);
      }
    }

    method CleanupInflight(op: Operation, ghost w0: World) returns (r: Result<Unit>)
      requires Valid() && Sound(w0) && During(setup, op, w0, volume.world)
      requires inflight == None || (Publishes(op) && inflight == Some(TempPlace(setup, op)) && Evidenced(setup, op, w0))
      modifies volume, this`inflight
      ensures Valid() && During(setup, op, w0, volume.world) && inflight == None
      ensures AllDuring(old(volume.history), volume.history, setup, op, w0)
      ensures old(Same(w0, volume.world, TargetPlace(op))) ==> Same(w0, volume.world, TargetPlace(op))
      ensures Calm(old(volume.world), volume.world, {TempPlace(setup, op)})
      ensures r.Ok? && old(inflight) != None ==> Gone(volume.world, TempPlace(setup, op))
      ensures r.Err? ==> volume.faults > old(volume.faults)
    {
      ghost var w1 := volume.world;
      SteadyRefl(w1, {TempPlace(setup, op)});
      if inflight == None {
        return Ok(Unit);
      }
      var temp := inflight.value;
      inflight := None;
      r := volume.RemoveOwnedTemp(temp);
      if volume.world != w1 {
        CleanupStep(setup, op, w0, w1);
      }
    }

    /** Nothing left to try: drop the temporary and forget the continuation. */
    method GiveUp(op: Operation, ghost w0: World)
      requires UnderWay(op, w0)
      modifies volume, this`inflight, this`continuations
      ensures Valid() && During(setup, op, w0, volume.world) && inflight == None && continuations == map[]
      ensures AllDuring(old(volume.history), volume.history, setup, op, w0)
      ensures old(inflight) != None ==> Gone(volume.world, TempPlace(setup, op)) || volume.faults > old(volume.faults)
    {
      var _ := CleanupInflight(op, w0);
      continuations := map[];
    }

    /** Between two attempts: drop the temporary unless it is needed, and honour stop requests. */
    method PauseBetween(op: Operation, ghost w0: World) returns (r: Result<Outcome>)
      requires UnderWay(op, w0)
      modifies volume, this`inflight
      ensures UnderWay(op, w0)
      ensures AllDuring(old(volume.history), volume.history, setup, op, w0)
      ensures r.Err? ==> r.error == CancelRequested || r.error == PauseRequested
      ensures op.id !in continuations && old(inflight) != None ==> Gone(volume.world, TempPlace(setup, op)) || volume.faults > old(volume.faults)
    {
      if op.id !in continuations {
        ghost var w1 := volume.world;
        var _ := CleanupInflight(op, w0);
        if op.kind == MoveUpdate && op.prior.Some? {
          SlotKept(w0, w1, volume.world, {TempPlace(setup, op)}, Live(Fold(op.prior.value)));
          SlotKept(w0, w1, volume.world, {TempPlace(setup, op)}, TrashPlace(setup, op.prior.value));
        }
      }
      var request := Checkpoint();
      if request.Ok? {
        request := Checkpoint();
      }
      r := if request.Err? then Err(request.error) else Ok(Succeeded);
    }

    /** What an operation has come to: an outcome with nothing left over, or a stop request. */
    ghost predicate Concluded(op: Operation, w0: World, r: Result<Outcome>)
      reads this, volume, progress
    {
      && Valid() && During(setup, op, w0, volume.world)
      && (r.Err? ==>
            && r.error in {CancelRequested, PauseRequested}
            && (inflight == None || (Publishes(op) && inflight == Some(TempPlace(setup, op)) && Evidenced(setup, op, w0))))
      && (r.Ok? ==>
            && inflight == None && continuations == map[]
            && r.value in {Succeeded, Skipped, Failed}
            && (r.value == Skipped ==> op.kind == Noop)
            && (r.value != Failed ==> Achieved(setup, op, w0, volume.world)))
    }

    /** One attempt and the decision after it. */
    method Round(op: Operation, last: bool, ghost w0: World) returns (r: Result<Outcome>, again: bool, stop: bool)
      requires UnderWay(op, w0)
      modifies volume, progress, this`inflight, this`continuations
      ensures progress.Advanced()
      ensures AllDuring(old(volume.history), volume.history, setup, op, w0)
      ensures if again then UnderWay(op, w0) && !last else Concluded(op, w0, r)
      ensures stop ==> !again && r == Ok(Failed)
    {
      again, stop := false, false;
      r := Attempt(op, w0);
      if r.Ok? {
        continuations := map[];
        return;
      }
      if r.error == CancelRequested || r.error == PauseRequested {
        return;
      }
      var retry: bool, halt: bool := *, *;
      if retry && !last {
        r := PauseBetween(op, w0);
        again := r.Ok?;
      } else {
        GiveUp(op, w0);
        return Ok(Failed), false, halt && !retry;
      }
    }

    /** Attempts until the operation settles or a stop is requested.  A retry keeps the temporary
        only when a continuation needs it.  `Err` is a cancel or pause request; `stop` asks for
        later operations not to be admitted. */
    method CarryOut(op: Operation, maxRetries: nat) returns (r: Result<Outcome>, stop: bool)
      requires Valid() && Shaped(op) && inflight == None && continuations == map[]
      modifies volume, progress, this`inflight, this`continuations
      ensures progress.Advanced() && Concluded(op, old(volume.world), r)
      ensures AllDuring(old(volume.history), volume.history, setup, op, old(volume.world))
      ensures stop ==> r == Ok(Failed)
    {
      ghost var w0 := volume.world;
      DuringStart(setup, op, w0);
      var attempt, again := 0, true;
      r, stop := Ok(Failed), false;
      while again
        invariant attempt <= maxRetries + 1
        invariant if again then UnderWay(op, w0) && attempt <= maxRetries else Concluded(op, w0, r)
        invariant progress.Advanced()
        invariant AllDuring(old(volume.history), volume.history, setup, op, w0)
        invariant stop ==> !again && r == Ok(Failed)
        decreases maxRetries + 1 - attempt
      {
        attempt := attempt + 1;
        r, again, stop := Round(op, attempt > maxRetries, w0);
      }
    }

    /** What an operation has come to is recorded, and not yet safe from a crash. */
    ghost method Record()
      modifies volume`durable
      ensures !volume.durable
    {
      volume.durable := false;
    }

    /** Carry an operation out, and leave no temporary behind when it is interrupted. */
    method CarryThrough(op: Operation, maxRetries: nat) returns (r: Result<Outcome>, stop: bool)
      requires Valid() && Shaped(op) && inflight == None && continuations == map[]
      modifies volume, progress, this`inflight, this`continuations
      ensures progress.Advanced() && Valid() && inflight == None && continuations == map[]
      ensures AllDuring(old(volume.history), volume.history, setup, op, old(volume.world))
      ensures r.Err? ==> r.error == CancelRequested || r.error == PauseRequested
      ensures r.Ok? ==> r.value in {Succeeded, Skipped, Failed} && (r.value == Skipped ==> op.kind == Noop)
      ensures r.Ok? && r.value != Failed ==> During(setup, op, old(volume.world), volume.world) && Achieved(setup, op, old(volume.world), volume.world)
    {
      ghost var w0 := volume.world;
      r, stop := CarryOut(op, maxRetries);
      if r.Err? {
        var _ := CleanupInflight(op, w0);
        continuations := map[];
      }
      Record();
    }
  }
}
