/** Executing what was selected leaves every path in doubt alone. */
module Quarantine {
  import opened Paths
  import opened Model
  import opened Volume
  import opened Effects
  import opened Safety
  import opened Sharing
  import opened Selection
  import opened Run

  /** Every planned path is made of valid components. */
  ghost predicate ValidPaths(ops: seq<Operation>) {
    forall op :: op in ops ==> ValidKey(Fold(op.target)) && (op.prior.Some? ==> ValidKey(Fold(op.prior.value)))
  }

  /** Component by component, a blocked operation's target or prior path. */
  ghost predicate Region(op: Operation, key: Key) {
    op.blocked.Some? && (Fold(op.target) == key || (op.prior.Some? && Fold(op.prior.value) == key))
  }

  /** At or beneath a blocked operation's target or prior path. */
  ghost predicate InDoubt(ops: seq<Operation>, key: Key) {
    exists op, region :: op in ops && Region(op, region) && region <= key
  }

  lemma RegionText(ops: seq<Operation>, op: Operation, region: Key)
    requires ValidPaths(ops) && op in ops && Region(op, region)
    ensures ValidKey(region) && KeyText(region) in BlockedTargets(ops)
  {
  }

  lemma TextRegion(ops: seq<Operation>, text: string) returns (op: Operation, region: Key)
    requires ValidPaths(ops) && text in BlockedTargets(ops)
    ensures op in ops && Region(op, region) && ValidKey(region) && KeyText(region) == text
  {
    if text in set o | o in ops && o.blocked.Some? :: Text(o.target) {
      op :| op in ops && op.blocked.Some? && Text(op.target) == text;
      region := Fold(op.target);
    } else {
      op :| op in ops && op.blocked.Some? && op.prior.Some? && Text(op.prior.value) == text;
      region := Fold(op.prior.value);
    }
  }

  /** The program's text test finds exactly the keys in doubt. */
  lemma TextTestIsExact(ops: seq<Operation>, key: Key)
    requires ValidPaths(ops) && ValidKey(key)
    ensures InsideAny(KeyText(key), BlockedTargets(ops)) <==> InDoubt(ops, key)
  {
    if InDoubt(ops, key) {
      var op, region :| op in ops && Region(op, region) && region <= key;
      RegionText(ops, op, region);
      TextContainmentIsComponentwise(key, region);
    }
    if InsideAny(KeyText(key), BlockedTargets(ops)) {
      var text :| text in BlockedTargets(ops) && SameOrDescendant(KeyText(key), text);
      var op, region := TextRegion(ops, text);
      TextContainmentIsComponentwise(key, region);
    }
  }

  /** The two paths a safe operation may change are not in doubt. */
  lemma SafeStaysOutside(ops: seq<Operation>, op: Operation)
    requires ValidPaths(ops) && op in ops && op.blocked.None? && !Quarantined(ops, op)
    ensures !InDoubt(ops, Fold(op.target))
    ensures op.prior.Some? ==> !InDoubt(ops, Fold(op.prior.value))
  {
    TextTestIsExact(ops, Fold(op.target));
    if op.prior.Some? {
      TextTestIsExact(ops, Fold(op.prior.value));
    }
  }

  /** A safe removal, or the move of an entry, never takes away something a region lies beneath. */
  lemma SafeKeepsAncestors(ops: seq<Operation>, op: Operation, blocked: Operation, region: Key)
    requires ValidPaths(ops) && op in ops && op.blocked.None? && !Quarantined(ops, op)
    requires blocked in ops && Region(blocked, region)
    ensures op.kind in {Trash, Delete} ==> !(Fold(op.target) <= region)
    ensures op.kind in {Move, MoveUpdate} && op.prior.Some? ==> !(Fold(op.prior.value) <= region)
  {
    RegionText(ops, blocked, region);
    TextContainmentIsComponentwise(region, Fold(op.target));
    if op.prior.Some? {
      TextContainmentIsComponentwise(region, Fold(op.prior.value));
    }
  }

  /** A blocked operation's target or prior path lies at or beneath the key. */
  ghost predicate Engulfs(ops: seq<Operation>, key: Key) {
    exists op, region :: op in ops && Region(op, region) && key <= region
  }

  ghost predicate SourceInDoubt(ops: seq<Operation>, key: Key) {
    exists op :: op in ops && op.blocked.Some? && op.source.Some? && Fold(op.source.value) <= key
  }

  ghost predicate ValidSources(ops: seq<Operation>) {
    forall op :: op in ops && op.source.Some? ==> ValidKey(Fold(op.source.value))
  }

  lemma EngulfTestIsExact(ops: seq<Operation>, key: Key)
    requires ValidPaths(ops) && ValidKey(key)
    ensures EngulfsAny(KeyText(key), BlockedTargets(ops)) <==> Engulfs(ops, key)
  {
    if Engulfs(ops, key) {
      var op, region :| op in ops && Region(op, region) && key <= region;
      RegionText(ops, op, region);
      TextContainmentIsComponentwise(region, key);
    }
    if EngulfsAny(KeyText(key), BlockedTargets(ops)) {
      var text :| text in BlockedTargets(ops) && SameOrDescendant(text, KeyText(key));
      var op, region := TextRegion(ops, text);
      TextContainmentIsComponentwise(region, key);
    }
  }

  lemma SourceTestIsExact(ops: seq<Operation>, key: Key)
    requires ValidSources(ops) && ValidKey(key)
    ensures InsideAny(KeyText(key), BlockedSources(ops)) <==> SourceInDoubt(ops, key)
  {
    if SourceInDoubt(ops, key) {
      var op :| op in ops && op.blocked.Some? && op.source.Some? && Fold(op.source.value) <= key;
      TextContainmentIsComponentwise(key, Fold(op.source.value));
      assert Text(op.source.value) in BlockedSources(ops);
    }
    if InsideAny(KeyText(key), BlockedSources(ops)) {
      var text :| text in BlockedSources(ops) && SameOrDescendant(KeyText(key), text);
      var op :| op in ops && op.blocked.Some? && op.source.Some? && Text(op.source.value) == text;
      TextContainmentIsComponentwise(key, Fold(op.source.value));
    }
  }

  /** An unblocked operation is quarantined exactly where its source lies beneath a blocked one's source, one of its
      target paths lies in doubt, or it takes away an entry that a region in doubt lies beneath. */
  lemma QuarantineExactly(ops: seq<Operation>, op: Operation)
    requires ValidPaths(ops) && ValidSources(ops) && op in ops
    ensures Quarantined(ops, op) <==>
            && op.blocked.None?
            && (|| (op.source.Some? && SourceInDoubt(ops, Fold(op.source.value)))
                || InDoubt(ops, Fold(op.target)) || (op.prior.Some? && InDoubt(ops, Fold(op.prior.value)))
                || (op.kind in {Trash, Delete} && Engulfs(ops, Fold(op.target)))
                || (op.kind in {Move, MoveUpdate} && op.prior.Some? && Engulfs(ops, Fold(op.prior.value))))
  {
    TextTestIsExact(ops, Fold(op.target));
    EngulfTestIsExact(ops, Fold(op.target));
    if op.source.Some? {
      SourceTestIsExact(ops, Fold(op.source.value));
    }
    if op.prior.Some? {
      TextTestIsExact(ops, Fold(op.prior.value));
      EngulfTestIsExact(ops, Fold(op.prior.value));
    }
  }

  lemma TouchedPosition(s: Setup, op: Operation, p: Place)
    requires p in Touched(s, op) && LiveKey(p).Some?
    ensures LiveKey(p).value == Fold(op.target) || (op.prior.Some? && LiveKey(p).value == Fold(op.prior.value))
  {
  }

  lemma NothingInDoubtIsExposed(p: Reviewed, s: Setup, selection: set<OpId>, place: Place)
    requires Ordered(p) && ValidPaths(p.ops) && selection <= Selected(p)
    requires LiveKey(place).Some? && InDoubt(p.ops, LiveKey(place).value)
    ensures !Exposed(s, p.ops, selection, place)
  {
    forall op | Chosen(p.ops, selection, op)
      ensures place !in Touched(s, op)
    {
      SelectedIsSafe(p, op);
      SafeStaysOutside(p.ops, op);
      if place in Touched(s, op) {
        TouchedPosition(s, op, place);
      }
    }
  }

  /** The entry is the very same one, and a file has the bytes it had. */
  ghost predicate LeftAlone(start: World, w: World, p: Place) {
    && Same(start, w, p)
    && (HasFile(start, p) ==> HasFile(w, p) && BytesAt(w, p) == BytesAt(start, p))
  }

  /** A file has the times and attributes it had as well. */
  ghost predicate LeftWhole(start: World, w: World, p: Place) {
    && LeftAlone(start, w, p)
    && (HasFile(start, p) ==> HasFile(w, p) && w.files[w.entries[p].id] == start.files[start.entries[p].id])
  }

  /** The file at this place has a planned path that some selected operation may change. */
  ghost predicate SharesExposed(s: Setup, plan: seq<Operation>, selection: set<OpId>, start: World, place: Place) {
    HasFile(start, place) && !Secluded(s, plan, selection, start, start.entries[place].id)
  }

  lemma UnexposedIsLeftAlone(s: Setup, plan: seq<Operation>, selection: set<OpId>, start: World, w: World, p: Place)
    requires Sound(start) && Sound(w) && Framed(s, plan, selection, start, w) && Preserved(s, plan, selection, start, w)
    requires !Exposed(s, plan, selection, p)
    ensures LeftAlone(start, w, p) && (!SharesExposed(s, plan, selection, start, p) ==> LeftWhole(start, w, p))
  {
    assert FramedAt(s, plan, selection, start, w, p);
    if HasFile(start, p) {
      assert PreservedAt(s, plan, selection, start, w, start.entries[p].id);
    }
  }

  /** Every place in doubt has its entry and bytes, and is wholly as it was unless its file has a second
      planned path that is not in doubt and some selected operation may change that. */
  ghost predicate DoubtsLeftAlone(p: Reviewed, s: Setup, selection: set<OpId>, start: World, w: World) {
    forall place :: LiveKey(place).Some? && InDoubt(p.ops, LiveKey(place).value) ==>
      LeftAlone(start, w, place) && (!SharesExposed(s, p.ops, selection, start, place) ==> LeftWhole(start, w, place))
  }

  /** Whatever part of the derived selection is executed, whatever fails on the way: every place at or
      beneath a blocked operation's target or prior path is left alone. */
  lemma QuarantineFrame(p: Reviewed, s: Setup, selection: set<OpId>, start: World, w: World)
    requires Ordered(p) && ValidPaths(p.ops) && selection <= Selected(p)
    requires Sound(start) && Sheltered(s, p.ops, selection, start, w)
    ensures DoubtsLeftAlone(p, s, selection, start, w)
  {
    forall place | LiveKey(place).Some? && InDoubt(p.ops, LiveKey(place).value)
      ensures LeftAlone(start, w, place) && (!SharesExposed(s, p.ops, selection, start, place) ==> LeftWhole(start, w, place))
    {
      NothingInDoubtIsExposed(p, s, selection, place);
      UnexposedIsLeftAlone(s, p.ops, selection, start, w, place);
    }
  }

  /** An achieved selected operation leaves a planned path in doubt wholly as it was if and only if it is not an
      unlinked update or a delete of a read-only file of which that path is a second name. */
  lemma DoubtExactly(p: Reviewed, s: Setup, op: Operation, w: World, v: World, key: Key)
    requires Ordered(p) && ValidPaths(p.ops) && Chosen(p.ops, Selected(p), op) && InDoubt(p.ops, key) && Accomplished(s, op, w, v)
    ensures WholeAt(w, v, key) <==> !(Bares(s, op) && Shares(w, TargetPlace(op), Live(key)))
  {
    SelectedIsSafe(p, op);
    SafeStaysOutside(p.ops, op);
    UnhandledExactly(s, op, w, v, key);
  }

  /** Where a scan was incomplete, no selected operation takes an entry away from a planned path, in any state
      it passes through. */
  lemma IncompleteTakesNothing(p: Reviewed, s: Setup, op: Operation, w: World, v: World, key: Key)
    requires Ordered(p) && Chosen(p.ops, Selected(p), op) && !(p.sourceComplete && p.targetComplete)
    requires During(s, op, w, v) && Live(key) in w.entries
    ensures Live(key) in v.entries
  {
    SelectedIsSafe(p, op);
    DuringIsSteady(s, op, w, v);
    if Live(key) !in Touched(s, op) {
      assert Same(w, v, Live(key));
    }
  }

  /** One update, and a blocked operation elsewhere. */
  function Doubtful(op: Operation, other: Path): Reviewed {
    var b := Operation(OpId(Copy, None, other, None, SourceOnly), Copy, None, other, None, None, None, None, None, 0, [], SourceOnly, Some(BlockedDestinationCollision));
    Reviewed([op, b], true, true)
  }

  lemma ApartIsSafe(p: Reviewed, op: Operation, path: Path, other: Path)
    requires p == Doubtful(op, other) && op.target == path && op.source == Some(path) && op.prior == None && op.blocked == None && op.kind == Update
    requires |path| == 1 && |other| == 1 && ValidPaths(p.ops) && Fold(path) != Fold(other)
    ensures !Quarantined(p.ops, op) && InDoubt(p.ops, Fold(other))
  {
    var b := p.ops[1];
    assert b in p.ops && Region(b, Fold(other)) && Fold(other) <= Fold(other);
    forall o | o in p.ops && o.blocked.Some?
      ensures o == b
    {
    }
    TextContainmentIsComponentwise(Fold(path), Fold(other));
    assert Text(path) == KeyText(Fold(path)) && Text(other) == KeyText(Fold(other));
    assert BlockedTargets(p.ops) == {Text(other)} && BlockedSources(p.ops) == {};
  }

  /** The rest is real: an unblocked update outside all doubt takes the read-only bit from a file in doubt, which
      keeps its entry and its bytes. */
  lemma DoubtLosesReadonly() returns (p: Reviewed, s: Setup, op: Operation, w: World, v: World, key: Key)
    ensures op in p.ops && op.blocked.None? && !Quarantined(p.ops, op) && InDoubt(p.ops, key)
    ensures Accomplished(s, op, w, v) && LeftAlone(w, v, Live(key)) && !LeftWhole(w, v, Live(key))
  {
    var path, other := [Name("a", "A", "a")], [Name("b", "B", "b")];
    assert Fold(path)[0] == "A" && Fold(other)[0] == "B";
    s, op, w, v := SharedFileShowsThrough(path, other);
    p, key := Doubtful(op, other), Fold(other);
    assert op in p.ops;
    ApartIsSafe(p, op, path, other);
  }

  lemma QuarantineFrames(p: Reviewed, s: Setup, start: World, h0: seq<World>, h: seq<World>)
    requires Ordered(p) && ValidPaths(p.ops) && Sound(start)
    requires AllSheltered(s, p.ops, Selected(p), start, h0, h)
    ensures forall i :: |h0| <= i < |h| ==> DoubtsLeftAlone(p, s, Selected(p), start, h[i])
  {
    forall i | |h0| <= i < |h|
      ensures DoubtsLeftAlone(p, s, Selected(p), start, h[i])
    {
      QuarantineFrame(p, s, Selected(p), start, h[i]);
    }
  }

  /** Select, execute, and resume after pauses: in every state of the whole run the places in doubt are
      left alone, and every selected operation ends with exactly one outcome. */
  method RunSelected(p: Reviewed, setup: Setup, volume: TargetVolume, maxRetries: nat, resumes: nat) returns (run: Execution, verdict: Verdict)
    requires Ordered(p) && ValidPaths(p.ops) && AllShaped(p.ops) && SourceSound(setup) && Sound(volume.world)
    requires volume.Logged() && setup.serial == volume.serial
    modifies volume
    ensures old(volume.history) <= volume.history
    ensures forall i :: |old(volume.history)| <= i < |volume.history| ==> DoubtsLeftAlone(p, setup, Selected(p), old(volume.world), volume.history[i])
    ensures AllSparing(setup, p.ops, Selected(p)) ==>
              forall i :: |old(volume.history)| <= i < |volume.history| ==> NoLoss(old(volume.world), volume.history[i])
    ensures Tallied(Selected(p), run.status, run.events)
    ensures !verdict.RaisedPaused? ==> run.status.Keys == Selected(p)
  {
    var selection, exclusions := DeriveSelection(p);
    run := new Execution(setup, p.ops, selection, volume, maxRetries);
    var calls;
    verdict, calls := run.RunToEnd(resumes);
    QuarantineFrames(p, setup, old(volume.world), old(volume.history), volume.history);
  }
}
