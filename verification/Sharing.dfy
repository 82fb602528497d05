/** Files with several planned paths: what an operation on one of them does to the others. */
module Sharing {
  import opened Paths
  import opened Model
  import opened Volume
  import opened Effects
  import opened Steps
  import opened Safety

  /** The planned paths an operation is about. */
  predicate Handles(op: Operation, key: Key) {
    Fold(op.target) == key || (op.kind in {Move, MoveUpdate} && op.prior.Some? && Fold(op.prior.value) == key)
  }

  /** The operation leaves the old file at its target without its read-only bit: it replaces a reviewed
      read-only file that is not linked into trash, or deletes one. */
  predicate Bares(s: Setup, op: Operation) {
    && ((op.kind == Update && !LinksBackup(s)) || RemovesFile(op))
    && op.targetExpected.Some? && op.targetExpected.value.metadata.attributes.readonly
  }

  /** Two names of one file. */
  predicate Shares(w: World, a: Place, b: Place) {
    a != b && HasFile(w, a) && HasFile(w, b) && w.entries[a] == w.entries[b]
  }

  /** The entry at a planned path is the very same, and a file there is wholly as it was. */
  predicate WholeAt(w: World, v: World, key: Key) {
    && Same(w, v, Live(key))
    && (HasFile(w, Live(key)) ==> HasFile(v, Live(key)) && v.files[v.entries[Live(key)].id] == w.files[w.entries[Live(key)].id])
  }

  lemma TouchedIsHandled(s: Setup, op: Operation, key: Key)
    requires Live(key) in Touched(s, op)
    ensures Handles(op, key)
  {
  }

  lemma OtherEntriesStay(s: Setup, op: Operation, w: World, v: World, key: Key)
    requires During(s, op, w, v) && !Handles(op, key)
    ensures Same(w, v, Live(key)) && v.newBits == w.newBits
  {
    DuringIsSteady(s, op, w, v);
    if Live(key) in Touched(s, op) {
      TouchedIsHandled(s, op, key);
    }
  }

  /** Whatever the operation, a file at a planned path that it does not handle loses at most its read-only bit. */
  lemma VeiledStays(s: Setup, op: Operation, w: World, v: World, key: Key)
    requires Sound(w) && During(s, op, w, v) && !Handles(op, key)
    ensures Same(w, v, Live(key)) && v.newBits == w.newBits
    ensures HasFile(w, Live(key)) ==> HasFile(v, Live(key)) && Veiled(w.files[w.entries[Live(key)].id], v.files[v.entries[Live(key)].id])
  {
    OtherEntriesStay(s, op, w, v, key);
    DuringIsSteady(s, op, w, v);
    if HasFile(w, Live(key)) {
      assert ObjectKept(w, v, Touched(s, op), w.entries[Live(key)].id);
    }
  }

  /** A file that is not at the target of an update or delete is wholly as it was. */
  lemma UnsharedStays(s: Setup, op: Operation, w: World, v: World, key: Key)
    requires Accomplished(s, op, w, v) && !Handles(op, key) && HasFile(w, Live(key))
    requires op.kind in {Update, Delete} ==> !Shares(w, TargetPlace(op), Live(key))
    ensures WholeAt(w, v, key)
  {
    var id := w.entries[Live(key)].id;
    OtherEntriesStay(s, op, w, v, key);
    DuringIsSteady(s, op, w, v);
    assert ObjectKept(w, v, Touched(s, op), id);
    if op.kind == MoveUpdate {
      assert ObjectKept(w, v, {}, id);
    } else if op.kind !in {Move, Trash} && NamedIn(w, Touched(s, op), id) {
      var p :| p in Touched(s, op) && p.Live? && p in w.entries && w.entries[p] == File(id);
      TouchedIsHandled(s, op, p.key);
    }
  }

  /** A second name of the file that an update or delete takes from its target: what has become of the file. */
  lemma SharedExactly(s: Setup, op: Operation, w: World, v: World, key: Key)
    requires Accomplished(s, op, w, v) && op.kind in {Update, Delete} && Shares(w, TargetPlace(op), Live(key))
    ensures WholeAt(w, v, key) <==> !Bares(s, op)
    ensures Same(w, v, Live(key)) && HasFile(v, Live(key))
    ensures Veiled(w.files[w.entries[Live(key)].id], v.files[v.entries[Live(key)].id])
  {
    var id := w.entries[Live(key)].id;
    OtherEntriesStay(s, op, w, v, key);
    DuringIsSteady(s, op, w, v);
    DuringIsJustified(s, op, w, v);
    assert NamedIn(w, Touched(s, op), id);
    OldReviewed(s, op, w, id);
    assert ObjectKept(w, v, Touched(s, op), id);
  }

  /** An achieved operation leaves a planned path that it does not handle wholly as it was if and only if it
      is not an unlinked update or a delete of a read-only file of which that path is a second name. */
  lemma UnhandledExactly(s: Setup, op: Operation, w: World, v: World, key: Key)
    requires Accomplished(s, op, w, v) && !Handles(op, key)
    ensures WholeAt(w, v, key) <==> !(Bares(s, op) && Shares(w, TargetPlace(op), Live(key)))
  {
    if HasFile(w, Live(key)) {
      if op.kind in {Update, Delete} && Shares(w, TargetPlace(op), Live(key)) {
        SharedExactly(s, op, w, v, key);
      } else {
        UnsharedStays(s, op, w, v, key);
      }
    } else {
      OtherEntriesStay(s, op, w, v, key);
    }
  }

  /** The same for all planned paths at once. */
  lemma OthersWholeExactly(s: Setup, op: Operation, w: World, v: World)
    requires Accomplished(s, op, w, v)
    ensures (forall key :: !Handles(op, key) ==> WholeAt(w, v, key))
            <==> !(Bares(s, op) && exists key :: !Handles(op, key) && Shares(w, TargetPlace(op), Live(key)))
  {
    forall key | !Handles(op, key)
      ensures WholeAt(w, v, key) <==> !(Bares(s, op) && Shares(w, TargetPlace(op), Live(key)))
    {
      UnhandledExactly(s, op, w, v, key);
    }
  }

  // ---------------------------------------------------------------- seen from the plan

  /** The plan shows that no other planned path can lose its read-only bit. */
  predicate Harmless(s: Setup, op: Operation) {
    !(Bares(s, op) && op.targetExpected.value.nlink > 1)
  }

  lemma OneMember<T>(xs: set<T>, x: T, y: T)
    requires |xs| <= 1 && x in xs && y in xs
    ensures x == y
  {
    assert |xs - {x}| == |xs| - 1;
    assert y !in xs - {x};
  }

  /** The reviewed link count is the number of names when the operation begins. */
  lemma SoleName(s: Setup, op: Operation, w: World, p: Place)
    requires op.kind in {Update, Delete} && Evidenced(s, op, w) && HasFile(w, TargetPlace(op)) && op.targetExpected.value.nlink <= 1
    ensures !Shares(w, TargetPlace(op), p)
  {
    if Shares(w, TargetPlace(op), p) {
      var links := set q | q in w.entries && w.entries[q] == w.entries[TargetPlace(op)];
      OneMember(links, TargetPlace(op), p);
    }
  }

  /** So a harmless operation, once achieved, leaves every other planned path wholly as it was. */
  lemma HarmlessStays(s: Setup, op: Operation, w: World, v: World, key: Key)
    requires Accomplished(s, op, w, v) && Harmless(s, op) && !Handles(op, key)
    ensures WholeAt(w, v, key) && v.newBits == w.newBits
  {
    UnhandledExactly(s, op, w, v, key);
    OtherEntriesStay(s, op, w, v, key);
    DuringIsJustified(s, op, w, v);
    if Bares(s, op) && HasFile(w, TargetPlace(op)) {
      SoleName(s, op, w, Live(key));
    }
  }

  // --------------------------------------------------------------------- an instance

  /** Clear the read-only bit, prepare the new file under its temporary name, and replace the target by it. */
  function Swapped(w: World, target: Place, temp: Place, o: FileObject): World
    requires HasFile(w, target) && temp !in w.entries && temp != target && w.entries[target].id < w.nextId
  {
    Replaced(Created(Unprotected(w, target), temp, o), temp, target)
  }

  lemma SwapIsSteady(s: Setup, op: Operation, w: World, o: FileObject)
    requires Sound(w) && op.kind == Update && HasFile(w, TargetPlace(op)) && TempPlace(s, op) !in w.entries && OtherBits(o) == w.newBits
    ensures Steady(w, Swapped(w, TargetPlace(op), TempPlace(s, op), o), Touched(s, op))
  {
    var target, temp, touched := TargetPlace(op), TempPlace(s, op), Touched(s, op);
    SteadyRefl(w, touched);
    assert NamedIn(w, touched, w.entries[target].id);
    var w1 := Unprotected(w, target);
    StoredSteady(w, w, target, Unlocked(w.files[w.entries[target].id]), touched);
    var w2 := Created(w1, temp, o);
    CreatedSteady(w1, temp, o);
    SteadyTransitive(w, w1, w2, touched, {temp});
    assert touched + {temp} == touched;
    ReplacedSteady(w, w2, temp, target, touched);
  }

  lemma SwapIsDuring(s: Setup, op: Operation, w: World, o: FileObject)
    requires Sound(w) && op.kind == Update && Evidenced(s, op, w) && !s.trashOnUpdate && HasFile(w, TargetPlace(op))
    requires TempPlace(s, op) !in w.entries && NewContent(s, op) == Some(o.bytes) && OtherBits(o) == w.newBits
    ensures var v := Swapped(w, TargetPlace(op), TempPlace(s, op), o); During(s, op, w, v) && Published(s, op, w, v)
  {
    var target := TargetPlace(op);
    var v := Swapped(w, target, TempPlace(s, op), o);
    SwapIsSteady(s, op, w, o);
    assert v.entries[target] == File(w.nextId);
    assert w.nextId in LinkedIds(v.entries);
  }

  lemma KeptBySwap(w: World, target: Place, temp: Place, p: Place, o: FileObject)
    requires HasFile(w, target) && temp !in w.entries && temp != target && w.entries[target].id < w.nextId && Shares(w, target, p)
    ensures var v := Swapped(w, target, temp, o);
            && HasFile(v, p) && v.files[v.entries[p].id] == Unlocked(w.files[w.entries[p].id])
            && HasFile(v, target) && v.files[v.entries[target].id] == o
  {
    var v := Swapped(w, target, temp, o);
    assert p in v.entries && v.entries[p] == w.entries[p];
    assert w.entries[p].id in LinkedIds(v.entries);
    assert v.entries[target] == File(w.nextId);
    assert w.nextId in LinkedIds(v.entries);
  }

  lemma TwoNames(w: World, serial: string, a: Key, b: Key, locked: Metadata)
    requires a != b && w == World(map[Live(a) := File(0), Live(b) := File(0)], map[0 := FileObject([], 5, locked)], 1, 0)
    ensures Sound(w) && StatAt(w, serial, Live(a)) == Some(Stat(FileEntry, 0, 5, Some(Identity(serial, 0)), 2, locked))
  {
    var links := set q | q in w.entries && w.entries[q] == File(0);
    assert links == {Live(a), Live(b)};
    assert Live(a) in w.entries;
  }

  /** An update of a read-only file that has a second planned path takes the read-only bit from that path
      too, when the old file is not linked into trash. */
  lemma SharedFileShowsThrough(path: Path, other: Path) returns (s: Setup, op: Operation, w: World, v: World)
    requires Fold(path) != Fold(other)
    ensures op.kind == Update && op.target == path && op.source == Some(path) && op.prior == None && op.blocked == None
    ensures Accomplished(s, op, w, v) && HasFile(w, Live(Fold(other))) && HasFile(v, Live(Fold(other))) && Same(w, v, Live(Fold(other)))
    ensures w.files[w.entries[Live(Fold(other))].id].metadata.attributes.readonly
    ensures v.files[v.entries[Live(Fold(other))].id] == Unlocked(w.files[w.entries[Live(Fold(other))].id])
  {
    var locked, plain := Metadata(Attributes(true, false, false, 0), None), Metadata(Attributes(false, false, false, 0), None);
    var found, wanted := Stat(FileEntry, 0, 5, None, 2, locked), Stat(FileEntry, 0, 6, None, 1, plain);
    op := Operation(OpId(Update, Some(path), path, None, OperationReason.MetadataChanged), Update, Some(path), path, Some(wanted), Some(found), Some(wanted),
                    None, None, 0, [], OperationReason.MetadataChanged, None);
    s := Setup("run", "serial", false, false, false, false, map[Fold(path) := SourceFile([], wanted)]);
    w := World(map[Live(Fold(path)) := File(0), Live(Fold(other)) := File(0)], map[0 := FileObject([], 5, locked)], 1, 0);
    TwoNames(w, s.serial, Fold(path), Fold(other), locked);
    v := Swapped(w, TargetPlace(op), TempPlace(s, op), FileObject([], 6, plain));
    SwapIsDuring(s, op, w, FileObject([], 6, plain));
    KeptBySwap(w, TargetPlace(op), TempPlace(s, op), Live(Fold(other)), FileObject([], 6, plain));
    OtherEntriesStay(s, op, w, v, Fold(other));
  }
}
