/** Each primitive effect, applied where the executor applies it, stays inside `During`. */
module Steps {
  import opened Paths
  import opened Model
  import opened Volume
  import opened Effects

  // ------------------------------------------------------------ general effects

  lemma SteadyRefl(w: World, touched: set<Place>)
    requires Sound(w)
    ensures Steady(w, w, touched)
  {
  }

  lemma CalmTransitive(w0: World, w1: World, w2: World, a: set<Place>, b: set<Place>)
    requires Calm(w0, w1, a) && Calm(w1, w2, b)
    ensures Calm(w0, w2, a + b)
  {
    forall p | p !in a + b
      ensures Same(w0, w2, p)
    {
      assert Same(w0, w1, p) && Same(w1, w2, p);
    }
  }

  lemma SteadyTransitive(w0: World, w1: World, w2: World, a: set<Place>, b: set<Place>)
    requires Steady(w0, w1, a) && Steady(w1, w2, b)
    ensures Steady(w0, w2, a + b)
  {
    CalmTransitive(w0, w1, w2, a, b);
    SparedTransitive(w0, w1, w2, a, b);
  }

  lemma NamedBefore(w0: World, w1: World, a: set<Place>, b: set<Place>, id: nat)
    requires Steady(w0, w1, a) && NamedIn(w1, b, id) && id < w0.nextId
    ensures NamedIn(w0, a + b, id)
  {
    var p :| p in b && p.Live? && p in w1.entries && w1.entries[p] == File(id);
    assert EntryKept(w0, w1, a, p);
    if NamedIn(w0, a, id) {
      NamedWider(w0, a, a + b, id);
    } else {
      assert p in a + b && p in w0.entries && w0.entries[p] == File(id);
    }
  }

  lemma NamedWider(w0: World, a: set<Place>, b: set<Place>, id: nat)
    requires NamedIn(w0, a, id) && a <= b
    ensures NamedIn(w0, b, id)
  {
    var p :| p in a && p.Live? && p in w0.entries && w0.entries[p] == File(id);
    assert p in b;
  }

  lemma SparedTransitive(w0: World, w1: World, w2: World, a: set<Place>, b: set<Place>)
    requires Steady(w0, w1, a) && Steady(w1, w2, b)
    ensures Spared(w0, w2, a + b)
  {
    forall id
      ensures ObjectKept(w0, w2, a + b, id)
    {
      ObjectKeptTwice(w0, w1, w2, a, b, id);
    }
    forall p
      ensures EntryKept(w0, w2, a + b, p)
    {
      EntryKeptTwice(w0, w1, w2, a, b, p);
    }
  }

  lemma ObjectKeptTwice(w0: World, w1: World, w2: World, a: set<Place>, b: set<Place>, id: nat)
    requires Steady(w0, w1, a) && Steady(w1, w2, b)
    ensures ObjectKept(w0, w2, a + b, id)
  {
    assert ObjectKept(w0, w1, a, id) && ObjectKept(w1, w2, b, id);
    if id in w2.files && id < w0.nextId {
      if NamedIn(w1, b, id) {
        NamedBefore(w0, w1, a, b, id);
      } else if NamedIn(w0, a, id) {
        NamedWider(w0, a, a + b, id);
      }
    }
  }

  lemma EntryKeptTwice(w0: World, w1: World, w2: World, a: set<Place>, b: set<Place>, p: Place)
    requires Steady(w0, w1, a) && Steady(w1, w2, b)
    ensures EntryKept(w0, w2, a + b, p)
  {
    if p in w2.entries && w2.entries[p].File? && w2.entries[p].id < w0.nextId {
      var id := w2.entries[p].id;
      assert EntryKept(w0, w1, a, p) && EntryKept(w1, w2, b, p);
      if NamedIn(w1, b, id) {
        NamedBefore(w0, w1, a, b, id);
      } else if NamedIn(w0, a, id) {
        NamedWider(w0, a, a + b, id);
      }
    }
  }

  lemma UnlinkedSteady(w: World, p: Place)
    requires Sound(w)
    ensures Steady(w, Unlinked(w, p), {p}) && Gone(Unlinked(w, p), p)
  {
    var v := Unlinked(w, p);
    forall q | q in v.entries && v.entries[q].File?
      ensures v.entries[q].id in v.files
    {
      assert v.entries[q].id in LinkedIds(v.entries);
    }
  }

  lemma CreatedSteady(w: World, p: Place, o: FileObject)
    requires Sound(w) && p !in w.entries && OtherBits(o) == w.newBits
    ensures Steady(w, Created(w, p, o), {p})
    ensures FreshWith(w, Created(w, p, o), p, o.bytes)
  {
    var v := Created(w, p, o);
    assert p in v.entries && v.entries[p] == File(w.nextId);
    forall id | id in v.files
      ensures id in LinkedIds(v.entries) && id < v.nextId
    {
      if id != w.nextId {
        var q :| q in w.entries && w.entries[q].File? && w.entries[q].id == id;
        assert q in v.entries && v.entries[q] == w.entries[q];
      }
    }
  }

  /** Rewriting a file that did not exist in `w0`, or clearing the read-only bit of one of the operation's
      own, leaves the others alone. */
  lemma StoredSteady(w0: World, w: World, p: Place, o: FileObject, touched: set<Place>)
    requires Steady(w0, w, touched) && HasFile(w, p) && Rewrites(w, p, o, o.bytes)
    requires Fresh(w0, w, p) || (NamedIn(w0, touched, w.entries[p].id) && w.entries[p].id in w0.files && Veiled(w0.files[w.entries[p].id], o))
    ensures Steady(w0, Stored(w, p, o), touched)
    ensures Stored(w, p, o).entries == w.entries && Stored(w, p, o).files.Keys == w.files.Keys
  {
    var v := Stored(w, p, o);
    assert v.files.Keys == w.files.Keys;
    forall id
      ensures ObjectKept(w0, v, touched, id)
    {
      assert ObjectKept(w0, w, touched, id);
    }
    forall q
      ensures EntryKept(w0, v, touched, q)
    {
      assert EntryKept(w0, w, touched, q);
    }
  }

  /** Dressing an entry rewrites a file object or a directory's stat and nothing else. */
  lemma RetouchedStores(w: World, p: Place, stat: Stat, pc: bool, ro: bool, steps: nat)
    requires Sound(w) && p in w.entries
    ensures var v := Retouched(w, p, stat, pc, ro, steps);
            if w.entries[p].File?
            then w.entries[p].id in v.files && v == Stored(w, p, v.files[w.entries[p].id]) && Rewrites(w, p, v.files[w.entries[p].id], BytesAt(w, p))
            else exists s :: v == WithDirectory(w, p, s)
  {
    if w.entries[p].Directory? {
      var v := Retouched(w, p, stat, pc, ro, steps);
      assert v == WithDirectory(w, p, v.entries[p].stat);
    }
  }

  lemma RetouchedCalm(w: World, p: Place, stat: Stat, pc: bool, ro: bool, steps: nat)
    requires Sound(w) && p in w.entries
    ensures Calm(w, Retouched(w, p, stat, pc, ro, steps), {p})
  {
    var v := Retouched(w, p, stat, pc, ro, steps);
    RetouchedStores(w, p, stat, pc, ro, steps);
    if w.entries[p].File? {
      assert v.files.Keys == w.files.Keys;
    } else {
      WithDirectorySteady(w, p, v.entries[p].stat);
    }
  }

  lemma WithDirectorySteady(w: World, p: Place, s: Stat)
    requires Sound(w) && (p in w.entries ==> w.entries[p].Directory?)
    ensures Steady(w, WithDirectory(w, p, s), {p})
  {
    var v := WithDirectory(w, p, s);
    forall id | id in v.files
      ensures id in LinkedIds(v.entries)
    {
      var q :| q in w.entries && w.entries[q].File? && w.entries[q].id == id;
      assert q in v.entries && v.entries[q] == w.entries[q];
    }
  }

  lemma RenamedCalm(w: World, a: Place, b: Place)
    requires Sound(w) && CanRename(w, a, b)
    ensures Calm(w, Renamed(w, a, b), {a, b})
    ensures Gone(Renamed(w, a, b), a) && b in Renamed(w, a, b).entries && Renamed(w, a, b).entries[b] == w.entries[a]
  {
    var v := Renamed(w, a, b);
    forall id | id in v.files
      ensures id in LinkedIds(v.entries)
    {
      var q :| q in w.entries && w.entries[q].File? && w.entries[q].id == id;
      var r := if q == a then b else q;
      assert r in v.entries && v.entries[r] == w.entries[q];
    }
  }

  /** A name may be given to a new file, or to an older one that was at a planned path of the operation. */
  lemma NameGiven(w0: World, w: World, v: World, a: Place, b: Place, touched: set<Place>)
    requires Steady(w0, w, touched) && a in touched && a in w.entries && (a.Live? || Fresh(w0, w, a))
    requires v.newBits == w.newBits && (forall id :: id in v.files ==> id in w.files && v.files[id] == w.files[id])
    requires b in v.entries && v.entries[b] == w.entries[a]
    requires forall q :: q in v.entries && q != b ==> q in w.entries && v.entries[q] == w.entries[q]
    ensures Spared(w0, v, touched)
  {
    forall id
      ensures ObjectKept(w0, v, touched, id)
    {
      assert ObjectKept(w0, w, touched, id);
    }
    forall q
      ensures EntryKept(w0, v, touched, q)
    {
      var r := if q == b then a else q;
      assert EntryKept(w0, w, touched, r);
      if q == b && v.entries[b].File? && v.entries[b].id < w0.nextId && Same(w0, w, a) {
        assert NamedIn(w0, touched, v.entries[b].id);
      }
    }
  }

  lemma RenamedSteady(w0: World, w: World, a: Place, b: Place, touched: set<Place>)
    requires Sound(w0) && Steady(w0, w, touched) && a in touched && b in touched && CanRename(w, a, b) && (a.Live? || Fresh(w0, w, a))
    ensures Steady(w0, Renamed(w, a, b), touched) && Calm(w, Renamed(w, a, b), {a, b})
    ensures Gone(Renamed(w, a, b), a) && b in Renamed(w, a, b).entries && Renamed(w, a, b).entries[b] == w.entries[a]
  {
    RenamedCalm(w, a, b);
    CalmTransitive(w0, w, Renamed(w, a, b), touched, {a, b});
    assert touched + {a, b} == touched;
    NameGiven(w0, w, Renamed(w, a, b), a, b, touched);
  }

  lemma LinkedCalm(w: World, a: Place, b: Place)
    requires Sound(w) && CanLink(w, a, b)
    ensures Calm(w, Linked(w, a, b), {b})
  {
    var v := Linked(w, a, b);
    forall id | id in v.files
      ensures id in LinkedIds(v.entries)
    {
      var q :| q in w.entries && w.entries[q].File? && w.entries[q].id == id;
      assert q in v.entries && v.entries[q] == w.entries[q];
    }
  }

  lemma LinkedSteady(w0: World, w: World, a: Place, b: Place, touched: set<Place>)
    requires Sound(w0) && Steady(w0, w, touched) && a in touched && b in touched && a.Live? && CanLink(w, a, b)
    ensures Steady(w0, Linked(w, a, b), touched) && Calm(w, Linked(w, a, b), {b})
    ensures b in Linked(w, a, b).entries && Linked(w, a, b).entries[b] == w.entries[a]
  {
    LinkedCalm(w, a, b);
    CalmTransitive(w0, w, Linked(w, a, b), touched, {b});
    assert touched + {b} == touched;
    NameGiven(w0, w, Linked(w, a, b), a, b, touched);
  }

  lemma ReplacedCalm(w: World, a: Place, b: Place)
    requires Sound(w) && CanReplace(w, a, b)
    ensures Calm(w, Replaced(w, a, b), {a, b})
    ensures Gone(Replaced(w, a, b), a) && HasFile(Replaced(w, a, b), b)
    ensures Replaced(w, a, b).entries[b] == w.entries[a]
    ensures BytesAt(Replaced(w, a, b), b) == BytesAt(w, a)
  {
    var v := Replaced(w, a, b);
    forall q | q in v.entries && v.entries[q].File?
      ensures v.entries[q].id in v.files
    {
      assert v.entries[q].id in LinkedIds(v.entries);
    }
  }

  lemma ReplacedSteady(w0: World, w: World, a: Place, b: Place, touched: set<Place>)
    requires Sound(w0) && Steady(w0, w, touched) && a in touched && b in touched && CanReplace(w, a, b) && Fresh(w0, w, a)
    ensures Steady(w0, Replaced(w, a, b), touched) && Calm(w, Replaced(w, a, b), {a, b})
    ensures Gone(Replaced(w, a, b), a) && HasFile(Replaced(w, a, b), b)
    ensures Replaced(w, a, b).entries[b] == w.entries[a]
    ensures BytesAt(Replaced(w, a, b), b) == BytesAt(w, a)
  {
    ReplacedCalm(w, a, b);
    CalmTransitive(w0, w, Replaced(w, a, b), touched, {a, b});
    assert touched + {a, b} == touched;
    NameGiven(w0, w, Replaced(w, a, b), a, b, touched);
  }

  /** A step at owned temporaries writes to no older file. */
  lemma OldWholeStep(w0: World, w: World, v: World, touched: set<Place>)
    requires OldWhole(w0, w) && Steady(w, v, touched) && w0.nextId <= w.nextId && w.newBits == w0.newBits
    requires forall p :: p in touched ==> !p.Live?
    ensures OldWhole(w0, v)
  {
    forall id
      ensures ObjectKept(w0, v, {}, id)
    {
      assert ObjectKept(w0, w, {}, id) && ObjectKept(w, v, touched, id);
    }
  }

  /** A step that changes only names writes to no file. */
  lemma OldWholeNames(w0: World, w: World, v: World)
    requires OldWhole(w0, w) && forall id :: id in v.files ==> id in w.files && v.files[id] == w.files[id]
    ensures OldWhole(w0, v)
  {
    forall id
      ensures ObjectKept(w0, v, {}, id)
    {
      assert ObjectKept(w0, w, {}, id);
    }
  }

  /** Rewriting a new file writes to no older one. */
  lemma OldWholeStored(w0: World, w: World, p: Place, o: FileObject)
    requires OldWhole(w0, w) && Fresh(w0, w, p) && Rewrites(w, p, o, o.bytes)
    ensures OldWhole(w0, Stored(w, p, o))
  {
    var v := Stored(w, p, o);
    forall id
      ensures ObjectKept(w0, v, {}, id)
    {
      assert ObjectKept(w0, w, {}, id);
    }
  }

  // ------------------------------------------------- carrying slots along a step

  /** What a step that does not touch `p` keeps about it. */
  lemma SlotKept(w0: World, w: World, v: World, touched: set<Place>, p: Place)
    requires Sound(w) && Calm(w, v, touched) && p !in touched && w0.nextId <= w.nextId
    ensures Same(w, v, p)
    ensures Same(w0, w, p) ==> Same(w0, v, p)
    ensures HasFile(w, p) <==> HasFile(v, p)
    ensures HasFile(w, p) ==> BytesAt(v, p) == BytesAt(w, p)
    ensures Fresh(w0, w, p) <==> Fresh(w0, v, p)
  {
    assert Same(w, v, p);
  }

  // --------------------------------------------------------------- preparing a copy

  /** The states of streaming `content` into a new file at `p`, seen from the volume `w1` before. */
  ghost predicate Filling(w1: World, w: World, p: Place, content: Bytes) {
    && Steady(w1, w, {p})
    && (Same(w1, w, p) || Gone(w, p) || FreshPart(w1, w, p, content))
  }

  ghost predicate Preparing(s: Setup, op: Operation, w1: World, w: World) {
    NewContent(s, op).Some? && Filling(w1, w, TempPlace(s, op), NewContent(s, op).value)
  }

  /** The copy is complete under its temporary name. */
  predicate Ready(s: Setup, op: Operation, w0: World, w: World) {
    NewContent(s, op).Some? && FreshWith(w0, w, TempPlace(s, op), NewContent(s, op).value)
  }

  predicate Publishes(op: Operation) {
    op.kind == Copy || op.kind == Update || (op.kind == MoveUpdate && op.prior.Some?)
  }

  /** No step beyond the temporary was taken yet. */
  predicate Unpublished(s: Setup, op: Operation, w0: World, w: World) {
    Publishes(op) && Same(w0, w, TargetPlace(op))
  }

  lemma PreparingIsDuring(s: Setup, op: Operation, w0: World, w1: World, w: World)
    requires Sound(w0) && During(s, op, w0, w1) && Unpublished(s, op, w0, w1)
    requires Preparing(s, op, w1, w) && Evidenced(s, op, w0)
    ensures During(s, op, w0, w) && Unpublished(s, op, w0, w)
    ensures Ready(s, op, w1, w) ==> Ready(s, op, w0, w)
  {
    var temp, target := TempPlace(s, op), TargetPlace(op);
    DuringIsSteady(s, op, w0, w1);
    SteadyTransitive(w0, w1, w, Touched(s, op), {temp});
    assert Touched(s, op) + {temp} == Touched(s, op);
    SlotKept(w0, w1, w, {temp}, target);
    assert TempSlot(s, op, w0, w);
    if op.kind == Update {
      SlotKept(w0, w1, w, {temp}, TrashPlace(s, op.target));
      SlotKept(w0, w1, w, {temp}, BackupTempPlace(s, op));
    } else if op.kind == MoveUpdate {
      SlotKept(w0, w1, w, {temp}, Live(Fold(op.prior.value)));
      SlotKept(w0, w1, w, {temp}, TrashPlace(s, op.prior.value));
      OldWholeStep(w0, w1, w, {temp});
    }
  }

  /** Publishing a complete temporary to a free target. */
  lemma PublishIsDuring(s: Setup, op: Operation, w0: World, w: World)
    requires Sound(w0) && During(s, op, w0, w) && Unpublished(s, op, w0, w) && Ready(s, op, w0, w) && Evidenced(s, op, w0)
    requires op.kind != Update && CanRename(w, TempPlace(s, op), TargetPlace(op))
    requires op.kind == MoveUpdate ==> Live(Fold(op.prior.value)) in w.entries
    ensures var v := Renamed(w, TempPlace(s, op), TargetPlace(op));
            During(s, op, w0, v) && Published(s, op, w0, v)
  {
    var temp, target := TempPlace(s, op), TargetPlace(op);
    var v := Renamed(w, temp, target);
    DuringIsSteady(s, op, w0, w);
    RenamedSteady(w0, w, temp, target, Touched(s, op));
    if op.kind == MoveUpdate {
      SlotKept(w0, w, v, {temp, target}, Live(Fold(op.prior.value)));
      SlotKept(w0, w, v, {temp, target}, TrashPlace(s, op.prior.value));
      OldWholeNames(w0, w, v);
    }
  }

  /** The file at `p` was created by the operation or was at one of its planned paths. */
  ghost predicate Own(s: Setup, op: Operation, w0: World, w: World, p: Place) {
    p in w.entries && w.entries[p].File? && (Fresh(w0, w, p) || NamedIn(w0, Touched(s, op), w.entries[p].id))
  }

  /** The old file of an update or delete is the reviewed one, with the times and attributes it was reviewed with. */
  lemma OldReviewed(s: Setup, op: Operation, w0: World, id: nat)
    requires Sound(w0) && op.kind in {Update, Delete} && Evidenced(s, op, w0) && NamedIn(w0, Touched(s, op), id)
    ensures id in w0.files && w0.entries[TargetPlace(op)] == File(id) && op.targetExpected.Some?
    ensures w0.files[id].mtime == op.targetExpected.value.mtime && w0.files[id].metadata == op.targetExpected.value.metadata
  {
    var p :| p in Touched(s, op) && p.Live? && p in w0.entries && w0.entries[p] == File(id);
    assert p == TargetPlace(op);
  }

  /** What may be written to one of the operation's own files: anything to a new one; to an older one only
      the loss of the read-only bit or its return, and after the replacement or removal only if it is linked into trash. */
  ghost predicate Writable(s: Setup, op: Operation, w0: World, w: World, p: Place, o: FileObject) {
    && Own(s, op, w0, w, p)
    && (Fresh(w0, w, p)
        || (&& w.entries[p].id in w0.files && Veiled(w0.files[w.entries[p].id], o)
            && ((op.kind == Delete && !Gone(w, TargetPlace(op))) || (op.kind == Update && (LinksBackup(s) || !Published(s, op, w0, w))))))
  }

  /** Names, contents and novelty of all places survive a rewriting of metadata. */
  ghost predicate Redecorated(w0: World, w: World, v: World) {
    && v.entries == w.entries
    && (forall q :: HasFile(v, q) <==> HasFile(w, q))
    && (forall q :: HasFile(w, q) ==> BytesAt(v, q) == BytesAt(w, q))
    && (forall q :: Same(w0, v, q) <==> Same(w0, w, q))
    && (forall q :: Fresh(w0, v, q) <==> Fresh(w0, w, q))
  }

  lemma StoredRedecorates(w0: World, w: World, p: Place, o: FileObject)
    requires HasFile(w, p) && o.bytes == BytesAt(w, p)
    ensures Redecorated(w0, w, Stored(w, p, o))
  {
  }

  lemma RedecoratedSlots(s: Setup, op: Operation, w0: World, w: World, v: World)
    requires Redecorated(w0, w, v)
    ensures Published(s, op, w0, w) ==> Published(s, op, w0, v)
    ensures Ready(s, op, w0, w) ==> Ready(s, op, w0, v)
    ensures BackedUp(s, op, w0, w) ==> BackedUp(s, op, w0, v)
    ensures TempSlot(s, op, w0, w) ==> TempSlot(s, op, w0, v)
    ensures BackupSlot(s, op, w0, w) ==> BackupSlot(s, op, w0, v)
    ensures TwoFiles(s, op, w0, w) ==> TwoFiles(s, op, w0, v)
  {
  }

  lemma StoredIsDuringUpdate(s: Setup, op: Operation, w0: World, w: World, p: Place, o: FileObject)
    requires Sound(w0) && op.kind == Update && DuringUpdate(s, op, w0, w) && HasFile(w, p) && Evidenced(s, op, w0) && Writable(s, op, w0, w, p, o)
    requires Steady(w0, Stored(w, p, o), Touched(s, op)) && Redecorated(w0, w, Stored(w, p, o))
    ensures DuringUpdate(s, op, w0, Stored(w, p, o))
  {
    RedecoratedSlots(s, op, w0, w, Stored(w, p, o));
  }

  /** Metadata of an operation's own files may be rewritten at any time. */
  lemma StoredIsDuring(s: Setup, op: Operation, w0: World, w: World, p: Place, o: FileObject)
    requires Sound(w0) && During(s, op, w0, w) && HasFile(w, p) && Rewrites(w, p, o, BytesAt(w, p)) && Evidenced(s, op, w0)
    requires Writable(s, op, w0, w, p, o) && (Publishes(op) || op.kind == Delete)
    ensures var v := Stored(w, p, o);
            && During(s, op, w0, v) && v.entries == w.entries
            && (Publishes(op) && Published(s, op, w0, w) ==> Published(s, op, w0, v))
            && (Publishes(op) && Ready(s, op, w0, w) ==> Ready(s, op, w0, v))
            && (op.kind == Update && BackedUp(s, op, w0, w) ==> BackedUp(s, op, w0, v))
  {
    var v := Stored(w, p, o);
    DuringIsSteady(s, op, w0, w);
    StoredSteady(w0, w, p, o, Touched(s, op));
    StoredRedecorates(w0, w, p, o);
    RedecoratedSlots(s, op, w0, w, v);
    if op.kind == MoveUpdate {
      OldWholeStored(w0, w, p, o);
    } else if op.kind == Update {
      StoredIsDuringUpdate(s, op, w0, w, p, o);
    }
  }

  // ------------------------------------------------------------------------ update

  /** Everything is prepared and the target still holds the displaced file. */
  ghost predicate UpdateReady(s: Setup, op: Operation, w0: World, w: World) {
    && op.kind == Update
    && DuringUpdate(s, op, w0, w)
    && Same(w0, w, TargetPlace(op))
    && Displaces(op, w0)
    && Ready(s, op, w0, w)
    && Evidenced(s, op, w0)
  }

  lemma LinkBackupStep(s: Setup, op: Operation, w0: World, w: World)
    requires Sound(w0) && UpdateReady(s, op, w0, w) && s.trashOnUpdate && s.hardlinks
    requires CanLink(w, TargetPlace(op), TrashPlace(s, op.target))
    ensures var v := Linked(w, TargetPlace(op), TrashPlace(s, op.target));
            UpdateReady(s, op, w0, v) && BackedUp(s, op, w0, v)
  {
    var target, temp, trash, backup := TargetPlace(op), TempPlace(s, op), TrashPlace(s, op.target), BackupTempPlace(s, op);
    var v := Linked(w, target, trash);
    LinkedSteady(w0, w, target, trash, Touched(s, op));
    SlotKept(w0, w, v, {trash}, target);
    SlotKept(w0, w, v, {trash}, temp);
    SlotKept(w0, w, v, {trash}, backup);
  }

  lemma FillBackupStep(s: Setup, op: Operation, w0: World, w1: World, w: World)
    requires Sound(w0) && UpdateReady(s, op, w0, w1) && s.trashOnUpdate && !s.hardlinks
    requires TrashPlace(s, op.target) !in w1.entries
    requires Filling(w1, w, BackupTempPlace(s, op), BytesAt(w0, TargetPlace(op)))
    ensures UpdateReady(s, op, w0, w) && TrashPlace(s, op.target) !in w.entries
    ensures Fresh(w1, w, BackupTempPlace(s, op)) ==> Fresh(w0, w, BackupTempPlace(s, op))
  {
    var target, temp, trash, backup := TargetPlace(op), TempPlace(s, op), TrashPlace(s, op.target), BackupTempPlace(s, op);
    SteadyTransitive(w0, w1, w, Touched(s, op), {backup});
    assert Touched(s, op) + {backup} == Touched(s, op);
    SlotKept(w0, w1, w, {backup}, target);
    SlotKept(w0, w1, w, {backup}, temp);
    SlotKept(w0, w1, w, {backup}, trash);
  }

  lemma PublishBackupStep(s: Setup, op: Operation, w0: World, w: World)
    requires Sound(w0) && UpdateReady(s, op, w0, w) && s.trashOnUpdate && !s.hardlinks
    requires FreshWith(w0, w, BackupTempPlace(s, op), BytesAt(w0, TargetPlace(op)))
    requires CanRename(w, BackupTempPlace(s, op), TrashPlace(s, op.target))
    ensures var v := Renamed(w, BackupTempPlace(s, op), TrashPlace(s, op.target));
            UpdateReady(s, op, w0, v) && BackedUp(s, op, w0, v)
  {
    var target, temp, trash, backup := TargetPlace(op), TempPlace(s, op), TrashPlace(s, op.target), BackupTempPlace(s, op);
    var v := Renamed(w, backup, trash);
    RenamedSteady(w0, w, backup, trash, Touched(s, op));
    SlotKept(w0, w, v, {backup, trash}, target);
    SlotKept(w0, w, v, {backup, trash}, temp);
  }

  lemma ReplaceStep(s: Setup, op: Operation, w0: World, w: World)
    requires Sound(w0) && UpdateReady(s, op, w0, w)
    requires s.trashOnUpdate ==> BackedUp(s, op, w0, w)
    requires LinksBackup(s) || Bared(op, w0, w)
    requires CanReplace(w, TempPlace(s, op), TargetPlace(op))
    ensures var v := Replaced(w, TempPlace(s, op), TargetPlace(op));
            && DuringUpdate(s, op, w0, v) && Published(s, op, w0, v)
            && (s.trashOnUpdate ==> BackedUp(s, op, w0, v))
  {
    var target, temp, trash, backup := TargetPlace(op), TempPlace(s, op), TrashPlace(s, op.target), BackupTempPlace(s, op);
    var v := Replaced(w, temp, target);
    ReplacedSteady(w0, w, temp, target, Touched(s, op));
    SlotKept(w0, w, v, {temp, target}, trash);
    SlotKept(w0, w, v, {temp, target}, backup);
  }

  // ----------------------------------------------------------- moving and trashing

  lemma RelocateStep(w0: World, w: World, a: Place, b: Place)
    requires Sound(w0) && DuringRelocation(w0, w, a, b) && HasFile(w, a) && CanRename(w, a, b) && a.Live?
    ensures DuringRelocation(w0, Renamed(w, a, b), a, b) && Relocated(w0, Renamed(w, a, b), a, b)
  {
    RenamedSteady(w0, w, a, b, {a, b});
  }

  lemma RetireStep(s: Setup, op: Operation, w0: World, w: World)
    requires Sound(w0) && op.kind == MoveUpdate && op.prior.Some?
    requires DuringMoveUpdate(s, op, w0, w) && TargetPlace(op) !in w0.entries && Published(s, op, w0, w)
    requires HasFile(w0, Live(Fold(op.prior.value))) && CanRename(w, Live(Fold(op.prior.value)), TrashPlace(s, op.prior.value))
    ensures var v := Renamed(w, Live(Fold(op.prior.value)), TrashPlace(s, op.prior.value));
            && DuringMoveUpdate(s, op, w0, v) && Published(s, op, w0, v)
            && Relocated(w0, v, Live(Fold(op.prior.value)), TrashPlace(s, op.prior.value))
  {
    var target, temp, prior, trash := TargetPlace(op), TempPlace(s, op), Live(Fold(op.prior.value)), TrashPlace(s, op.prior.value);
    var v := Renamed(w, prior, trash);
    RenamedSteady(w0, w, prior, trash, Touched(s, op));
    SlotKept(w0, w, v, {prior, trash}, target);
    SlotKept(w0, w, v, {prior, trash}, temp);
    OldWholeNames(w0, w, v);
  }

  // ------------------------------------------------------------ deleting, creating

  lemma StillEmpty(w0: World, w: World, p: Place)
    requires Calm(w0, w, {p}) && IsEmptyDirectory(w, p) && p in w0.entries && w0.entries[p].Directory?
    ensures IsEmptyDirectory(w0, p)
  {
    forall q | q in w0.entries && LiveKey(q).Some?
      ensures !Beneath(LiveKey(q).value, p.key)
    {
      assert q == p || Same(w0, w, q);
    }
  }

  lemma RemoveStep(s: Setup, op: Operation, w0: World, w: World)
    requires Sound(w0) && op.kind == Delete && DuringDelete(s, op, w0, w) && op.targetExpected.Some? && Evidenced(s, op, w0)
    requires TargetPlace(op) in w.entries && w.entries[TargetPlace(op)].Directory? ==> IsEmptyDirectory(w, TargetPlace(op))
    requires TargetPlace(op) in w.entries
    requires op.targetExpected.value.kind == FileEntry <==> w.entries[TargetPlace(op)].File?
    requires Bared(op, w0, w)
    ensures DuringDelete(s, op, w0, Unlinked(w, TargetPlace(op)))
  {
    var target := TargetPlace(op);
    if IsEmptyDirectory(w, target) {
      StillEmpty(w0, w, target);
    }
    UnlinkedSteady(w, target);
    SteadyTransitive(w0, w, Unlinked(w, target), {target}, {target});
    assert {target} + {target} == {target};
  }

  lemma DirectoryStep(s: Setup, op: Operation, w0: World, w: World, stat: Stat)
    requires Sound(w0) && (op.kind == Mkdir || (op.kind == Delete && op.targetExpected.Some? && op.targetExpected.value.kind == DirectoryEntry))
    requires During(s, op, w0, w) && Evidenced(s, op, w0)
    requires if TargetPlace(op) in w.entries then w.entries[TargetPlace(op)].Directory? else op.kind == Mkdir
    ensures During(s, op, w0, WithDirectory(w, TargetPlace(op), stat))
  {
    var target := TargetPlace(op);
    WithDirectorySteady(w, target, stat);
    SteadyTransitive(w0, w, WithDirectory(w, target, stat), {target}, {target});
    assert {target} + {target} == {target};
  }

  // ----------------------------------------------------------------------- cleanup

  lemma CleanupUpdateStep(s: Setup, op: Operation, w0: World, w: World)
    requires Sound(w0) && op.kind == Update && DuringUpdate(s, op, w0, w) && Evidenced(s, op, w0) && TempPlace(s, op) in w.entries
    requires Steady(w0, Unlinked(w, TempPlace(s, op)), Touched(s, op)) && Calm(w, Unlinked(w, TempPlace(s, op)), {TempPlace(s, op)})
    ensures DuringUpdate(s, op, w0, Unlinked(w, TempPlace(s, op)))
  {
    var temp := TempPlace(s, op);
    var v := Unlinked(w, temp);
    SlotKept(w0, w, v, {temp}, TargetPlace(op));
    SlotKept(w0, w, v, {temp}, TrashPlace(s, op.target));
    SlotKept(w0, w, v, {temp}, BackupTempPlace(s, op));
  }

  /** Removing the owned temporary is always allowed. */
  lemma CleanupStep(s: Setup, op: Operation, w0: World, w: World)
    requires Sound(w0) && During(s, op, w0, w) && Evidenced(s, op, w0) && Publishes(op) && TempPlace(s, op) in w.entries
    ensures During(s, op, w0, Unlinked(w, TempPlace(s, op))) && Unpublished(s, op, w0, w)
    ensures Unpublished(s, op, w0, Unlinked(w, TempPlace(s, op)))
    ensures Steady(w, Unlinked(w, TempPlace(s, op)), {TempPlace(s, op)})
  {
    var temp := TempPlace(s, op);
    var v := Unlinked(w, temp);
    DuringIsSteady(s, op, w0, w);
    UnlinkedSteady(w, temp);
    SteadyTransitive(w0, w, v, Touched(s, op), {temp});
    assert Touched(s, op) + {temp} == Touched(s, op);
    SlotKept(w0, w, v, {temp}, TargetPlace(op));
    if op.kind == Update {
      CleanupUpdateStep(s, op, w0, w);
    } else if op.kind == MoveUpdate {
      SlotKept(w0, w, v, {temp}, Live(Fold(op.prior.value)));
      SlotKept(w0, w, v, {temp}, TrashPlace(s, op.prior.value));
      OldWholeNames(w0, w, v);
    }
  }
}
