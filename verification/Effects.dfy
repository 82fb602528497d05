/** What a volume may look like while one planned operation is being carried out.

`During(setup, op, w0, w)` relates the volume at the start of an operation to any state it goes
through, however many attempts are made and wherever a primitive fails.  The three run-wide
guarantees (no content loss, the capacity bound, the frame) are consequences of it. */
module Effects {
  import opened Paths
  import opened Model
  import opened Volume

  datatype SourceFile = SourceFile(bytes: Bytes, stat: Stat)

  /** What stays fixed during a run: the run id, the target volume's serial, the reviewed options and
      the source tree. */
  datatype Setup = Setup(
    run: RunId,
    serial: string,
    trashOnUpdate: bool,
    hardlinks: bool,
    preserveCreated: bool,
    preserveAcl: bool,
    source: map<Key, SourceFile>)

  predicate SourceSound(s: Setup) {
    forall k :: k in s.source ==> s.source[k].stat.size == |s.source[k].bytes|
  }

  // ------------------------------------------------------------ stat matchers

  /** Every planned fact, without inventing absent identity evidence. */
  predicate MatchesExpected(actual: Stat, expected: Stat) {
    && actual.kind == expected.kind
    && actual.size == expected.size
    && actual.mtime == expected.mtime
    && actual.nlink == expected.nlink
    && actual.metadata == expected.metadata
    && (expected.identity == None || actual.identity == expected.identity)
  }

  predicate MatchesDirectoryCleanup(actual: Stat, expected: Stat) {
    && actual.kind == DirectoryEntry
    && expected.kind == DirectoryEntry
    && actual.size == expected.size
    && actual.metadata == expected.metadata
    && (expected.identity == None || actual.identity == expected.identity)
  }

  /** The entry at `p` is the reviewed one. */
  predicate Reviewed(w: World, serial: string, p: Place, expected: Stat) {
    StatAt(w, serial, p).Some? && MatchesExpected(StatAt(w, serial, p).value, expected)
  }

  predicate SameFileVersion(actual: Stat, expected: Stat) {
    && actual.kind == expected.kind
    && actual.size == expected.size
    && actual.mtime == expected.mtime
    && (expected.identity == None || actual.identity == expected.identity)
  }

  // ------------------------------------------------------ an operation's places

  function TargetPlace(op: Operation): Place {
    Live(Fold(op.target))
  }

  function TempPlace(s: Setup, op: Operation): Place {
    TempOf(TargetPlace(op), s.run, op.id)
  }

  function TrashPlace(s: Setup, path: Path): Place {
    Trashed(s.run, Fold(path))
  }

  function BackupTempPlace(s: Setup, op: Operation): Place {
    TempOf(TrashPlace(s, op.target), s.run, op.id)
  }

  /** The bytes an operation would copy: the source file's, provided it is the reviewed one. */
  function NewContent(s: Setup, op: Operation): Option<Bytes> {
    if op.source.Some? && op.sourceExpected.Some? && Fold(op.source.value) in s.source
       && MatchesExpected(s.source[Fold(op.source.value)].stat, op.sourceExpected.value)
    then Some(s.source[Fold(op.source.value)].bytes)
    else None
  }

  predicate ReadsSource(kind: OperationKind) {
    CopiesContent(kind) || kind in {Noop, Recase}
  }

  /** The evidence the planner attaches to each kind of operation. */
  predicate Complete(op: Operation) {
    && (ReadsSource(op.kind) ==> op.source.Some? && op.sourceExpected.Some?)
    && (op.kind in {Update, Trash, Delete, Noop} ==> op.targetExpected.Some?)
    && (op.kind in {Move, MoveUpdate, Recase} ==> op.prior.Some? && op.priorExpected.Some?)
    && (op.kind in {Copy, Move, MoveUpdate, Mkdir} ==> op.targetExpected.None?)
    && (op.kind == Recase ==> Fold(op.prior.value) == Fold(op.target))
  }

  /** The evidence shape the planner gives each kind of operation: file operations expect files,
      and the bytes an operation is charged for are the bytes its source had. */
  predicate Shaped(op: Operation) {
    && (op.kind in {Update, Trash} && op.targetExpected.Some? ==> op.targetExpected.value.kind == FileEntry)
    && (op.kind in {Move, MoveUpdate} && op.priorExpected.Some? ==> op.priorExpected.value.kind == FileEntry)
    && (op.kind in {Copy, MoveUpdate} ==> op.targetExpected == None)
    && (op.kind in {Copy, Update, MoveUpdate} && op.sourceExpected.Some? ==> op.contentBytes == op.sourceExpected.value.size)
  }

  // ------------------------------------------------------- states of one place

  predicate Same(w0: World, w: World, p: Place) {
    && (p in w.entries <==> p in w0.entries)
    && (p in w.entries ==> w.entries[p] == w0.entries[p])
  }

  predicate Gone(w: World, p: Place) {
    p !in w.entries
  }

  /** A file created since `w0`. */
  predicate Fresh(w0: World, w: World, p: Place) {
    HasFile(w, p) && w.entries[p].id >= w0.nextId
  }

  predicate FreshWith(w0: World, w: World, p: Place, content: Bytes) {
    Fresh(w0, w, p) && BytesAt(w, p) == content
  }

  predicate FreshPart(w0: World, w: World, p: Place, content: Bytes) {
    Fresh(w0, w, p) && BytesAt(w, p) <= content
  }

  /** The very entry of `a` now sits at `b`, which was free. */
  predicate Relocated(w0: World, w: World, a: Place, b: Place) {
    && HasFile(w0, a) && b !in w0.entries
    && a !in w.entries && b in w.entries && w.entries[b] == w0.entries[a]
  }

  /** The file object is the one at some planned path among `touched`. */
  ghost predicate NamedIn(w0: World, touched: set<Place>, id: nat) {
    exists p :: p in touched && p.Live? && p in w0.entries && w0.entries[p] == File(id)
  }

  /** The file is as it was, or has lost its read-only bit. */
  predicate Veiled(o0: FileObject, o: FileObject) {
    o == o0 || o == Unlocked(o0)
  }

  /** A new file has the volume's other attribute bits; an older one is wholly unchanged, unless it was
      at a planned path among `touched` and has lost its read-only bit. */
  ghost predicate ObjectKept(w0: World, w: World, touched: set<Place>, id: nat) {
    id in w.files ==>
      if id >= w0.nextId then OtherBits(w.files[id]) == w0.newBits
      else id in w0.files && (w.files[id] == w0.files[id] || (NamedIn(w0, touched, id) && Veiled(w0.files[id], w.files[id])))
  }

  /** Every older file is wholly unchanged. */
  ghost predicate OldWhole(w0: World, w: World) {
    forall id :: ObjectKept(w0, w, {}, id)
  }

  /** An older file has gained no name, unless it was at a planned path among `touched`. */
  ghost predicate EntryKept(w0: World, w: World, touched: set<Place>, p: Place) {
    p in w.entries && w.entries[p].File? && w.entries[p].id < w0.nextId ==>
      Same(w0, w, p) || NamedIn(w0, touched, w.entries[p].id)
  }

  ghost predicate Spared(w0: World, w: World, touched: set<Place>) {
    && w.newBits == w0.newBits
    && (forall id :: ObjectKept(w0, w, touched, id))
    && (forall p :: EntryKept(w0, w, touched, p))
  }

  /** No name outside `touched` changed, and no byte of an older file did. */
  ghost predicate Calm(w0: World, w: World, touched: set<Place>) {
    && Sound(w)
    && w0.nextId <= w.nextId
    && (forall p :: p !in touched ==> Same(w0, w, p))
    && (forall id :: id in w.files && id < w0.nextId ==> id in w0.files && w.files[id].bytes == w0.files[id].bytes)
  }

  /** Nothing outside `touched` changed, neither names nor file objects. */
  ghost predicate Steady(w0: World, w: World, touched: set<Place>) {
    Calm(w0, w, touched) && Spared(w0, w, touched)
  }

  // ------------------------------------------------------------------ evidence

  /** The old file of a move is the reviewed one. */
  predicate PriorReviewed(s: Setup, op: Operation, w0: World) {
    && op.prior.Some? && op.priorExpected.Some?
    && Reviewed(w0, s.serial, Live(Fold(op.prior.value)), op.priorExpected.value)
  }

  /** The entry to be deleted is the reviewed one; a directory that is cleaned up may have newer times. */
  predicate DoomedReviewed(s: Setup, op: Operation, w0: World) {
    && op.targetExpected.Some?
    && StatAt(w0, s.serial, TargetPlace(op)).Some?
    && var actual, expected := StatAt(w0, s.serial, TargetPlace(op)).value, op.targetExpected.value;
    if expected.kind == DirectoryEntry && op.reason == DirectoryCleanup
    then MatchesDirectoryCleanup(actual, expected)
    else MatchesExpected(actual, expected)
  }

  /** The file under the old spelling, which has the same key, is the reviewed one. */
  predicate RecaseReviewed(s: Setup, op: Operation, w0: World) {
    && op.prior.Some? && op.priorExpected.Some? && Fold(op.prior.value) == Fold(op.target)
    && Reviewed(w0, s.serial, TargetPlace(op), op.priorExpected.value)
  }

  /** What a plan was reviewed on still holds where the operation begins: the target is as expected,
      the old file of a move is the reviewed one, and so is the source of a copy. */
  predicate Evidenced(s: Setup, op: Operation, w0: World) {
    var target := TargetPlace(op);
    match op.kind
    case Copy => target !in w0.entries && NewContent(s, op).Some?
    case Update => op.targetExpected.Some? && Reviewed(w0, s.serial, target, op.targetExpected.value) && NewContent(s, op).Some?
    case Move => PriorReviewed(s, op, w0) && target !in w0.entries
    case MoveUpdate => PriorReviewed(s, op, w0) && target !in w0.entries && NewContent(s, op).Some?
    case Trash => op.targetExpected.Some? && Reviewed(w0, s.serial, target, op.targetExpected.value)
    case Delete => DoomedReviewed(s, op, w0)
    case Mkdir => target !in w0.entries
    case Noop => op.targetExpected.Some? && Reviewed(w0, s.serial, target, op.targetExpected.value) && NewContent(s, op).Some?
    case Recase => RecaseReviewed(s, op, w0) && NewContent(s, op).Some?
  }

  /** No change without the evidence. */
  predicate Justified(s: Setup, op: Operation, w0: World, w: World) {
    w == w0 || Evidenced(s, op, w0)
  }

  // -------------------------------------------------------- states per operation

  /** The owned temporary: untouched, removed, or holding a prefix of the new content. */
  predicate TempSlot(s: Setup, op: Operation, w0: World, w: World) {
    var temp, content := TempPlace(s, op), NewContent(s, op);
    Same(w0, w, temp) || Gone(w, temp) || (content.Some? && FreshPart(w0, w, temp, content.value))
  }

  predicate Displaces(op: Operation, w0: World) {
    && HasFile(w0, TargetPlace(op))
    && op.targetExpected.Some?
    && |BytesAt(w0, TargetPlace(op))| == op.targetExpected.value.size
  }

  /** The displaced content is safe in this run's trash: the old file itself, or a full copy. */
  predicate BackedUp(s: Setup, op: Operation, w0: World, w: World) {
    var trash, backup := TrashPlace(s, op.target), BackupTempPlace(s, op);
    && s.trashOnUpdate && Displaces(op, w0) && trash !in w0.entries
    && (if s.hardlinks
        then trash in w.entries && w.entries[trash] == w0.entries[TargetPlace(op)] && (Same(w0, w, backup) || Gone(w, backup))
        else FreshWith(w0, w, trash, BytesAt(w0, TargetPlace(op))) && Gone(w, backup))
  }

  predicate BackupSlot(s: Setup, op: Operation, w0: World, w: World) {
    var trash, backup := TrashPlace(s, op.target), BackupTempPlace(s, op);
    || BackedUp(s, op, w0, w)
    || (&& Same(w0, w, trash)
        && (|| Same(w0, w, backup)
            || Gone(w, backup)
            || (s.trashOnUpdate && !s.hardlinks && Displaces(op, w0) && FreshPart(w0, w, backup, BytesAt(w0, TargetPlace(op))))))
  }

  predicate Published(s: Setup, op: Operation, w0: World, w: World) {
    && NewContent(s, op).Some?
    && FreshWith(w0, w, TargetPlace(op), NewContent(s, op).value)
    && Gone(w, TempPlace(s, op))
  }

  /** Replaced files are linked into trash, not copied. */
  predicate LinksBackup(s: Setup) {
    s.trashOnUpdate && s.hardlinks
  }

  /** The file that was at the target has lost its read-only bit, wherever it still has a name. */
  predicate Bared(op: Operation, w0: World, w: World) {
    var target := TargetPlace(op);
    HasFile(w0, target) && w0.entries[target].id in w.files ==> w.files[w0.entries[target].id] == Unlocked(w0.files[w0.entries[target].id])
  }

  predicate Distinct(w0: World, w: World, p: Place, q: Place) {
    Fresh(w0, w, p) && Fresh(w0, w, q) ==> w.entries[p] != w.entries[q]
  }

  /** The prepared file and the copied backup are two files, wherever they are by now. */
  predicate TwoFiles(s: Setup, op: Operation, w0: World, w: World) {
    var target, temp, trash, backup := TargetPlace(op), TempPlace(s, op), TrashPlace(s, op.target), BackupTempPlace(s, op);
    && Distinct(w0, w, target, trash) && Distinct(w0, w, target, backup)
    && Distinct(w0, w, temp, trash) && Distinct(w0, w, temp, backup)
  }

  ghost predicate DuringCopy(s: Setup, op: Operation, w0: World, w: World) {
    var target := TargetPlace(op);
    && Justified(s, op, w0, w)
    && Steady(w0, w, {target, TempPlace(s, op)})
    && (|| (Same(w0, w, target) && TempSlot(s, op, w0, w))
        || (target !in w0.entries && Published(s, op, w0, w)))
  }

  /** The target is never absent and holds the old or the new bytes; new bytes mean that the old
      ones are in trash when the plan asks for it. */
  ghost predicate DuringUpdate(s: Setup, op: Operation, w0: World, w: World) {
    var target := TargetPlace(op);
    && Justified(s, op, w0, w)
    && Steady(w0, w, {target, TempPlace(s, op), TrashPlace(s, op.target), BackupTempPlace(s, op)})
    && BackupSlot(s, op, w0, w) && TwoFiles(s, op, w0, w)
    && (|| (Same(w0, w, target) && TempSlot(s, op, w0, w))
        || (&& HasFile(w0, target) && Published(s, op, w0, w) && (s.trashOnUpdate ==> BackedUp(s, op, w0, w))
            && (LinksBackup(s) || Bared(op, w0, w))))
  }

  ghost predicate DuringRelocation(w0: World, w: World, a: Place, b: Place) {
    && Steady(w0, w, {a, b})
    && (w == w0 || (Relocated(w0, w, a, b) && w.files == w0.files))
  }

  /** The new bytes are in place before the old file leaves its path, and then it is in trash. */
  ghost predicate DuringMoveUpdate(s: Setup, op: Operation, w0: World, w: World)
    requires op.prior.Some?
  {
    var target, prior, trash := TargetPlace(op), Live(Fold(op.prior.value)), TrashPlace(s, op.prior.value);
    && Justified(s, op, w0, w)
    && Steady(w0, w, {target, TempPlace(s, op), prior, trash})
    && OldWhole(w0, w)
    && (|| (Same(w0, w, target) && TempSlot(s, op, w0, w) && Same(w0, w, prior) && Same(w0, w, trash))
        || (&& target !in w0.entries && Published(s, op, w0, w)
            && ((Same(w0, w, prior) && Same(w0, w, trash)) || Relocated(w0, w, prior, trash))))
  }

  /** Only a reviewed file and an empty reviewed directory disappear. */
  ghost predicate DuringDelete(s: Setup, op: Operation, w0: World, w: World) {
    var target := TargetPlace(op);
    && Justified(s, op, w0, w)
    && Steady(w0, w, {target})
    && (|| Same(w0, w, target)
        || (op.targetExpected.Some? && op.targetExpected.value.kind == FileEntry && HasFile(w0, target) && Gone(w, target) && Bared(op, w0, w))
        || (&& op.targetExpected.Some? && op.targetExpected.value.kind == DirectoryEntry
            && target in w0.entries && w0.entries[target].Directory?
            && (if target in w.entries then w.entries[target].Directory? else IsEmptyDirectory(w0, target))))
  }

  ghost predicate DuringMkdir(s: Setup, op: Operation, w0: World, w: World) {
    var target := TargetPlace(op);
    && Justified(s, op, w0, w)
    && Steady(w0, w, {target})
    && (w == w0 || (target in w.entries && w.entries[target].Directory?))
  }

  ghost predicate Unchanged(w0: World, w: World) {
    Sound(w) && w == w0
  }

  /** Every state the volume can be in while `op` is carried out from `w0`. */
  ghost predicate During(s: Setup, op: Operation, w0: World, w: World) {
    match op.kind
    case Copy => DuringCopy(s, op, w0, w)
    case Update => DuringUpdate(s, op, w0, w)
    case Move =>
      && Justified(s, op, w0, w)
      && if op.prior.Some? then DuringRelocation(w0, w, Live(Fold(op.prior.value)), TargetPlace(op)) else Unchanged(w0, w)
    case MoveUpdate => if op.prior.Some? then DuringMoveUpdate(s, op, w0, w) else Unchanged(w0, w)
    case Trash => Justified(s, op, w0, w) && DuringRelocation(w0, w, TargetPlace(op), TrashPlace(s, op.target))
    case Delete => DuringDelete(s, op, w0, w)
    case Mkdir => DuringMkdir(s, op, w0, w)
    case Noop => Unchanged(w0, w)
    case Recase => Unchanged(w0, w)
  }

  /** The file at `p` carries the intended times and standard attributes. */
  predicate Wears(s: Setup, w: World, p: Place, intended: Stat) {
    && HasFile(w, p)
    && var o := w.files[w.entries[p].id];
    && o.mtime == intended.mtime
    && o.metadata.attributes.readonly == intended.metadata.attributes.readonly
    && o.metadata.attributes.hidden == intended.metadata.attributes.hidden
    && o.metadata.attributes.system == intended.metadata.attributes.system
    && (s.preserveCreated && intended.metadata.created.Some? ==> o.metadata.created == intended.metadata.created)
  }

  predicate WearsIntended(s: Setup, op: Operation, w: World) {
    && op.sourceExpected.Some?
    && Wears(s, w, TargetPlace(op), if op.intended.Some? then op.intended.value else op.sourceExpected.value)
  }

  /** What a succeeded operation has brought about. */
  ghost predicate Achieved(s: Setup, op: Operation, w0: World, w: World) {
    var target := TargetPlace(op);
    match op.kind
    case Copy => target !in w0.entries && Published(s, op, w0, w) && WearsIntended(s, op, w)
    case Update =>
      && HasFile(w0, target) && Published(s, op, w0, w) && WearsIntended(s, op, w)
      && (s.trashOnUpdate ==> BackedUp(s, op, w0, w) && Wears(s, w, TrashPlace(s, op.target), op.targetExpected.value))
    case Move => op.prior.Some? && Relocated(w0, w, Live(Fold(op.prior.value)), target)
    case MoveUpdate =>
      && op.prior.Some? && target !in w0.entries && Published(s, op, w0, w) && WearsIntended(s, op, w)
      && Relocated(w0, w, Live(Fold(op.prior.value)), TrashPlace(s, op.prior.value))
    case Trash => Relocated(w0, w, target, TrashPlace(s, op.target))
    case Delete => target in w0.entries && Gone(w, target)
    case Mkdir => target !in w0.entries && target in w.entries && w.entries[target].Directory?
    case Noop => Evidenced(s, op, w)
    case Recase => Evidenced(s, op, w)
  }

  // --------------------------------------------------------------- no content loss

  /** Places whose content counts as kept: planned paths and trash, not owned temporaries. */
  predicate Durable(p: Place) {
    p.Live? || p.Trashed?
  }

  ghost predicate Holds(w: World, content: Bytes) {
    exists p :: Durable(p) && HasFile(w, p) && BytesAt(w, p) == content
  }

  ghost predicate NoLoss(w0: World, w: World) {
    forall p :: Durable(p) && HasFile(w0, p) ==> Holds(w, BytesAt(w0, p))
  }

  predicate RemovesFile(op: Operation) {
    op.kind == Delete && op.targetExpected.Some? && op.targetExpected.value.kind == FileEntry
  }

  predicate Sparing(s: Setup, op: Operation) {
    !RemovesFile(op) && (op.kind == Update ==> s.trashOnUpdate)
  }

  lemma SameKeepsBytes(w0: World, w: World, touched: set<Place>, p: Place, q: Place)
    requires Sound(w0) && Steady(w0, w, touched)
    requires HasFile(w0, p) && q in w.entries && w.entries[q] == w0.entries[p]
    ensures HasFile(w, q) && BytesAt(w, q) == BytesAt(w0, p)
  {
    assert w.entries[q].id < w0.nextId;
  }

  /** One operation that neither deletes a file nor updates without trash loses no content,
      in any state it passes through. */
  lemma OperationLosesNothing(s: Setup, op: Operation, w0: World, w: World)
    requires Sound(w0) && During(s, op, w0, w) && Sparing(s, op)
    ensures NoLoss(w0, w)
  {
    forall p | Durable(p) && HasFile(w0, p)
      ensures Holds(w, BytesAt(w0, p))
    {
      var q := Refuge(s, op, w0, w, p);
      assert Durable(q) && HasFile(w, q) && BytesAt(w, q) == BytesAt(w0, p);
    }
  }

  /** Where the content of a durable place is found in a later state of the operation. */
  lemma Refuge(s: Setup, op: Operation, w0: World, w: World, p: Place) returns (q: Place)
    requires Sound(w0) && During(s, op, w0, w) && Sparing(s, op)
    requires Durable(p) && HasFile(w0, p)
    ensures Durable(q) && HasFile(w, q) && BytesAt(w, q) == BytesAt(w0, p)
  {
    var touched := Touched(s, op);
    DuringIsSteady(s, op, w0, w);
    if Same(w0, w, p) {
      q := p;
      SameKeepsBytes(w0, w, touched, p, q);
    } else {
      assert p in touched;
      match op.kind {
        case Update =>
          q := TrashPlace(s, op.target);
          if s.hardlinks {
            SameKeepsBytes(w0, w, touched, p, q);
          }
        case Move =>
          q := TargetPlace(op);
          SameKeepsBytes(w0, w, touched, p, q);
        case MoveUpdate =>
          q := TrashPlace(s, op.prior.value);
          SameKeepsBytes(w0, w, touched, p, q);
        case Trash =>
          q := TrashPlace(s, op.target);
          SameKeepsBytes(w0, w, touched, p, q);
        case _ =>
          q := p;
          assert false;
      }
    }
  }

  /** An update never leaves its target absent or torn: it holds the old bytes, or the new ones with
      the old ones safe in trash when the plan asks for it. */
  lemma UpdateTargetStaysWhole(s: Setup, op: Operation, w0: World, w: World)
    requires Sound(w0) && op.kind == Update && During(s, op, w0, w) && HasFile(w0, TargetPlace(op))
    ensures HasFile(w, TargetPlace(op))
    ensures || BytesAt(w, TargetPlace(op)) == BytesAt(w0, TargetPlace(op))
            || (&& NewContent(s, op) == Some(BytesAt(w, TargetPlace(op)))
                && (s.trashOnUpdate ==>
                      && HasFile(w, TrashPlace(s, op.target))
                      && BytesAt(w, TrashPlace(s, op.target)) == BytesAt(w0, TargetPlace(op))))
  {
    var target, trash := TargetPlace(op), TrashPlace(s, op.target);
    if Same(w0, w, target) {
      SameKeepsBytes(w0, w, Touched(s, op), target, target);
    } else if s.trashOnUpdate && s.hardlinks {
      SameKeepsBytes(w0, w, Touched(s, op), target, trash);
    }
  }

  /** A succeeded move-update: new bytes at the target, nothing at the old path, old bytes in trash. */
  lemma SucceededMoveUpdate(s: Setup, op: Operation, w0: World, w: World)
    requires Sound(w0) && op.kind == MoveUpdate && During(s, op, w0, w) && Achieved(s, op, w0, w)
    ensures HasFile(w, TargetPlace(op)) && NewContent(s, op) == Some(BytesAt(w, TargetPlace(op)))
    ensures Live(Fold(op.prior.value)) !in w.entries
    ensures HasFile(w, TrashPlace(s, op.prior.value))
    ensures BytesAt(w, TrashPlace(s, op.prior.value)) == BytesAt(w0, Live(Fold(op.prior.value)))
  {
    SameKeepsBytes(w0, w, Touched(s, op), Live(Fold(op.prior.value)), TrashPlace(s, op.prior.value));
  }

  lemma NoLossTransitive(w0: World, w1: World, w2: World)
    requires NoLoss(w0, w1) && NoLoss(w1, w2)
    ensures NoLoss(w0, w2)
  {
    forall p | Durable(p) && HasFile(w0, p)
      ensures Holds(w2, BytesAt(w0, p))
    {
      var q :| Durable(q) && HasFile(w1, q) && BytesAt(w1, q) == BytesAt(w0, p);
    }
  }

  // ------------------------------------------------------------------------ frame

  /** All places an operation may change. */
  function Touched(s: Setup, op: Operation): set<Place> {
    var target := TargetPlace(op);
    match op.kind
    case Copy => {target, TempPlace(s, op)}
    case Update => {target, TempPlace(s, op), TrashPlace(s, op.target), BackupTempPlace(s, op)}
    case Move => if op.prior.Some? then {Live(Fold(op.prior.value)), target} else {}
    case MoveUpdate => if op.prior.Some? then {target, TempPlace(s, op), Live(Fold(op.prior.value)), TrashPlace(s, op.prior.value)} else {}
    case Trash => {target, TrashPlace(s, op.target)}
    case Delete => {target}
    case Mkdir => {target}
    case Noop => {}
    case Recase => {}
  }

  lemma DuringIsSteady(s: Setup, op: Operation, w0: World, w: World)
    requires During(s, op, w0, w)
    ensures Steady(w0, w, Touched(s, op))
  {
  }

  /** A changed volume means that the evidence held when the operation began. */
  lemma DuringIsJustified(s: Setup, op: Operation, w0: World, w: World)
    requires During(s, op, w0, w)
    ensures w == w0 || Evidenced(s, op, w0)
  {
  }

  /** The only planned paths an operation may change are its target and its prior path. */
  lemma TouchedLivePaths(s: Setup, op: Operation, key: Key)
    requires Live(key) in Touched(s, op)
    ensures key == Fold(op.target) || (op.prior.Some? && key == Fold(op.prior.value))
  {
  }

  // --------------------------------------------------------------------- capacity

  /** Bytes of the stored objects with an id below `n`. */
  function Total(files: map<nat, FileObject>, n: nat): nat {
    if n == 0 then 0
    else Total(files, n - 1) + (if n - 1 in files then |files[n - 1].bytes| else 0)
  }

  /** Bytes in use on the volume; an object with several names counts once. */
  function Used(w: World): nat {
    Total(w.files, w.nextId)
  }

  /** Free space an operation may need, as reserved before the run. */
  function Charge(s: Setup, op: Operation): nat {
    if op.blocked.Some? then 0
    else
      (if CopiesContent(op.kind) then op.contentBytes else 0) +
      (if s.trashOnUpdate && !s.hardlinks && (op.kind == Update || op.kind == MoveUpdate)
       then
         if op.targetExpected.Some? then op.targetExpected.value.size
         else if op.priorExpected.Some? then op.priorExpected.value.size
         else 0
       else 0)
  }

  lemma {:induction false} TotalShrinks(files: map<nat, FileObject>, files0: map<nat, FileObject>, n: nat)
    requires forall id :: id in files && id < n ==> id in files0 && files[id].bytes == files0[id].bytes
    ensures Total(files, n) <= Total(files0, n)
  {
    if n > 0 {
      TotalShrinks(files, files0, n - 1);
    }
  }

  lemma {:induction false} TotalWithout(files: map<nat, FileObject>, id: nat, n: nat)
    requires id in files
    ensures Total(files, n) == Total(files - {id}, n) + (if id < n then |files[id].bytes| else 0)
  {
    if n > 0 {
      TotalWithout(files, id, n - 1);
    }
  }

  /** At most two objects were added, `a` and `b`, of bounded sizes. */
  lemma {:induction false} TotalGrows(files: map<nat, FileObject>, lo: nat, hi: nat, a: int, b: int, sizeA: nat, sizeB: nat)
    requires lo <= hi
    requires forall id :: id in files && lo <= id < hi ==> id == a || id == b
    requires a in files && lo <= a < hi ==> |files[a].bytes| <= sizeA
    requires b in files && lo <= b < hi ==> |files[b].bytes| <= sizeB
    ensures Total(files, hi) <= Total(files, lo) + (if lo <= a < hi then sizeA else 0) + (if lo <= b < hi then sizeB else 0)
  {
    if lo < hi {
      TotalGrows(files, lo, hi - 1, a, b, sizeA, sizeB);
    }
  }

  /** The id of the file created at `p` since `w0`, or -1. */
  function FreshId(w0: World, w: World, p: Place): int {
    if Fresh(w0, w, p) then w.entries[p].id else -1
  }

  lemma UsedGrowsBy(w0: World, w: World, touched: set<Place>, a: int, b: int, sizeA: nat, sizeB: nat)
    requires Sound(w0) && Calm(w0, w, touched)
    requires forall p :: p in touched && Fresh(w0, w, p) ==> w.entries[p].id == a || w.entries[p].id == b
    requires a in w.files && a >= w0.nextId ==> |w.files[a].bytes| <= sizeA
    requires b in w.files && b >= w0.nextId ==> |w.files[b].bytes| <= sizeB
    ensures Used(w) <= Used(w0) + (if a >= w0.nextId then sizeA else 0) + (if b >= w0.nextId then sizeB else 0)
  {
    forall id | id in w.files && w0.nextId <= id < w.nextId
      ensures id == a || id == b
    {
      assert id in LinkedIds(w.entries);
      var p :| p in w.entries && w.entries[p].File? && w.entries[p].id == id;
      assert Same(w0, w, p) ==> id in w0.files;
      assert p in touched && Fresh(w0, w, p);
    }
    TotalShrinks(w.files, w0.files, w0.nextId);
    TotalGrows(w.files, w0.nextId, w.nextId, a, b, sizeA, sizeB);
  }

  /** In any state it passes through, an operation has used no more than its charge. */
  lemma OperationStaysWithinCharge(s: Setup, op: Operation, w0: World, w: World)
    requires Sound(w0) && SourceSound(s) && Shaped(op) && op.blocked.None?
    requires During(s, op, w0, w)
    ensures Used(w) <= Used(w0) + Charge(s, op)
  {
    DuringIsSteady(s, op, w0, w);
    if op.kind == Update {
      UpdateStaysWithinCharge(s, op, w0, w);
    } else if op.kind == Copy || (op.kind == MoveUpdate && op.prior.Some?) {
      PublicationStaysWithinCharge(s, op, w0, w);
    } else {
      UsedGrowsBy(w0, w, Touched(s, op), -1, -1, 0, 0);
    }
  }

  lemma PublicationStaysWithinCharge(s: Setup, op: Operation, w0: World, w: World)
    requires Sound(w0) && SourceSound(s) && Shaped(op)
    requires op.kind == Copy || (op.kind == MoveUpdate && op.prior.Some?)
    requires During(s, op, w0, w)
    ensures Used(w) <= Used(w0) + op.contentBytes
  {
    DuringIsSteady(s, op, w0, w);
    var target, temp := TargetPlace(op), TempPlace(s, op);
    var a := if Fresh(w0, w, target) then FreshId(w0, w, target) else FreshId(w0, w, temp);
    PreparedId(s, op, w0, w, a);
    UsedGrowsBy(w0, w, Touched(s, op), a, -1, op.contentBytes, 0);
  }

  lemma UpdateStaysWithinCharge(s: Setup, op: Operation, w0: World, w: World)
    requires Sound(w0) && SourceSound(s) && Shaped(op) && op.kind == Update && op.blocked.None?
    requires During(s, op, w0, w)
    ensures Used(w) <= Used(w0) + Charge(s, op)
  {
    DuringIsSteady(s, op, w0, w);
    var target, temp := TargetPlace(op), TempPlace(s, op);
    var trash, backup := TrashPlace(s, op.target), BackupTempPlace(s, op);
    var a := if Fresh(w0, w, target) then FreshId(w0, w, target) else FreshId(w0, w, temp);
    var b := if Fresh(w0, w, trash) then FreshId(w0, w, trash) else FreshId(w0, w, backup);
    PreparedId(s, op, w0, w, a);
    BackupId(s, op, w0, w, b);
    UsedGrowsBy(w0, w, Touched(s, op), a, b, op.contentBytes, if op.targetExpected.Some? then op.targetExpected.value.size else 0);
  }

  /** The one file an operation prepares, at the temporary name or already published. */
  lemma PreparedId(s: Setup, op: Operation, w0: World, w: World, a: int)
    requires Sound(w0) && SourceSound(s) && Shaped(op) && During(s, op, w0, w)
    requires op.kind in {Copy, Update} || (op.kind == MoveUpdate && op.prior.Some?)
    requires a == if Fresh(w0, w, TargetPlace(op)) then FreshId(w0, w, TargetPlace(op)) else FreshId(w0, w, TempPlace(s, op))
    ensures a in w.files && a >= w0.nextId ==> |w.files[a].bytes| <= op.contentBytes
    ensures Fresh(w0, w, TargetPlace(op)) ==> FreshId(w0, w, TargetPlace(op)) == a
    ensures Fresh(w0, w, TempPlace(s, op)) ==> FreshId(w0, w, TempPlace(s, op)) == a
  {
    var target, temp := TargetPlace(op), TempPlace(s, op);
    if Same(w0, w, target) {
      assert !Fresh(w0, w, target);
    }
  }

  lemma BackupId(s: Setup, op: Operation, w0: World, w: World, b: int)
    requires Sound(w0) && op.kind == Update && During(s, op, w0, w)
    requires b == if Fresh(w0, w, TrashPlace(s, op.target)) then FreshId(w0, w, TrashPlace(s, op.target)) else FreshId(w0, w, BackupTempPlace(s, op))
    ensures b in w.files && b >= w0.nextId ==> op.targetExpected.Some? && |w.files[b].bytes| <= op.targetExpected.value.size
    ensures Fresh(w0, w, TrashPlace(s, op.target)) ==> FreshId(w0, w, TrashPlace(s, op.target)) == b
    ensures Fresh(w0, w, BackupTempPlace(s, op)) ==> FreshId(w0, w, BackupTempPlace(s, op)) == b
    ensures b >= w0.nextId ==> s.trashOnUpdate && !s.hardlinks
  {
    var trash, backup := TrashPlace(s, op.target), BackupTempPlace(s, op);
    if Same(w0, w, trash) {
      assert !Fresh(w0, w, trash);
    }
    if Same(w0, w, backup) {
      assert !Fresh(w0, w, backup);
    }
  }
}
