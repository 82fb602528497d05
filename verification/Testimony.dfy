/** What the ledger says of the two sides after a run's evidence was recorded. */
module Testimony {
  import opened Paths
  import opened Model
  import opened Ledger
  import opened Recorder

  /** The one row of a place is there, in this state and last seen as this. */
  ghost predicate RowSays(db: Db, location: Location, path: Path, presence: Presence, stat: Stat) {
    exists id :: id in db.rows && RowIs(db, id, location, path, presence, stat)
  }

  ghost predicate RowIs(db: Db, id: RowId, location: Location, path: Path, presence: Presence, stat: Stat)
    requires id in db.rows
  {
    && InSlot(db.rows[id], location, Fold(path))
    && db.rows[id].path == path && db.rows[id].presence == presence && db.rows[id].stat == Some(stat)
    && (stat.kind == FileEntry <==> db.rows[id].kind == FileRow)
    && forall other :: other in db.rows && InSlot(db.rows[other], location, Fold(path)) ==> other == id
  }

  ghost predicate RowAttests(db: Db, location: Location, path: Path, a: Attestation) {
    exists id :: id in db.rows && InSlot(db.rows[id], location, Fold(path)) && db.rows[id].attestation == Some(a)
  }

  ghost predicate MissingSince(db: Db, location: Location, path: Path, at: nat) {
    exists id :: id in db.rows && InSlot(db.rows[id], location, Fold(path)) && db.rows[id].missingSince == Some(at)
  }

  lemma OneRow(db: Db, id: RowId, location: Location, path: Path)
    requires Unique(db.rows) && id in db.rows && InSlot(db.rows[id], location, Fold(path))
    ensures forall other :: other in db.rows && InSlot(db.rows[other], location, Fold(path)) ==> other == id
  {
    forall other | other in db.rows && InSlot(db.rows[other], location, Fold(path))
      ensures other == id
    {
      assert SameSlot(db.rows[other], db.rows[id]);
    }
  }

  /** A place that was seen is present as it was seen. */
  lemma SeenSays(db: Db, location: Location, path: Path, stat: Stat, at: nat, token: string)
    requires Valid(db)
    ensures var next, id := Upsert(db, location, path, stat, at, token), UpsertId(db, location, path);
            && Valid(next) && id in next.rows && RowIs(next, id, location, path, Present, stat)
            && next.rows[id].seenAt == at && next.rows[id].token == token
  {
    UpsertKeepsValid(db, location, path, stat, at, token);
    OneRow(Upsert(db, location, path, stat, at, token), UpsertId(db, location, path), location, path);
  }

  /** Seeing a row keeps what was attested of it, undates it, and notes when a missing one has come back. */
  lemma SeenAgain(db: Db, location: Location, path: Path, stat: Stat, at: nat, token: string, id: RowId)
    requires Valid(db) && id in db.rows && InSlot(db.rows[id], location, Fold(path))
    ensures var next, row := Upsert(db, location, path, stat, at, token), db.rows[id];
            && id in next.rows && next.rows[id].attestation == row.attestation && next.rows[id].verifiedAt == row.verifiedAt
            && next.rows[id].missingSince.None?
            && next.rows[id].reappearedAt == (if row.presence == Missing then Some(at) else row.reappearedAt)
  {
    OwnSlot(db, location, path, id);
  }

  /** A place that was seen stays as it was seen when another one is. */
  lemma SeenStays(db: Db, location: Location, path: Path, stat: Stat, at: nat, token: string, id: RowId)
    requires Valid(db) && id in db.rows && !InSlot(db.rows[id], location, Fold(path))
    ensures var next := Upsert(db, location, path, stat, at, token); id in next.rows && next.rows[id] == db.rows[id]
  {
    var found := Find(db.rows, location, Fold(path));
    var row := Seen(RowAt(db, found), location, path, stat, at, token);
    StoresElsewhere(db, found, row, id);
  }

  lemma StoresElsewhere(db: Db, found: Option<RowId>, row: Row, id: RowId)
    requires Numbered(db) && id in db.rows && found != Some(id)
    ensures id in Stored(db, found, row).rows && Stored(db, found, row).rows[id] == db.rows[id]
  {
  }

  // ------------------------------------------------------------------- removed entries

  /** What was trashed or deleted is missing since then, last seen as reviewed; it is refused exactly when
      it is not what was reviewed. */
  lemma AbsentSays(db: Db, run: RunContext, op: Operation, prior: Stat, at: nat)
    requires Valid(db)
    ensures var r := RecordAbsent(db, run, op, prior, at);
            && (r.Rollback? <==> op.targetExpected.Some? && op.targetExpected.value != prior)
            && (r.Commit? ==> RowSays(r.db, run.target, op.target, Missing, prior) && MissingSince(r.db, run.target, op.target, at))
  {
    var r := RecordAbsent(db, run, op, prior, at);
    if r.Commit? {
      SeenSays(db, run.target, op.target, prior, at, run.token);
      var id := UpsertId(db, run.target, op.target);
      OneRow(r.db, id, run.target, op.target);
      assert RowIs(r.db, id, run.target, op.target, Missing, prior);
    }
  }

  // ---------------------------------------------------------------------- paired entries

  lemma JoinKeepsRows(db: Db, run: RunContext, op: Operation, s: RowId, t: RowId, target: Stat, attestation: Option<Attestation>)
    requires Valid(db) && t in db.rows && op.sourceExpected.Some?
    ensures var r := Join(db, run, op, s, t, target, attestation);
            r.Commit? ==>
              && r.db.rows == db.rows[t := if attestation.Some? then db.rows[t].(attestation := attestation) else db.rows[t]]
  {
  }

  lemma JoinSays(db: Db, run: RunContext, op: Operation, s: RowId, t: RowId, path: Path, target: Stat, attestation: Option<Attestation>)
    requires Valid(db) && t in db.rows && op.sourceExpected.Some? && RowIs(db, t, run.target, path, Present, target)
    ensures var r := Join(db, run, op, s, t, target, attestation);
            r.Commit? ==>
              && RowSays(r.db, run.target, path, Present, target)
              && (attestation.Some? ==> RowAttests(r.db, run.target, path, attestation.value))
  {
    var r := Join(db, run, op, s, t, target, attestation);
    if r.Commit? {
      JoinKeepsRows(db, run, op, s, t, target, attestation);
      OneRow(r.db, t, run.target, path);
      assert RowIs(r.db, t, run.target, path, Present, target);
    }
  }

  lemma JoinKeepsOther(db: Db, run: RunContext, op: Operation, s: RowId, t: RowId, target: Stat, attestation: Option<Attestation>,
                       location: Location, path: Path, id: RowId, stat: Stat)
    requires Valid(db) && t in db.rows && op.sourceExpected.Some? && id in db.rows && id != t && RowIs(db, id, location, path, Present, stat)
    ensures var r := Join(db, run, op, s, t, target, attestation); r.Commit? ==> RowSays(r.db, location, path, Present, stat)
  {
    var r := Join(db, run, op, s, t, target, attestation);
    if r.Commit? {
      JoinKeepsRows(db, run, op, s, t, target, attestation);
      OneRow(r.db, id, location, path);
      assert RowIs(r.db, id, location, path, Present, stat);
    }
  }

  /** Both sides of a copied, updated or unchanged file are present as they were seen, and the target carries
      the attestation if there is one. */
  lemma PairSays(db: Db, run: RunContext, op: Operation, target: Stat, attestation: Option<Attestation>, at: nat)
    requires Valid(db) && op.source.Some? && op.sourceExpected.Some?
    ensures var r := PairUp(db, run, op, target, attestation, at);
            r.Commit? ==>
              && RowSays(r.db, run.target, op.target, Present, target)
              && (attestation.Some? ==> RowAttests(r.db, run.target, op.target, attestation.value))
              && (run.source != run.target ==> RowSays(r.db, run.source, op.source.value, Present, op.sourceExpected.value))
  {
    SeenSays(db, run.source, op.source.value, op.sourceExpected.value, at, run.token);
    var sourced, s := Upsert(db, run.source, op.source.value, op.sourceExpected.value, at, run.token), UpsertId(db, run.source, op.source.value);
    SeenSays(sourced, run.target, op.target, target, at, run.token);
    var seen, t := Upsert(sourced, run.target, op.target, target, at, run.token), UpsertId(sourced, run.target, op.target);
    JoinSays(seen, run, op, s, t, op.target, target, attestation);
    if run.source != run.target {
      SeenStays(sourced, run.target, op.target, target, at, run.token, s);
      OneRow(seen, s, run.source, op.source.value);
      JoinKeepsOther(seen, run, op, s, t, target, attestation, run.source, op.source.value, s, op.sourceExpected.value);
    }
  }

  // ----------------------------------------------------------------------- moved entries

  lemma MovedRowIs(db: Db, next: Db, run: RunContext, op: Operation, target: Stat, at: nat)
    requires Valid(db) && MoveRow(db, run, op, target, at).Commit? && next == MoveRow(db, run, op, target, at).db
    ensures var id := MoveRow(db, run, op, target, at).value; id in next.rows && RowIs(next, id, run.target, op.target, Present, target)
  {
    MoveRowMoves(db, run, op, target, at);
    OneRow(next, MoveRow(db, run, op, target, at).value, run.target, op.target);
  }

  /** A moved entry is present at its new path as it was found there, and nothing is left at the old one. */
  lemma MoveSays(db: Db, run: RunContext, op: Operation, target: Stat, attestation: Option<Attestation>, at: nat)
    requires Valid(db)
    ensures var r := RecordMove(db, run, op, target, attestation, at);
            r.Commit? ==>
              && RowSays(r.db, run.target, op.target, Present, target)
              && (attestation.Some? ==> attestation.value.copyAttested && attestation.value.subject == target
                                        && RowAttests(r.db, run.target, op.target, attestation.value))
              && (Fold(PriorPath(op)) != Fold(op.target) ==> forall id :: id in r.db.rows ==> !InSlot(r.db.rows[id], run.target, Fold(PriorPath(op))))
  {
    var r := RecordMove(db, run, op, target, attestation, at);
    if r.Commit? {
      UpsertKeepsValid(db, run.source, op.source.value, op.sourceExpected.value, at, run.token);
      var sourced := Upsert(db, run.source, op.source.value, op.sourceExpected.value, at, run.token);
      var moved := MoveRow(sourced, run, op, target, at);
      MoveRowMoves(sourced, run, op, target, at);
      MovedRowIs(sourced, moved.db, run, op, target, at);
      var s := UpsertId(db, run.source, op.source.value);
      JoinSays(moved.db, run, op, s, moved.value, op.target, target, attestation);
      JoinKeepsRows(moved.db, run, op, s, moved.value, target, attestation);
    }
  }

  // ------------------------------------------------------------------------ all evidence

  /** A copy's evidence is complete: attested by the copy itself, of the reviewed size, and as intended. */
  predicate CopyIsProven(op: Operation, a: Attestation) {
    && op.source.Some? && op.sourceExpected.Some?
    && a.copyAttested && a.size == a.subject.size == op.sourceExpected.value.size && a.subject.kind == FileEntry
    && IsIntended(op, a.subject)
  }

  predicate IsIntended(op: Operation, actual: Stat) {
    op.intended.None? || (actual.kind, actual.size, actual.mtime) == (op.intended.value.kind, op.intended.value.size, op.intended.value.mtime)
  }

  /** What recording a piece of evidence proves and leaves behind. */
  ghost predicate Says(db: Db, run: RunContext, op: Operation, e: Evidence, at: nat) {
    match e
    case Copied(a) => CopyIsProven(op, a) && RowSays(db, run.target, op.target, Present, a.subject) && RowAttests(db, run.target, op.target, a)
    case Updated(a) => CopyIsProven(op, a) && RowSays(db, run.target, op.target, Present, a.subject) && RowAttests(db, run.target, op.target, a)
    case MovedTo(t) => IsIntended(op, t) && RowSays(db, run.target, op.target, Present, t)
    case RecasedTo(t) => IsIntended(op, t) && RowSays(db, run.target, op.target, Present, t)
    case MoveUpdated(a) =>
      && IsIntended(op, a.subject) && a.copyAttested
      && RowSays(db, run.target, op.target, Present, a.subject) && RowAttests(db, run.target, op.target, a)
    case MadeDirectory(t) => t.kind == DirectoryEntry && RowSays(db, run.target, op.target, Present, t)
    case TrashedFrom(t) => RowSays(db, run.target, op.target, Missing, t) && MissingSince(db, run.target, op.target, at)
    case DeletedFrom(t) => RowSays(db, run.target, op.target, Missing, t) && MissingSince(db, run.target, op.target, at)
    case Unchanged(s, t) => op.sourceExpected == Some(s) && op.targetExpected == Some(t) && RowSays(db, run.target, op.target, Present, t)
  }

  lemma AppliedSays(db: Db, run: RunContext, op: Operation, e: Evidence, at: nat)
    requires Valid(db)
    ensures var r := ApplyEvidence(db, run, op, e, at); r.Commit? ==> Says(r.db, run, op, e, at)
  {
    match e
    case Copied(a) =>
      if CopyEvidence(op, a) {
        PairSays(db, run, op, a.subject, Some(a), at);
      }
    case Updated(a) =>
      if CopyEvidence(op, a) {
        PairSays(db, run, op, a.subject, Some(a), at);
      }
    case MovedTo(t) => MoveSays(db, run, op, t, None, at);
    case RecasedTo(t) => MoveSays(db, run, op, t, None, at);
    case MoveUpdated(a) => MoveSays(db, run, op, a.subject, Some(a), at);
    case MadeDirectory(t) => SeenSays(db, run.target, op.target, t, at, run.token);
    case TrashedFrom(t) => AbsentSays(db, run, op, t, at);
    case DeletedFrom(t) => AbsentSays(db, run, op, t, at);
    case Unchanged(s, t) =>
      if op.source.Some? && op.sourceExpected == Some(s) && op.targetExpected == Some(t) {
        PairSays(db, run, op, t, None, at);
      }
  }

  /** The evidence of a selected operation that is recorded for the first time: it is of the operation's own
      kind, and the ledger says what it shows of the target. */
  lemma EvidenceIsSaid(db: Db, run: RunContext, id: OpId, e: Evidence, at: nat, payload: Digest)
    requires Valid(db) && (run.token, id) !in db.operations
    ensures var r := RecordOperation(db, run, id, e, at, payload);
            r.Commit? ==>
              && id in run.selection && id in run.operations && run.operations[id].kind == EvidenceKind(e)
              && Says(r.db, run, run.operations[id], e, at) && (run.token, id) in r.db.operations
  {
    var r := RecordOperation(db, run, id, e, at, payload);
    if r.Commit? {
      AppliedSays(db, run, run.operations[id], e, at);
      SaidByRows(ApplyEvidence(db, run, run.operations[id], e, at).db, r.db, run, run.operations[id], e, at);
    }
  }

  lemma SaidByRows(a: Db, b: Db, run: RunContext, op: Operation, e: Evidence, at: nat)
    requires Says(a, run, op, e, at) && a.rows == b.rows
    ensures Says(b, run, op, e, at)
  {
    forall location, path, presence, stat | RowSays(a, location, path, presence, stat)
      ensures RowSays(b, location, path, presence, stat)
    {
      var id :| id in a.rows && RowIs(a, id, location, path, presence, stat);
      assert RowIs(b, id, location, path, presence, stat);
    }
  }

  // --------------------------------------------------------------------------- integrity

  /** The row an integrity result was computed for is still that row: at its place, present, of the same scan,
      with the stat and the baseline that were read. */
  ghost predicate StillThatRow(db: Db, c: Integrity) {
    && c.row in db.rows && db.rows[c.row].location == c.location && Fold(db.rows[c.row].path) == c.key
    && db.rows[c.row].presence == Present && db.rows[c.row].token == c.token
    && db.rows[c.row].stat == Some(c.expected) && db.rows[c.row].attestation == c.baseline
  }

  /** What was attested is the file that the row stands for. */
  predicate OfThatFile(c: Integrity) {
    var a, e := c.attestation.subject, c.expected;
    (a.kind, a.size, a.mtime, a.identity) == (e.kind, e.size, e.mtime, e.identity)
  }

  /** An integrity result is stale exactly when the row is no longer that row, refused exactly when it is but the
      attested file is another; otherwise the row carries the attestation, a verification dates it, and a
      reappearance is cleared when asked. */
  lemma IntegritySays(db: Db, c: Integrity)
    requires Valid(db)
    ensures var r := ApplyIntegrity(db, c);
            && (r.Rollback? <==> StillThatRow(db, c) && !OfThatFile(c))
            && (r.Commit? ==> (r.value == Stale <==> !StillThatRow(db, c)))
            && (r.Commit? && r.value != Stale ==>
                  && c.row in r.db.rows && r.db.rows[c.row].attestation == Some(c.attestation)
                  && r.db.rows[c.row].verifiedAt == (if c.verifies then Some(c.attestation.at) else db.rows[c.row].verifiedAt)
                  && r.db.rows[c.row].reappearedAt == (if c.clearsReappeared then None else db.rows[c.row].reappearedAt))
  {
  }

  // ------------------------------------------------------------------- unobserved entries

  lemma {:induction false} SeenAllLeaves(db: Db, c: Inventory, seen: seq<Observation>, id: RowId)
    requires Valid(db) && id in db.rows && forall o :: o in seen ==> !InSlot(db.rows[id], c.location, Fold(o.path))
    ensures id in SeenAll(db, c, seen).rows && SeenAll(db, c, seen).rows[id] == db.rows[id]
  {
    if seen != [] {
      var n := |seen| - 1;
      SeenAllLeaves(db, c, seen[..n], id);
      SeenStays(SeenAll(db, c, seen[..n]), c.location, seen[n].path, seen[n].stat, c.at, c.token, id);
    }
  }

  lemma {:induction false} UnsupportedAllLeaves(db: Db, c: Inventory, paths: seq<Path>, id: RowId)
    requires Valid(db) && id in db.rows && forall p :: p in paths ==> !InSlot(db.rows[id], c.location, Fold(p))
    ensures id in UnsupportedAll(db, c, paths).rows && UnsupportedAll(db, c, paths).rows[id] == db.rows[id]
  {
    if paths != [] {
      var n := |paths| - 1;
      UnsupportedAllLeaves(db, c, paths[..n], id);
      var front := UnsupportedAll(db, c, paths[..n]);
      var found := Find(front.rows, c.location, Fold(paths[n]));
      StoresElsewhere(front, found, SeenUnsupported(RowAt(front, found), c.location, paths[n], c.at, c.token), id);
    }
  }

  /** A scan covers a row that it would have observed: all rows if it is full, and present ones that were
      selected otherwise. */
  predicate Covers(c: Inventory, row: Row) {
    row.location == c.location && (if c.full then row.presence != Missing else row.presence == Present && exists p :: p in c.selected && Fold(p) == Fold(row.path))
  }

  /** A row that a scan did not observe becomes missing exactly when the scan is complete and covers it, and is
      dated then; otherwise it stays as it was.  An incomplete scan makes nothing missing. */
  lemma MissingExactly(db: Db, c: Inventory, id: RowId)
    requires Valid(db) && Reconciled(db, c).Commit? && id in db.rows
    requires db.rows[id].location == c.location ==>
               (forall o :: o in c.seen && o.path != [] ==> Fold(o.path) != Fold(db.rows[id].path))
               && (forall p :: p in c.unsupported ==> Fold(p) != Fold(db.rows[id].path))
    ensures var next, row := Reconciled(db, c).db, db.rows[id];
            && id in next.rows
            && (if c.complete && Covers(c, row)
                then next.rows[id] == row.(presence := Missing, missingSince := next.rows[id].missingSince, token := c.token)
                     && next.rows[id].missingSince == (if row.missingSince.Some? then row.missingSince else Some(c.at))
                else next.rows[id] == row)
  {
    var mid := SeenAll(db, c, Recorded(c));
    SeenAllLeaves(db, c, Recorded(c), id);
    UnsupportedAllLeaves(mid, c, c.unsupported, id);
    if c.complete {
      CoveredIsVanished(c, db.rows[id]);
    }
  }

  lemma CoveredIsVanished(c: Inventory, row: Row)
    requires row.location == c.location ==>
               (forall o :: o in c.seen && o.path != [] ==> Fold(o.path) != Fold(row.path))
               && (forall p :: p in c.unsupported ==> Fold(p) != Fold(row.path))
    ensures Covers(c, row) <==> row.location == c.location && Vanished(c, row)
  {
  }

  // -------------------------------------------------------------------- commands and receipts

  /** A scan of a location that is offline changes nothing; a repeated one is answered from its receipt, and one
      that reuses a command with another payload is refused.  A new one is refused exactly when it is of another
      volume or, for a complete full scan, observes a key twice. */
  lemma InventoryExactly(db: Db, c: Inventory)
    requires Valid(db)
    ensures var r, key := RecordInventory(db, c), InventoryKey(c);
            if !c.online then r == Commit(db, Disposition.Noop)
            else if key in db.receipts then
              if db.receipts[key].payload == c.payload then r.Commit? && r.db == db && r.value != Applied
              else r.Rollback?
            else
              && (r.Rollback? <==> c.location !in db.volumes || db.volumes[c.location] != c.volume || (c.complete && c.full && !DistinctKeys(c)))
              && (r.Commit? ==> r.value == Applied && key in r.db.receipts && r.db.receipts[key].payload == c.payload && r.db.rows == Reconciled(db, c).db.rows)
  {
  }

  /** Evidence is refused for what was not selected or is of another kind, and for a repetition with another
      payload; the same payload again changes nothing. */
  lemma RepetitionExactly(db: Db, run: RunContext, id: OpId, e: Evidence, at: nat, payload: Digest)
    requires Valid(db)
    ensures var r := RecordOperation(db, run, id, e, at, payload);
            && (id !in run.selection || id !in run.operations || run.operations[id].kind != EvidenceKind(e) ==> r.Rollback?)
            && ((run.token, id) in db.operations && db.operations[(run.token, id)] != payload ==> r.Rollback?)
            && (r.Commit? && (run.token, id) in db.operations ==> r.db == db)
  {
  }
}
