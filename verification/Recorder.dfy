/** Recording commands: run evidence, scans and integrity results, each one transaction. */
module Recorder {
  import opened Paths
  import opened Model
  import opened Ledger

  /** A run as the ledger knows it. */
  datatype RunContext = RunContext(token: string, mapping: MappingId, source: Location, target: Location,
                                   operations: map<OpId, Operation>, selection: set<OpId>)

  datatype Evidence =
    | Copied(attestation: Attestation) | Updated(attestation: Attestation)
    | MovedTo(target: Stat) | RecasedTo(target: Stat) | MoveUpdated(attestation: Attestation)
    | MadeDirectory(target: Stat) | TrashedFrom(target: Stat) | DeletedFrom(target: Stat)
    | Unchanged(source: Stat, target: Stat)

  function EvidenceKind(e: Evidence): OperationKind {
    match e
    case Copied(_) => Copy
    case Updated(_) => Update
    case MovedTo(_) => Move
    case RecasedTo(_) => Recase
    case MoveUpdated(_) => MoveUpdate
    case MadeDirectory(_) => Mkdir
    case TrashedFrom(_) => Trash
    case DeletedFrom(_) => Delete
    case Unchanged(_, _) => OperationKind.Noop
  }

  predicate MatchesIntended(op: Operation, actual: Stat) {
    op.intended.Some? ==>
      actual.kind == op.intended.value.kind && actual.size == op.intended.value.size && actual.mtime == op.intended.value.mtime
  }

  // ------------------------------------------------------------------------ run evidence

  function Attested(db: Db, id: RowId, a: Attestation): Db
    requires id in db.rows
  {
    db.(rows := db.rows[id := db.rows[id].(attestation := Some(a))])
  }

  /** Both sides seen, the target attested if there is an attestation, and the two rows paired. */
  function PairUp(db: Db, run: RunContext, op: Operation, target: Stat, attestation: Option<Attestation>, at: nat): (r: Transaction<()>)
    requires Valid(db) && op.source.Some? && op.sourceExpected.Some?
    ensures r.Commit? ==> Valid(r.db)
  {
    UpsertKeepsValid(db, run.source, op.source.value, op.sourceExpected.value, at, run.token);
    var sourced := Upsert(db, run.source, op.source.value, op.sourceExpected.value, at, run.token);
    UpsertKeepsValid(sourced, run.target, op.target, target, at, run.token);
    var seen := Upsert(sourced, run.target, op.target, target, at, run.token);
    var t := UpsertId(sourced, run.target, op.target);
    Join(seen, run, op, UpsertId(db, run.source, op.source.value), t, target, attestation)
  }

  /** Attest a target row and pair it with its source row. */
  function Join(db: Db, run: RunContext, op: Operation, s: RowId, t: RowId, target: Stat, attestation: Option<Attestation>): (r: Transaction<()>)
    requires Valid(db) && t in db.rows && op.sourceExpected.Some?
    ensures r.Commit? ==> Valid(r.db)
  {
    var attested := if attestation.Some? then Attested(db, t, attestation.value) else db;
    assert Valid(attested) by {
      if attestation.Some? {
        ChangedKeepsValid(db, t, db.rows[t].(attestation := attestation));
      }
    }
    PairedKeepsValid(attested, run.mapping, s, t, op.sourceExpected.value, target);
    Paired(attested, run.mapping, s, t, op.sourceExpected.value, target)
  }

  predicate CopyEvidence(op: Operation, a: Attestation) {
    && op.source.Some? && op.sourceExpected.Some? && a.copyAttested
    && a.size == a.subject.size && a.size == op.sourceExpected.value.size && a.subject.kind == FileEntry
    && MatchesIntended(op, a.subject)
  }

  /** The row of a moved entry: the prior path's row takes the new path, unless something still
      present is in the way; a missing row in the way is dropped. */
  function MoveRow(db: Db, run: RunContext, op: Operation, target: Stat, at: nat): (r: Transaction<RowId>)
    requires Valid(db)
    ensures r.Commit? ==> Valid(r.db) && r.value in r.db.rows
  {
    var collision := Find(db.rows, run.target, Fold(op.target));
    var origin := Find(db.rows, run.target, Fold(PriorPath(op)));
    var clashes := collision.Some? && (origin.None? || collision.value != origin.value);
    if clashes && db.rows[collision.value].presence != Missing then Rollback
    else if origin.Some? && op.priorExpected.Some? && db.rows[origin.value].stat != op.priorExpected then Rollback
    else
      var cleared := if clashes then Deleted(db, collision.value) else db;
      assert Valid(cleared) by {
        if clashes {
          DeletedKeepsValid(db, collision.value);
        }
      }
      OnlyCollision(db, run, op, cleared, collision, origin);
      TakePath(cleared, run, op, target, at, origin)
  }

  /** A row is in the way of a move: not the moving one, and still there. */
  predicate Obstructed(db: Db, run: RunContext, op: Operation)
    requires Valid(db)
  {
    var collision, origin := Find(db.rows, run.target, Fold(op.target)), Find(db.rows, run.target, Fold(PriorPath(op)));
    collision.Some? && (origin.None? || collision.value != origin.value) && db.rows[collision.value].presence != Missing
  }

  function PriorPath(op: Operation): Path {
    if op.prior.Some? then op.prior.value else op.target
  }

  /** The row was moved: it alone is at the new path, seen there, with what it had attested. */
  ghost predicate RowMoved(db: Db, next: Db, run: RunContext, op: Operation, target: Stat, id: RowId)
    requires Valid(db)
  {
    var origin := Find(db.rows, run.target, Fold(PriorPath(op)));
    && id in next.rows && InSlot(next.rows[id], run.target, Fold(op.target)) && next.rows[id].path == op.target
    && next.rows[id].presence == Present && next.rows[id].stat == Some(target) && next.rows[id].missingSince.None?
    && next.rows[id].kind == KindOf(target)
    && (forall other :: other in next.rows && other != id ==> !InSlot(next.rows[other], run.target, Fold(op.target)))
    && (origin.Some? ==> id == origin.value && next.rows[id].attestation == db.rows[id].attestation && next.rows[id].verifiedAt == db.rows[id].verifiedAt)
    && (Fold(PriorPath(op)) != Fold(op.target) ==> forall other :: other in next.rows ==> !InSlot(next.rows[other], run.target, Fold(PriorPath(op))))
    && (forall other :: other in next.rows && other != id ==> other in db.rows && next.rows[other] == db.rows[other])
  }

  /** A move is refused exactly when something present is in the way or the row at the prior path is not as
      expected; otherwise the prior path's row takes the new path, and a missing row there is dropped. */
  lemma MoveRowMoves(db: Db, run: RunContext, op: Operation, target: Stat, at: nat)
    requires Valid(db)
    ensures var r := MoveRow(db, run, op, target, at);
            var origin := Find(db.rows, run.target, Fold(PriorPath(op)));
            && (r.Rollback? <==> Obstructed(db, run, op) || (origin.Some? && op.priorExpected.Some? && db.rows[origin.value].stat != op.priorExpected))
            && (r.Commit? ==> RowMoved(db, r.db, run, op, target, r.value))
  {
    if MoveRow(db, run, op, target, at).Commit? {
      var collision := Find(db.rows, run.target, Fold(op.target));
      var origin := Find(db.rows, run.target, Fold(PriorPath(op)));
      OneAt(db, run, op.target);
      OneAt(db, run, PriorPath(op));
      var clashes := collision.Some? && (origin.None? || collision.value != origin.value);
      var cleared := if clashes then Deleted(db, collision.value) else db;
      if clashes {
        DeletedKeepsValid(db, collision.value);
      }
      OnlyCollision(db, run, op, cleared, collision, origin);
      PathTaken(db, cleared, run, op, target, at, origin);
    }
  }

  lemma OneAt(db: Db, run: RunContext, path: Path)
    requires Valid(db)
    ensures forall id :: id in db.rows && InSlot(db.rows[id], run.target, Fold(path)) ==> Find(db.rows, run.target, Fold(path)) == Some(id)
  {
    forall id | id in db.rows && InSlot(db.rows[id], run.target, Fold(path))
      ensures Find(db.rows, run.target, Fold(path)) == Some(id)
    {
      OwnSlot(db, run.target, path, id);
    }
  }

  lemma PathTaken(db: Db, cleared: Db, run: RunContext, op: Operation, target: Stat, at: nat, origin: Option<RowId>)
    requires Valid(db) && Valid(cleared) && origin == Find(db.rows, run.target, Fold(PriorPath(op)))
    requires forall id :: id in cleared.rows ==> id in db.rows && cleared.rows[id] == db.rows[id]
    requires origin.Some? ==> origin.value in cleared.rows
    requires forall id :: id in cleared.rows && Some(id) != origin ==> !InSlot(cleared.rows[id], run.target, Fold(op.target))
    requires forall id :: id in cleared.rows && Some(id) != origin ==> !InSlot(cleared.rows[id], run.target, Fold(PriorPath(op)))
    ensures var r := TakePath(cleared, run, op, target, at, origin); r.Commit? && RowMoved(db, r.db, run, op, target, r.value)
  {
  }

  /** Once a row in the way is gone, only the moving row itself can be at the new path. */
  lemma OnlyCollision(db: Db, run: RunContext, op: Operation, cleared: Db, collision: Option<RowId>, origin: Option<RowId>)
    requires Valid(db) && collision == Find(db.rows, run.target, Fold(op.target)) && (origin.Some? ==> origin.value in db.rows)
    requires cleared == if collision.Some? && (origin.None? || collision.value != origin.value) then Deleted(db, collision.value) else db
    ensures origin.Some? ==> origin.value in cleared.rows
    ensures origin.Some? ==> forall id :: id in cleared.rows && id != origin.value ==> !InSlot(cleared.rows[id], run.target, Fold(op.target))
  {
    forall id | id in db.rows && InSlot(db.rows[id], run.target, Fold(op.target))
      ensures collision == Some(id)
    {
      OwnSlot(db, run.target, op.target, id);
    }
  }

  /** The given row takes the target path, or a row is made for it. */
  function TakePath(db: Db, run: RunContext, op: Operation, target: Stat, at: nat, origin: Option<RowId>): (r: Transaction<RowId>)
    requires Valid(db) && (origin.Some? ==> origin.value in db.rows && db.rows[origin.value].location == run.target)
    requires origin.Some? ==> forall id :: id in db.rows && id != origin.value ==> !InSlot(db.rows[id], run.target, Fold(op.target))
    ensures r.Commit? ==> Valid(r.db) && r.value in r.db.rows
  {
    if origin.None? then
      UpsertKeepsValid(db, run.target, op.target, target, at, run.token);
      Commit(Upsert(db, run.target, op.target, target, at, run.token), UpsertId(db, run.target, op.target))
    else
      var moved := db.rows[origin.value].(path := op.target, kind := KindOf(target), presence := Present, stat := Some(target), seenAt := at,
                                          token := run.token, missingSince := None, reappearedAt := None);
      RepathedKeepsValid(db, origin.value, moved);
      Commit(db.(rows := db.rows[origin.value := moved]), origin.value)
  }

  /** A row may take another path of its location that no row has. */
  lemma RepathedKeepsValid(db: Db, id: RowId, row: Row)
    requires Valid(db) && id in db.rows && row.location == db.rows[id].location && Dated(row)
    requires forall other :: other in db.rows && other != id ==> !InSlot(db.rows[other], row.location, Fold(row.path))
    ensures Valid(db.(rows := db.rows[id := row]))
  {
    var next := db.(rows := db.rows[id := row]);
    forall a, b | a in next.rows && b in next.rows && SameSlot(next.rows[a], next.rows[b])
      ensures a == b
    {
      if a != id && b != id {
        assert SameSlot(db.rows[a], db.rows[b]);
      }
    }
    forall k | k in next.links
      ensures Placed(next, k.0, k.1, next.links[k].target)
    {
      assert Placed(db, k.0, k.1, db.links[k].target);
    }
  }

  function RecordMove(db: Db, run: RunContext, op: Operation, target: Stat, attestation: Option<Attestation>, at: nat): (r: Transaction<()>)
    requires Valid(db)
    ensures r.Commit? ==> Valid(r.db)
  {
    if op.source.None? || op.sourceExpected.None? || !MatchesIntended(op, target) then Rollback
    else
      UpsertKeepsValid(db, run.source, op.source.value, op.sourceExpected.value, at, run.token);
      var sourced := Upsert(db, run.source, op.source.value, op.sourceExpected.value, at, run.token);
      var moved := MoveRow(sourced, run, op, target, at);
      if moved.Rollback? || (attestation.Some? && (!attestation.value.copyAttested || attestation.value.subject != target)) then Rollback
      else Join(moved.db, run, op, UpsertId(db, run.source, op.source.value), moved.value, target, attestation)
  }

  function RecordAbsent(db: Db, run: RunContext, op: Operation, prior: Stat, at: nat): (r: Transaction<()>)
    requires Valid(db)
    ensures r.Commit? ==> Valid(r.db)
  {
    if op.targetExpected.Some? && op.targetExpected != Some(prior) then Rollback
    else
      UpsertKeepsValid(db, run.target, op.target, prior, at, run.token);
      var seen := Upsert(db, run.target, op.target, prior, at, run.token);
      var id := UpsertId(db, run.target, op.target);
      var row := seen.rows[id].(presence := Missing, missingSince := Some(at), token := run.token);
      ChangedKeepsValid(seen, id, row);
      Commit(seen.(rows := seen.rows[id := row]), ())
  }

  function ApplyEvidence(db: Db, run: RunContext, op: Operation, e: Evidence, at: nat): (r: Transaction<()>)
    requires Valid(db)
    ensures r.Commit? ==> Valid(r.db)
  {
    match e
    case Copied(a) => if CopyEvidence(op, a) then PairUp(db, run, op, a.subject, Some(a), at) else Rollback
    case Updated(a) => if CopyEvidence(op, a) then PairUp(db, run, op, a.subject, Some(a), at) else Rollback
    case MovedTo(target) => RecordMove(db, run, op, target, None, at)
    case RecasedTo(target) => RecordMove(db, run, op, target, None, at)
    case MoveUpdated(a) => RecordMove(db, run, op, a.subject, Some(a), at)
    case MadeDirectory(target) =>
      if target.kind != DirectoryEntry then Rollback
      else
        UpsertKeepsValid(db, run.target, op.target, target, at, run.token);
        Commit(Upsert(db, run.target, op.target, target, at, run.token), ())
    case TrashedFrom(target) => RecordAbsent(db, run, op, target, at)
    case DeletedFrom(target) => RecordAbsent(db, run, op, target, at)
    case Unchanged(source, target) =>
      if op.source.None? || op.sourceExpected != Some(source) || op.targetExpected != Some(target) then Rollback
      else PairUp(db, run, op, target, None, at)
  }

  function RecordOperation(db: Db, run: RunContext, id: OpId, e: Evidence, at: nat, payload: Digest): (r: Transaction<()>)
    requires Valid(db)
    ensures r.Commit? ==> Valid(r.db)
  {
    if id !in run.selection || id !in run.operations || run.operations[id].kind != EvidenceKind(e) then Rollback
    else if (run.token, id) in db.operations then
      if db.operations[(run.token, id)] == payload then Commit(db, ()) else Rollback
    else
      var applied := ApplyEvidence(db, run, run.operations[id], e, at);
      if applied.Rollback? then Rollback
      else
        BookedKeepsValid(applied.db, applied.db.operations[(run.token, id) := payload], applied.db.receipts);
        Commit(applied.db.(operations := applied.db.operations[(run.token, id) := payload]), ())
  }

  lemma BookedKeepsValid(db: Db, operations: map<(string, OpId), Digest>, receipts: map<string, Receipt>)
    requires Valid(db)
    ensures Valid(db.(operations := operations)) && Valid(db.(receipts := receipts))
  {
    var a, b := db.(operations := operations), db.(receipts := receipts);
    forall k | k in db.links
      ensures Placed(a, k.0, k.1, db.links[k].target) && Placed(b, k.0, k.1, db.links[k].target)
    {
      assert Placed(db, k.0, k.1, db.links[k].target);
    }
  }

  // ------------------------------------------------------------------------- integrity

  datatype Integrity = Integrity(row: RowId, location: Location, key: Key, token: string, item: string, expected: Stat,
                                 baseline: Option<Attestation>, attestation: Attestation, verifies: bool, clearsReappeared: bool, payload: Digest)

  predicate Guarded(db: Db, c: Integrity) {
    && c.row in db.rows
    && var row := db.rows[c.row];
       InSlot(row, c.location, c.key) && row.presence == Present && row.token == c.token && row.stat == Some(c.expected) && row.attestation == c.baseline
  }

  predicate SameSubject(subject: Stat, expected: Stat) {
    subject.kind == expected.kind && subject.size == expected.size && subject.mtime == expected.mtime && subject.identity == expected.identity
  }

  function ApplyIntegrity(db: Db, c: Integrity): (r: Transaction<Disposition>)
    requires Valid(db)
    ensures r.Commit? ==> Valid(r.db)
  {
    if !Guarded(db, c) then Commit(db, Stale)
    else if !SameSubject(c.attestation.subject, c.expected) then Rollback
    else
      var row := db.rows[c.row];
      if row.attestation == Some(c.attestation) && (c.verifies ==> row.verifiedAt == Some(c.attestation.at)) && (c.clearsReappeared ==> row.reappearedAt.None?)
      then Commit(db, Disposition.Noop)
      else
        var changed := row.(attestation := Some(c.attestation),
                            verifiedAt := if c.verifies then Some(c.attestation.at) else row.verifiedAt,
                            reappearedAt := if c.clearsReappeared then None else row.reappearedAt);
        ChangedKeepsValid(db, c.row, changed);
        Commit(db.(rows := db.rows[c.row := changed]), Applied)
  }

  /** A row but for what integrity evidence may change of it. */
  predicate SameButEvidence(row: Row, other: Row) {
    row.(attestation := other.attestation, verifiedAt := other.verifiedAt, reappearedAt := other.reappearedAt) == other
  }

  /** Two ledgers that differ in the integrity evidence of one row only. */
  ghost predicate OnlyEvidence(before: Db, after: Db, id: RowId) {
    && after.links == before.links
    && (after.rows == before.rows
        || (id in before.rows && id in after.rows && SameButEvidence(before.rows[id], after.rows[id])
            && after.rows == before.rows[id := after.rows[id]]))
  }

  /** Integrity evidence is applied only to the very row and baseline it was computed for, and then
      changes nothing but that row's evidence; otherwise it is stale and changes nothing. */
  lemma IntegrityIsGuarded(db: Db, c: Integrity)
    requires Valid(db) && ApplyIntegrity(db, c).Commit?
    ensures OnlyEvidence(db, ApplyIntegrity(db, c).db, c.row)
    ensures ApplyIntegrity(db, c).value == Stale <==> !Guarded(db, c)
    ensures ApplyIntegrity(db, c).value != Applied ==> ApplyIntegrity(db, c).db == db
    ensures Guarded(db, c) ==> c.row in ApplyIntegrity(db, c).db.rows && ApplyIntegrity(db, c).db.rows[c.row].attestation == Some(c.attestation)
  {
    var r := ApplyIntegrity(db, c);
    if r.value == Applied {
      assert SameButEvidence(db.rows[c.row], r.db.rows[c.row]);
    }
  }

  // -------------------------------------------------------------------------- receipts

  /** A command key already recorded: the same payload is answered from its receipt, another refused. */
  datatype Lookup = Unseen | Answered(disposition: Disposition) | Conflict

  function ReceiptFor(db: Db, key: string, payload: Digest): Lookup {
    if key !in db.receipts then Unseen
    else if db.receipts[key].payload != payload then Conflict
    else Answered(if db.receipts[key].disposition == Applied then Disposition.Noop else db.receipts[key].disposition)
  }

  function Receipted(db: Db, key: string, payload: Digest, disposition: Disposition): (next: Db)
    requires Valid(db)
    ensures Valid(next)
  {
    BookedKeepsValid(db, db.operations, db.receipts[key := Receipt(payload, disposition)]);
    db.(receipts := db.receipts[key := Receipt(payload, disposition)])
  }

  function InventoryKey(c: Inventory): string {
    "inventory:" + Digits(c.location) + ":" + c.token
  }

  function IntegrityKey(c: Integrity): string {
    "integrity:" + c.token + ":" + c.item
  }

  function Digits(n: nat): string {
    (if n < 10 then "" else Digits(n / 10)) + ["0123456789"[n % 10]]
  }

  function RecordInventory(db: Db, c: Inventory): (r: Transaction<Disposition>)
    requires Valid(db)
    ensures r.Commit? ==> Valid(r.db)
  {
    if !c.online then Commit(db, Disposition.Noop)
    else match ReceiptFor(db, InventoryKey(c), c.payload)
      case Conflict => Rollback
      case Answered(d) => Commit(db, d)
      case Unseen =>
        if c.location !in db.volumes || db.volumes[c.location] != c.volume then Rollback
        else
          var r := Reconciled(db, c);
          if r.Rollback? then Rollback else Commit(Receipted(r.db, InventoryKey(c), c.payload, Applied), Applied)
  }

  function RecordIntegrity(db: Db, c: Integrity): (r: Transaction<Disposition>)
    requires Valid(db)
    ensures r.Commit? ==> Valid(r.db)
  {
    match ReceiptFor(db, IntegrityKey(c), c.payload)
    case Conflict => Rollback
    case Answered(d) => Commit(db, d)
    case Unseen =>
      var r := ApplyIntegrity(db, c);
      if r.Rollback? then Rollback else Commit(Receipted(r.db, IntegrityKey(c), c.payload, r.value), r.value)
  }

  // ------------------------------------------------------------------- command sequences

  datatype Command =
    | InventoryCommand(inventory: Inventory)
    | OperationCommand(run: RunContext, id: OpId, evidence: Evidence, at: nat, payload: Digest)
    | IntegrityCommand(integrity: Integrity)
    | MappingCommand(mapping: MappingId, source: Location, target: Location)

  function Mapped(db: Db, m: MappingId, source: Location, target: Location): (next: Db)
    requires Valid(db)
    ensures Valid(next)
  {
    if m in db.mappings || source == target then db
    else
      var next := db.(mappings := db.mappings[m := (source, target)]);
      assert LinksPlaced(next) by {
        forall k | k in next.links
          ensures Placed(next, k.0, k.1, next.links[k].target)
        {
          assert Placed(db, k.0, k.1, db.links[k].target);
        }
      }
      next
  }

  /** The ledger after a command, whether it committed or not. */
  function After(db: Db, c: Command): (next: Db)
    requires Valid(db)
    ensures Valid(next)
  {
    match c
    case InventoryCommand(i) => var r := RecordInventory(db, i); if r.Commit? then r.db else db
    case OperationCommand(run, id, e, at, payload) => var r := RecordOperation(db, run, id, e, at, payload); if r.Commit? then r.db else db
    case IntegrityCommand(i) => var r := RecordIntegrity(db, i); if r.Commit? then r.db else db
    case MappingCommand(m, s, t) => Mapped(db, m, s, t)
  }

  function Ran(db: Db, commands: seq<Command>): (next: Db)
    requires Valid(db)
    ensures Valid(next)
  {
    if commands == [] then db else After(Ran(db, commands[..|commands| - 1]), commands[|commands| - 1])
  }

  function Blank(volumes: map<Location, string>): Db {
    Db(map[], 0, map[], map[], volumes, map[], map[])
  }

  /** After every sequence of commands: one row per location and key, missing rows dated, and
      correspondence a partial bijection between rows of each mapping's own two locations. */
  lemma LedgerInvariants(volumes: map<Location, string>, commands: seq<Command>)
    ensures Valid(Blank(volumes))
    ensures var db := Ran(Blank(volumes), commands);
            && (forall a, b :: a in db.rows && b in db.rows && SameSlot(db.rows[a], db.rows[b]) ==> a == b)
            && (forall id :: id in db.rows ==> (db.rows[id].presence == Missing <==> db.rows[id].missingSince.Some?))
            && (forall k :: k in db.links ==> Placed(db, k.0, k.1, db.links[k].target))
            && (forall k, l :: k in db.links && l in db.links && k.0 == l.0 && db.links[k].target == db.links[l].target ==> k == l)
  {
    var db := Ran(Blank(volumes), commands);
    assert Valid(db);
  }

  // --------------------------------------------------------------------------- repetition

  /** The command is accepted, whether it changes anything or not. */
  predicate Accepted(db: Db, c: Command)
    requires Valid(db)
  {
    match c
    case InventoryCommand(i) => RecordInventory(db, i).Commit?
    case OperationCommand(run, id, e, at, payload) => RecordOperation(db, run, id, e, at, payload).Commit?
    case IntegrityCommand(i) => RecordIntegrity(db, i).Commit?
    case MappingCommand(_, _, _) => true
  }

  /** Receipts, recorded operations and mappings are only ever added. */
  ghost predicate BooksKept(before: Db, after: Db) {
    && (forall k :: k in before.receipts ==> k in after.receipts && after.receipts[k] == before.receipts[k])
    && (forall k :: k in before.operations ==> k in after.operations && after.operations[k] == before.operations[k])
    && (forall k :: k in before.mappings ==> k in after.mappings && after.mappings[k] == before.mappings[k])
  }

  predicate SameBooks(a: Db, b: Db) {
    a.receipts == b.receipts && a.operations == b.operations && a.mappings == b.mappings
  }

  lemma {:induction false} SeenKeepsBooks(db: Db, c: Inventory, seen: seq<Observation>)
    requires Valid(db)
    ensures SameBooks(db, SeenAll(db, c, seen))
  {
    if seen != [] {
      SeenKeepsBooks(db, c, seen[..|seen| - 1]);
    }
  }

  lemma {:induction false} UnsupportedKeepsBooks(db: Db, c: Inventory, paths: seq<Path>)
    requires Valid(db)
    ensures SameBooks(db, UnsupportedAll(db, c, paths))
  {
    if paths != [] {
      UnsupportedKeepsBooks(db, c, paths[..|paths| - 1]);
    }
  }

  lemma ReconciledKeepsBooks(db: Db, c: Inventory)
    requires Valid(db) && Reconciled(db, c).Commit?
    ensures SameBooks(db, Reconciled(db, c).db)
  {
    var seen := SeenAll(db, c, Recorded(c));
    SeenKeepsBooks(db, c, Recorded(c));
    UnsupportedKeepsBooks(seen, c, c.unsupported);
  }

  lemma JoinKeepsBooks(db: Db, run: RunContext, op: Operation, s: RowId, t: RowId, target: Stat, attestation: Option<Attestation>)
    requires Valid(db) && t in db.rows && op.sourceExpected.Some?
    ensures var r := Join(db, run, op, s, t, target, attestation); r.Commit? ==> SameBooks(db, r.db)
  {
  }

  lemma UpsertKeepsBooks(db: Db, location: Location, path: Path, stat: Stat, at: nat, token: string)
    requires Unique(db.rows)
    ensures SameBooks(db, Upsert(db, location, path, stat, at, token))
  {
  }

  lemma PairUpKeepsBooks(db: Db, run: RunContext, op: Operation, target: Stat, attestation: Option<Attestation>, at: nat)
    requires Valid(db) && op.source.Some? && op.sourceExpected.Some?
    ensures var r := PairUp(db, run, op, target, attestation, at); r.Commit? ==> SameBooks(db, r.db)
  {
    UpsertKeepsValid(db, run.source, op.source.value, op.sourceExpected.value, at, run.token);
    var sourced := Upsert(db, run.source, op.source.value, op.sourceExpected.value, at, run.token);
    UpsertKeepsValid(sourced, run.target, op.target, target, at, run.token);
    var seen := Upsert(sourced, run.target, op.target, target, at, run.token);
    UpsertKeepsBooks(db, run.source, op.source.value, op.sourceExpected.value, at, run.token);
    UpsertKeepsBooks(sourced, run.target, op.target, target, at, run.token);
    JoinKeepsBooks(seen, run, op, UpsertId(db, run.source, op.source.value), UpsertId(sourced, run.target, op.target), target, attestation);
  }

  lemma TakePathKeepsBooks(db: Db, run: RunContext, op: Operation, target: Stat, at: nat, origin: Option<RowId>)
    requires Valid(db) && (origin.Some? ==> origin.value in db.rows && db.rows[origin.value].location == run.target)
    requires origin.Some? ==> forall id :: id in db.rows && id != origin.value ==> !InSlot(db.rows[id], run.target, Fold(op.target))
    ensures var r := TakePath(db, run, op, target, at, origin); r.Commit? ==> SameBooks(db, r.db)
  {
    UpsertKeepsBooks(db, run.target, op.target, target, at, run.token);
  }

  lemma MoveRowKeepsBooks(db: Db, run: RunContext, op: Operation, target: Stat, at: nat)
    requires Valid(db)
    ensures var r := MoveRow(db, run, op, target, at); r.Commit? ==> SameBooks(db, r.db)
  {
    if MoveRow(db, run, op, target, at).Commit? {
      var collision := Find(db.rows, run.target, Fold(op.target));
      var origin := Find(db.rows, run.target, Fold(PriorPath(op)));
      var clashes := collision.Some? && (origin.None? || collision.value != origin.value);
      var cleared := if clashes then Deleted(db, collision.value) else db;
      if clashes {
        DeletedKeepsValid(db, collision.value);
      }
      OnlyCollision(db, run, op, cleared, collision, origin);
      TakePathKeepsBooks(cleared, run, op, target, at, origin);
    }
  }

  lemma RecordMoveKeepsBooks(db: Db, run: RunContext, op: Operation, target: Stat, attestation: Option<Attestation>, at: nat)
    requires Valid(db)
    ensures var r := RecordMove(db, run, op, target, attestation, at); r.Commit? ==> SameBooks(db, r.db)
  {
    if RecordMove(db, run, op, target, attestation, at).Commit? {
      UpsertKeepsValid(db, run.source, op.source.value, op.sourceExpected.value, at, run.token);
      var sourced := Upsert(db, run.source, op.source.value, op.sourceExpected.value, at, run.token);
      UpsertKeepsBooks(db, run.source, op.source.value, op.sourceExpected.value, at, run.token);
      MoveRowKeepsBooks(sourced, run, op, target, at);
      var moved := MoveRow(sourced, run, op, target, at);
      JoinKeepsBooks(moved.db, run, op, UpsertId(db, run.source, op.source.value), moved.value, target, attestation);
    }
  }

  lemma RecordAbsentKeepsBooks(db: Db, run: RunContext, op: Operation, prior: Stat, at: nat)
    requires Valid(db)
    ensures var r := RecordAbsent(db, run, op, prior, at); r.Commit? ==> SameBooks(db, r.db)
  {
    UpsertKeepsValid(db, run.target, op.target, prior, at, run.token);
    UpsertKeepsBooks(db, run.target, op.target, prior, at, run.token);
  }

  lemma EvidenceKeepsBooks(db: Db, run: RunContext, op: Operation, e: Evidence, at: nat)
    requires Valid(db)
    ensures var r := ApplyEvidence(db, run, op, e, at); r.Commit? ==> SameBooks(db, r.db)
  {
    match e
    case Copied(a) => if CopyEvidence(op, a) { PairUpKeepsBooks(db, run, op, a.subject, Some(a), at); }
    case Updated(a) => if CopyEvidence(op, a) { PairUpKeepsBooks(db, run, op, a.subject, Some(a), at); }
    case MovedTo(target) => RecordMoveKeepsBooks(db, run, op, target, None, at);
    case RecasedTo(target) => RecordMoveKeepsBooks(db, run, op, target, None, at);
    case MoveUpdated(a) => RecordMoveKeepsBooks(db, run, op, a.subject, Some(a), at);
    case MadeDirectory(_) =>
    case TrashedFrom(target) => RecordAbsentKeepsBooks(db, run, op, target, at);
    case DeletedFrom(target) => RecordAbsentKeepsBooks(db, run, op, target, at);
    case Unchanged(_, target) => if op.source.Some? && op.sourceExpected.Some? { PairUpKeepsBooks(db, run, op, target, None, at); }
  }

  lemma OperationKeepsBooks(db: Db, run: RunContext, id: OpId, e: Evidence, at: nat, payload: Digest)
    requires Valid(db)
    ensures BooksKept(db, After(db, OperationCommand(run, id, e, at, payload)))
  {
    if id in run.operations {
      EvidenceKeepsBooks(db, run, run.operations[id], e, at);
    }
  }

  lemma InventoryKeepsBooks(db: Db, c: Inventory)
    requires Valid(db)
    ensures BooksKept(db, After(db, InventoryCommand(c)))
  {
    if Reconciled(db, c).Commit? {
      ReconciledKeepsBooks(db, c);
    }
  }

  lemma IntegrityKeepsBooks(db: Db, c: Integrity)
    requires Valid(db)
    ensures BooksKept(db, After(db, IntegrityCommand(c)))
  {
  }

  lemma AfterKeepsBooks(db: Db, c: Command)
    requires Valid(db)
    ensures BooksKept(db, After(db, c))
  {
    match c
    case InventoryCommand(i) => InventoryKeepsBooks(db, i);
    case OperationCommand(run, id, e, at, payload) => OperationKeepsBooks(db, run, id, e, at, payload);
    case IntegrityCommand(i) => IntegrityKeepsBooks(db, i);
    case MappingCommand(_, _, _) =>
  }

  lemma {:induction false} RanKeepsBooks(db: Db, commands: seq<Command>)
    requires Valid(db)
    ensures BooksKept(db, Ran(db, commands))
  {
    if commands != [] {
      var n := |commands| - 1;
      RanKeepsBooks(db, commands[..n]);
      AfterKeepsBooks(Ran(db, commands[..n]), commands[n]);
    }
  }

  /** An accepted command leaves what answers it the next time. */
  lemma AcceptedIsBooked(db: Db, later: Db, c: Command)
    requires Valid(db) && Valid(later) && Accepted(db, c) && BooksKept(After(db, c), later)
    ensures After(later, c) == later && Accepted(later, c)
  {
    match c
    case InventoryCommand(i) => assert i.online ==> InventoryKey(i) in After(db, c).receipts;
    case OperationCommand(run, id, _, _, _) => assert (run.token, id) in After(db, c).operations;
    case IntegrityCommand(i) => assert IntegrityKey(i) in After(db, c).receipts;
    case MappingCommand(_, _, _) =>
  }

  /** Repeating an accepted command, with the same payload and after any other commands, is accepted and
      changes nothing. */
  lemma ReplayIsHarmless(db: Db, c: Command, between: seq<Command>)
    requires Valid(db) && Accepted(db, c)
    ensures var later := Ran(After(db, c), between); After(later, c) == later && Accepted(later, c)
  {
    RanKeepsBooks(After(db, c), between);
    AcceptedIsBooked(db, Ran(After(db, c), between), c);
  }

  // ------------------------------------------------------------------ what evidence leaves behind

  /** Rows of locations the run is not about are as they were. */
  ghost predicate Elsewhere(before: Db, after: Db, run: RunContext) {
    forall id :: id in before.rows && before.rows[id].location != run.source && before.rows[id].location != run.target
      ==> id in after.rows && after.rows[id] == before.rows[id]
  }

  lemma UpsertElsewhere(db: Db, run: RunContext, location: Location, path: Path, stat: Stat, at: nat)
    requires Valid(db) && (location == run.source || location == run.target)
    ensures Elsewhere(db, Upsert(db, location, path, stat, at, run.token), run)
  {
    UpsertConfined(db, location, path, stat, at, run.token);
  }

  lemma JoinElsewhere(db: Db, run: RunContext, op: Operation, s: RowId, t: RowId, target: Stat, attestation: Option<Attestation>)
    requires Valid(db) && t in db.rows && op.sourceExpected.Some? && db.rows[t].location == run.target
    ensures var r := Join(db, run, op, s, t, target, attestation); r.Commit? ==> Elsewhere(db, r.db, run)
  {
  }

  lemma PairUpElsewhere(db: Db, run: RunContext, op: Operation, target: Stat, attestation: Option<Attestation>, at: nat)
    requires Valid(db) && op.source.Some? && op.sourceExpected.Some?
    ensures var r := PairUp(db, run, op, target, attestation, at); r.Commit? ==> Elsewhere(db, r.db, run)
  {
    UpsertKeepsValid(db, run.source, op.source.value, op.sourceExpected.value, at, run.token);
    var sourced := Upsert(db, run.source, op.source.value, op.sourceExpected.value, at, run.token);
    UpsertKeepsValid(sourced, run.target, op.target, target, at, run.token);
    var seen := Upsert(sourced, run.target, op.target, target, at, run.token);
    UpsertElsewhere(db, run, run.source, op.source.value, op.sourceExpected.value, at);
    UpsertElsewhere(sourced, run, run.target, op.target, target, at);
    JoinElsewhere(seen, run, op, UpsertId(db, run.source, op.source.value), UpsertId(sourced, run.target, op.target), target, attestation);
  }

  lemma TakePathElsewhere(db: Db, run: RunContext, op: Operation, target: Stat, at: nat, origin: Option<RowId>)
    requires Valid(db) && (origin.Some? ==> origin.value in db.rows && db.rows[origin.value].location == run.target)
    requires origin.Some? ==> forall id :: id in db.rows && id != origin.value ==> !InSlot(db.rows[id], run.target, Fold(op.target))
    ensures var r := TakePath(db, run, op, target, at, origin); r.Commit? && Elsewhere(db, r.db, run) && r.db.rows[r.value].location == run.target
  {
    if origin.None? {
      UpsertKeepsValid(db, run.target, op.target, target, at, run.token);
      UpsertElsewhere(db, run, run.target, op.target, target, at);
    }
  }

  lemma MoveRowElsewhere(db: Db, run: RunContext, op: Operation, target: Stat, at: nat)
    requires Valid(db)
    ensures var r := MoveRow(db, run, op, target, at); r.Commit? ==> Elsewhere(db, r.db, run) && r.db.rows[r.value].location == run.target
  {
    var collision := Find(db.rows, run.target, Fold(op.target));
    var origin := Find(db.rows, run.target, Fold(PriorPath(op)));
    if MoveRow(db, run, op, target, at).Commit? {
      var clashes := collision.Some? && (origin.None? || collision.value != origin.value);
      var cleared := if clashes then Deleted(db, collision.value) else db;
      if clashes {
        DeletedKeepsValid(db, collision.value);
      }
      assert Elsewhere(db, cleared, run);
      OnlyCollision(db, run, op, cleared, collision, origin);
      TakePathElsewhere(cleared, run, op, target, at, origin);
    }
  }

  lemma RecordMoveElsewhere(db: Db, run: RunContext, op: Operation, target: Stat, attestation: Option<Attestation>, at: nat)
    requires Valid(db)
    ensures var r := RecordMove(db, run, op, target, attestation, at); r.Commit? ==> Elsewhere(db, r.db, run)
  {
    if RecordMove(db, run, op, target, attestation, at).Commit? {
      UpsertKeepsValid(db, run.source, op.source.value, op.sourceExpected.value, at, run.token);
      UpsertElsewhere(db, run, run.source, op.source.value, op.sourceExpected.value, at);
      var sourced := Upsert(db, run.source, op.source.value, op.sourceExpected.value, at, run.token);
      MoveRowElsewhere(sourced, run, op, target, at);
      var moved := MoveRow(sourced, run, op, target, at);
      JoinElsewhere(moved.db, run, op, UpsertId(db, run.source, op.source.value), moved.value, target, attestation);
    }
  }

  lemma RecordAbsentElsewhere(db: Db, run: RunContext, op: Operation, prior: Stat, at: nat)
    requires Valid(db)
    ensures var r := RecordAbsent(db, run, op, prior, at); r.Commit? ==> Elsewhere(db, r.db, run)
  {
    UpsertKeepsValid(db, run.target, op.target, prior, at, run.token);
    UpsertElsewhere(db, run, run.target, op.target, prior, at);
  }

  /** Recording a run's evidence changes only rows of the run's own two locations. */
  lemma EvidenceStaysHome(db: Db, run: RunContext, id: OpId, e: Evidence, at: nat, payload: Digest)
    requires Valid(db)
    ensures Elsewhere(db, After(db, OperationCommand(run, id, e, at, payload)), run)
  {
    if id in run.selection && id in run.operations && (run.token, id) !in db.operations {
      var op := run.operations[id];
      match e
      case Copied(a) => if CopyEvidence(op, a) { PairUpElsewhere(db, run, op, a.subject, Some(a), at); }
      case Updated(a) => if CopyEvidence(op, a) { PairUpElsewhere(db, run, op, a.subject, Some(a), at); }
      case MovedTo(target) => RecordMoveElsewhere(db, run, op, target, None, at);
      case RecasedTo(target) => RecordMoveElsewhere(db, run, op, target, None, at);
      case MoveUpdated(a) => RecordMoveElsewhere(db, run, op, a.subject, Some(a), at);
      case MadeDirectory(target) => UpsertElsewhere(db, run, run.target, op.target, target, at);
      case TrashedFrom(target) => RecordAbsentElsewhere(db, run, op, target, at);
      case DeletedFrom(target) => RecordAbsentElsewhere(db, run, op, target, at);
      case Unchanged(source, target) => if op.source.Some? && op.sourceExpected.Some? { PairUpElsewhere(db, run, op, target, None, at); }
    }
  }

  /** What a pairing leaves: the rows found at the source and the target key, linked and up to date. */
  ghost predicate PairedAt(db: Db, run: RunContext, source: Path, target: Path, attestation: Option<Attestation>)
    requires Valid(db)
  {
    var s, t := Find(db.rows, run.source, Fold(source)), Find(db.rows, run.target, Fold(target));
    && s.Some? && t.Some? && (run.mapping, s.value) in db.links && db.links[(run.mapping, s.value)].target == t.value
    && (attestation.Some? ==> db.rows[t.value].attestation == attestation)
    && db.rows[t.value].presence == Present
  }

  lemma UpsertFound(db: Db, location: Location, path: Path, stat: Stat, at: nat, token: string)
    requires Valid(db)
    ensures var next := Upsert(db, location, path, stat, at, token);
            && Valid(next) && Find(next.rows, location, Fold(path)) == Some(UpsertId(db, location, path))
            && next.rows[UpsertId(db, location, path)].presence == Present
  {
    UpsertKeepsValid(db, location, path, stat, at, token);
    OwnSlot(Upsert(db, location, path, stat, at, token), location, path, UpsertId(db, location, path));
  }

  lemma UpsertKeepsFound(db: Db, location: Location, path: Path, stat: Stat, at: nat, token: string, id: RowId)
    requires Valid(db) && id in db.rows
    ensures var next := Upsert(db, location, path, stat, at, token);
            Valid(next) && id in next.rows && SameSlot(next.rows[id], db.rows[id])
  {
    UpsertKeepsValid(db, location, path, stat, at, token);
  }

  lemma JoinPairs(db: Db, run: RunContext, op: Operation, s: RowId, t: RowId, target: Stat, attestation: Option<Attestation>)
    requires Valid(db) && t in db.rows && s in db.rows && op.source.Some? && op.sourceExpected.Some? && op.sourceExpected.value.identity.Some?
    requires InSlot(db.rows[s], run.source, Fold(op.source.value)) && InSlot(db.rows[t], run.target, Fold(op.target)) && db.rows[t].presence == Present
    ensures var r := Join(db, run, op, s, t, target, attestation); r.Commit? ==> PairedAt(r.db, run, op.source.value, op.target, attestation)
  {
    var r := Join(db, run, op, s, t, target, attestation);
    if r.Commit? {
      OwnSlot(r.db, run.source, op.source.value, s);
      OwnSlot(r.db, run.target, op.target, t);
    }
  }

  /** A recorded copy, update or no-op with a known source identity pairs the rows of its two paths. */
  lemma PairUpPairs(db: Db, run: RunContext, op: Operation, target: Stat, attestation: Option<Attestation>, at: nat)
    requires Valid(db) && op.source.Some? && op.sourceExpected.Some? && op.sourceExpected.value.identity.Some?
    ensures var r := PairUp(db, run, op, target, attestation, at); r.Commit? ==> PairedAt(r.db, run, op.source.value, op.target, attestation)
  {
    UpsertFound(db, run.source, op.source.value, op.sourceExpected.value, at, run.token);
    var sourced := Upsert(db, run.source, op.source.value, op.sourceExpected.value, at, run.token);
    var s := UpsertId(db, run.source, op.source.value);
    UpsertFound(sourced, run.target, op.target, target, at, run.token);
    UpsertKeepsFound(sourced, run.target, op.target, target, at, run.token, s);
    var seen := Upsert(sourced, run.target, op.target, target, at, run.token);
    JoinPairs(seen, run, op, s, UpsertId(sourced, run.target, op.target), target, attestation);
  }

  // ------------------------------------------------------------------------- the recorder

  const ChunkSize := 400

  class LedgerRecorder {
    var db: Db

    constructor (volumes: map<Location, string>)
      ensures Valid(db) && db == Blank(volumes)
    {
      db := Blank(volumes);
    }

    method ObserveChunk(ghost start: Db, current: Db, c: Inventory, rows: seq<Observation>, lo: nat, hi: nat) returns (next: Db)
      requires Valid(start) && lo <= hi <= |rows| && current == SeenAll(start, c, rows[..lo])
      ensures next == SeenAll(start, c, rows[..hi])
    {
      next := current;
      for i := lo to hi
        invariant next == SeenAll(start, c, rows[..i])
      {
        assert rows[..i + 1][..i] == rows[..i];
        next := Upsert(next, c.location, rows[i].path, rows[i].stat, c.at, c.token);
      }
    }

    /** Upsert the seen entries, a chunk of rows at a time. */
    method Observe(start: Db, c: Inventory) returns (next: Db)
      requires Valid(start)
      ensures next == SeenAll(start, c, Recorded(c))
    {
      next := start;
      var rows := Recorded(c);
      var done := 0;
      while done < |rows|
        invariant 0 <= done <= |rows| && next == SeenAll(start, c, rows[..done])
      {
        var stop := if done + ChunkSize < |rows| then done + ChunkSize else |rows|;
        next := ObserveChunk(start, next, c, rows, done, stop);
        done := stop;
      }
      assert rows[..|rows|] == rows;
    }

    method UnsupportedChunk(ghost start: Db, current: Db, c: Inventory, lo: nat, hi: nat) returns (next: Db)
      requires Valid(start) && lo <= hi <= |c.unsupported| && current == UnsupportedAll(start, c, c.unsupported[..lo])
      ensures next == UnsupportedAll(start, c, c.unsupported[..hi])
    {
      next := current;
      for i := lo to hi
        invariant next == UnsupportedAll(start, c, c.unsupported[..i])
      {
        assert c.unsupported[..i + 1][..i] == c.unsupported[..i];
        next := UpsertUnsupported(next, c.location, c.unsupported[i], c.at, c.token);
      }
    }

    method ObserveUnsupported(start: Db, c: Inventory) returns (next: Db)
      requires Valid(start)
      ensures next == UnsupportedAll(start, c, c.unsupported)
    {
      next := start;
      var done := 0;
      while done < |c.unsupported|
        invariant 0 <= done <= |c.unsupported| && next == UnsupportedAll(start, c, c.unsupported[..done])
      {
        var stop := if done + ChunkSize < |c.unsupported| then done + ChunkSize else |c.unsupported|;
        next := UnsupportedChunk(start, next, c, done, stop);
        done := stop;
      }
      assert c.unsupported[..|c.unsupported|] == c.unsupported;
    }

    method Reconcile(c: Inventory) returns (r: Transaction<()>)
      requires Valid(db)
      ensures r == Reconciled(db, c)
    {
      var seen := Observe(db, c);
      seen := ObserveUnsupported(seen, c);
      if !c.complete {
        return Commit(seen, ());
      }
      if c.full && !DistinctKeys(c) {
        return Rollback;
      }
      r := Commit(MarkMissing(seen, c.location, (row: Row) => Vanished(c, row), c.at, c.token), ());
    }

    /** Reconcile a scan; the ledger changes only when the transaction commits. */
    method Record(c: Inventory) returns (answer: Option<Disposition>)
      requires Valid(db)
      modifies this
      ensures Valid(db) && db == After(old(db), InventoryCommand(c))
      ensures answer.None? <==> RecordInventory(old(db), c).Rollback?
      ensures answer.Some? ==> answer.value == RecordInventory(old(db), c).value
    {
      if !c.online {
        return Some(Disposition.Noop);
      }
      var receipt := ReceiptFor(db, InventoryKey(c), c.payload);
      if receipt.Conflict? {
        return None;
      }
      if receipt.Answered? {
        return Some(receipt.disposition);
      }
      if c.location !in db.volumes || db.volumes[c.location] != c.volume {
        return None;
      }
      var r := Reconcile(c);
      if r.Rollback? {
        return None;
      }
      db := Receipted(r.db, InventoryKey(c), c.payload, Applied);
      return Some(Applied);
    }

    method RecordEvidence(run: RunContext, id: OpId, e: Evidence, at: nat, payload: Digest) returns (ok: bool)
      requires Valid(db)
      modifies this
      ensures Valid(db) && db == After(old(db), OperationCommand(run, id, e, at, payload))
      ensures ok == RecordOperation(old(db), run, id, e, at, payload).Commit?
    {
      var r := RecordOperation(db, run, id, e, at, payload);
      ok := r.Commit?;
      if ok {
        db := r.db;
      }
    }

    method RecordVerification(c: Integrity) returns (answer: Option<Disposition>)
      requires Valid(db)
      modifies this
      ensures Valid(db) && db == After(old(db), IntegrityCommand(c))
      ensures answer.None? <==> RecordIntegrity(old(db), c).Rollback?
      ensures answer.Some? ==> answer.value == RecordIntegrity(old(db), c).value
    {
      var r := RecordIntegrity(db, c);
      if r.Rollback? {
        return None;
      }
      db := r.db;
      return Some(r.value);
    }
  }
}
