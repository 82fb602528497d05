/** The ledger: inventory rows, attestations and correspondence, changed by recording commands. */
module Ledger {
  import opened Paths
  import opened Model

  type RowId = nat
  type Location = nat
  type MappingId = nat
  type Digest = seq<nat>

  datatype Presence = Present | Missing | Unsupported
  datatype RowKind = FileRow | DirectoryRow | UnsupportedRow
  datatype Attestation = Attestation(digest: Digest, size: nat, copyAttested: bool, at: nat, subject: Stat)

  datatype Row = Row(
    location: Location, path: Path, kind: RowKind, presence: Presence, stat: Option<Stat>, seenAt: nat, token: string,
    attestation: Option<Attestation>, verifiedAt: Option<nat>, missingSince: Option<nat>, reappearedAt: Option<nat>)

  datatype Link = Link(target: RowId, sourceIdentity: Identity, targetIdentity: Option<Identity>)

  datatype Receipt = Receipt(payload: Digest, disposition: Disposition)

  datatype Disposition = Applied | Noop | Stale

  datatype Db = Db(
    rows: map<RowId, Row>,
    nextId: RowId,
    links: map<(MappingId, RowId), Link>,
    mappings: map<MappingId, (Location, Location)>,
    volumes: map<Location, string>,
    receipts: map<string, Receipt>,
    operations: map<(string, OpId), Digest>)

  /** A transaction either commits or leaves the ledger as it was. */
  datatype Transaction<T> = Commit(db: Db, value: T) | Rollback

  function KindOf(stat: Stat): RowKind {
    if stat.kind == FileEntry then FileRow else DirectoryRow
  }

  // -------------------------------------------------------------------------- invariants

  ghost predicate SameSlot(a: Row, b: Row) {
    a.location == b.location && Fold(a.path) == Fold(b.path)
  }

  ghost predicate Unique(rows: map<RowId, Row>) {
    forall a, b :: a in rows && b in rows && SameSlot(rows[a], rows[b]) ==> a == b
  }

  ghost predicate Numbered(db: Db) {
    forall id :: id in db.rows ==> id < db.nextId
  }

  /** Missing exactly when it is known since when. */
  predicate Dated(row: Row) {
    row.presence == Missing <==> row.missingSince.Some?
  }

  ghost predicate AllDated(rows: map<RowId, Row>) {
    forall id :: id in rows ==> Dated(rows[id])
  }

  /** A link leads from a row of its mapping's source location to one of its target location. */
  ghost predicate Placed(db: Db, m: MappingId, s: RowId, t: RowId) {
    && m in db.mappings && s in db.rows && t in db.rows
    && db.rows[s].location == db.mappings[m].0 && db.rows[t].location == db.mappings[m].1
  }

  ghost predicate LinksPlaced(db: Db) {
    forall k :: k in db.links ==> Placed(db, k.0, k.1, db.links[k].target)
  }

  /** Within a mapping no two source rows share a target row. */
  ghost predicate LinksInjective(links: map<(MappingId, RowId), Link>) {
    forall k, l :: k in links && l in links && k.0 == l.0 && links[k].target == links[l].target ==> k == l
  }

  ghost predicate Valid(db: Db) {
    Unique(db.rows) && Numbered(db) && AllDated(db.rows) && LinksPlaced(db) && LinksInjective(db.links)
  }

  // ------------------------------------------------------------------------ observations

  predicate InSlot(row: Row, location: Location, key: Key) {
    row.location == location && Fold(row.path) == key
  }

  function Find(rows: map<RowId, Row>, location: Location, key: Key): (r: Option<RowId>)
    requires Unique(rows)
    ensures r.Some? ==> r.value in rows && InSlot(rows[r.value], location, key)
    ensures r.None? ==> forall id :: id in rows ==> !InSlot(rows[id], location, key)
  {
    if exists id :: id in rows && InSlot(rows[id], location, key) then
      assert forall a, b :: a in rows && b in rows && InSlot(rows[a], location, key) && InSlot(rows[b], location, key) ==> SameSlot(rows[a], rows[b]);
      var id :| id in rows && InSlot(rows[id], location, key);
      Some(id)
    else None
  }

  /** A row seen present: new, or an older row brought up to date. */
  function Seen(prior: Option<Row>, location: Location, path: Path, stat: Stat, at: nat, token: string): Row {
    match prior
    case None => Row(location, path, KindOf(stat), Present, Some(stat), at, token, None, None, None, None)
    case Some(row) =>
      Row(location, path, KindOf(stat), Present, Some(stat), at, token, row.attestation, row.verifiedAt, None,
          if row.presence == Missing then Some(at) else row.reappearedAt)
  }

  /** A row seen as an entry the program does not support. */
  function SeenUnsupported(prior: Option<Row>, location: Location, path: Path, at: nat, token: string): Row {
    match prior
    case None => Row(location, path, UnsupportedRow, Unsupported, None, at, token, None, None, None, None)
    case Some(row) => Row(location, path, UnsupportedRow, Unsupported, None, at, token, row.attestation, row.verifiedAt, None, row.reappearedAt)
  }

  function RowAt(db: Db, id: Option<RowId>): Option<Row>
    requires id.Some? ==> id.value in db.rows
  {
    if id.Some? then Some(db.rows[id.value]) else None
  }

  function Stored(db: Db, id: Option<RowId>, row: Row): Db {
    if id.Some? then db.(rows := db.rows[id.value := row]) else db.(rows := db.rows[db.nextId := row], nextId := db.nextId + 1)
  }

  function StoredId(db: Db, id: Option<RowId>): RowId {
    if id.Some? then id.value else db.nextId
  }

  function Upsert(db: Db, location: Location, path: Path, stat: Stat, at: nat, token: string): Db
    requires Unique(db.rows)
  {
    var id := Find(db.rows, location, Fold(path));
    Stored(db, id, Seen(RowAt(db, id), location, path, stat, at, token))
  }

  function UpsertUnsupported(db: Db, location: Location, path: Path, at: nat, token: string): Db
    requires Unique(db.rows)
  {
    var id := Find(db.rows, location, Fold(path));
    Stored(db, id, SeenUnsupported(RowAt(db, id), location, path, at, token))
  }

  /** Where an upserted observation is found afterwards. */
  function UpsertId(db: Db, location: Location, path: Path): RowId
    requires Unique(db.rows)
  {
    StoredId(db, Find(db.rows, location, Fold(path)))
  }

  lemma StoredUnique(db: Db, location: Location, path: Path, row: Row)
    requires Unique(db.rows) && Numbered(db) && row.location == location && row.path == path
    ensures Unique(Stored(db, Find(db.rows, location, Fold(path)), row).rows)
  {
    var id := Find(db.rows, location, Fold(path));
    var next := Stored(db, id, row);
    var mine := StoredId(db, id);
    forall a, b | a in next.rows && b in next.rows && SameSlot(next.rows[a], next.rows[b])
      ensures a == b
    {
      if a == mine && b != mine {
        OwnSlot(db, location, path, b);
      } else if b == mine && a != mine {
        OwnSlot(db, location, path, a);
      }
    }
  }

  /** Storing a dated row in its own slot keeps everything. */
  lemma StoredKeepsValid(db: Db, location: Location, path: Path, row: Row)
    requires Valid(db) && row.location == location && row.path == path && Dated(row)
    ensures Valid(Stored(db, Find(db.rows, location, Fold(path)), row))
    ensures StoredId(db, Find(db.rows, location, Fold(path))) in Stored(db, Find(db.rows, location, Fold(path)), row).rows
  {
    StoredUnique(db, location, path, row);
    StoredPlaced(db, Find(db.rows, location, Fold(path)), row);
  }

  lemma OwnSlot(db: Db, location: Location, path: Path, other: RowId)
    requires Unique(db.rows) && other in db.rows && InSlot(db.rows[other], location, Fold(path))
    ensures Find(db.rows, location, Fold(path)) == Some(other)
  {
    var id := Find(db.rows, location, Fold(path));
    assert SameSlot(db.rows[id.value], db.rows[other]);
  }

  lemma StoredPlaced(db: Db, id: Option<RowId>, row: Row)
    requires LinksPlaced(db) && Numbered(db) && (id.Some? ==> id.value in db.rows && db.rows[id.value].location == row.location)
    ensures LinksPlaced(Stored(db, id, row))
  {
    var next := Stored(db, id, row);
    forall k | k in next.links
      ensures Placed(next, k.0, k.1, next.links[k].target)
    {
      assert Placed(db, k.0, k.1, db.links[k].target);
    }
  }

  lemma UpsertKeepsValid(db: Db, location: Location, path: Path, stat: Stat, at: nat, token: string)
    requires Valid(db)
    ensures Valid(Upsert(db, location, path, stat, at, token))
    ensures UpsertId(db, location, path) in Upsert(db, location, path, stat, at, token).rows
    ensures Upsert(db, location, path, stat, at, token).rows[UpsertId(db, location, path)].location == location
  {
    var id := Find(db.rows, location, Fold(path));
    StoredKeepsValid(db, location, path, Seen(RowAt(db, id), location, path, stat, at, token));
  }

  lemma UnsupportedKeepsValid(db: Db, location: Location, path: Path, at: nat, token: string)
    requires Valid(db)
    ensures Valid(UpsertUnsupported(db, location, path, at, token))
  {
    var id := Find(db.rows, location, Fold(path));
    StoredKeepsValid(db, location, path, SeenUnsupported(RowAt(db, id), location, path, at, token));
  }

  // ----------------------------------------------------------------------- changing rows

  /** One row changed in place, its slot kept. */
  lemma ChangedKeepsValid(db: Db, id: RowId, row: Row)
    requires Valid(db) && id in db.rows && SameSlot(db.rows[id], row) && Dated(row)
    ensures Valid(db.(rows := db.rows[id := row]))
  {
    var next := db.(rows := db.rows[id := row]);
    forall a, b | a in next.rows && b in next.rows && SameSlot(next.rows[a], next.rows[b])
      ensures a == b
    {
      assert SameSlot(db.rows[a], db.rows[b]);
    }
    forall k | k in next.links
      ensures Placed(next, k.0, k.1, next.links[k].target)
    {
      assert Placed(db, k.0, k.1, db.links[k].target);
    }
  }

  function Lost(row: Row, at: nat, token: string): Row {
    row.(presence := Missing, missingSince := if row.missingSince.Some? then row.missingSince else Some(at), token := token)
  }

  /** Rows of a location that a test selects become missing. */
  function MarkMissing(db: Db, location: Location, gone: Row -> bool, at: nat, token: string): Db {
    db.(rows := map id | id in db.rows :: if db.rows[id].location == location && gone(db.rows[id]) then Lost(db.rows[id], at, token) else db.rows[id])
  }

  lemma MarkMissingKeepsValid(db: Db, location: Location, gone: Row -> bool, at: nat, token: string)
    requires Valid(db)
    ensures Valid(MarkMissing(db, location, gone, at, token))
  {
    var next := MarkMissing(db, location, gone, at, token);
    forall a, b | a in next.rows && b in next.rows && SameSlot(next.rows[a], next.rows[b])
      ensures a == b
    {
      assert SameSlot(db.rows[a], db.rows[b]);
    }
    forall k | k in next.links
      ensures Placed(next, k.0, k.1, next.links[k].target)
    {
      assert Placed(db, k.0, k.1, db.links[k].target);
    }
  }

  // ----------------------------------------------------------------------- correspondence

  function Unlinked(links: map<(MappingId, RowId), Link>, m: MappingId, s: RowId, t: RowId): map<(MappingId, RowId), Link> {
    map k | k in links && !(k.0 == m && (k.1 == s || links[k].target == t)) :: links[k]
  }

  /** Pair two rows under a mapping, replacing what either was paired with; refused when the rows are
      not of the mapping's two locations. */
  function Paired(db: Db, m: MappingId, s: RowId, t: RowId, source: Stat, target: Stat): Transaction<()> {
    if source.identity.None? then Commit(db, ())
    else if !(m in db.mappings && s in db.rows && t in db.rows && db.rows[s].location == db.mappings[m].0 && db.rows[t].location == db.mappings[m].1)
    then Rollback
    else Commit(db.(links := Unlinked(db.links, m, s, t)[(m, s) := Link(t, source.identity.value, target.identity)]), ())
  }

  lemma PairedKeepsValid(db: Db, m: MappingId, s: RowId, t: RowId, source: Stat, target: Stat)
    requires Valid(db)
    ensures Paired(db, m, s, t, source, target).Commit? ==> Valid(Paired(db, m, s, t, source, target).db)
  {
    var r := Paired(db, m, s, t, source, target);
    if r.Commit? {
      forall k | k in r.db.links
        ensures Placed(r.db, k.0, k.1, r.db.links[k].target)
      {
        if k in db.links {
          assert Placed(db, k.0, k.1, db.links[k].target);
        }
      }
    }
  }

  // --------------------------------------------------------------------------- deleting

  /** A deleted row takes its links with it. */
  function Deleted(db: Db, id: RowId): Db {
    db.(rows := db.rows - {id}, links := map k | k in db.links && k.1 != id && db.links[k].target != id :: db.links[k])
  }

  lemma DeletedKeepsValid(db: Db, id: RowId)
    requires Valid(db)
    ensures Valid(Deleted(db, id))
  {
    var next := Deleted(db, id);
    forall a, b | a in next.rows && b in next.rows && SameSlot(next.rows[a], next.rows[b])
      ensures a == b
    {
      assert SameSlot(db.rows[a], db.rows[b]);
    }
    forall k | k in next.links
      ensures Placed(next, k.0, k.1, next.links[k].target)
    {
      assert Placed(db, k.0, k.1, db.links[k].target);
    }
  }

  // --------------------------------------------------------------------- scan reconciliation

  datatype Observation = Observation(path: Path, stat: Stat)

  /** A scan to reconcile: files and directories seen, unsupported entries, and its scope. */
  datatype Inventory = Inventory(
    location: Location, volume: string, seen: seq<Observation>, unsupported: seq<Path>,
    complete: bool, full: bool, selected: seq<Path>, at: nat, token: string, online: bool, payload: Digest)

  function Recorded(c: Inventory): seq<Observation> {
    NamedOnly(c.seen)
  }

  /** The root itself is not recorded. */
  function NamedOnly(seen: seq<Observation>): (r: seq<Observation>)
    ensures forall o :: o in r <==> o in seen && o.path != []
  {
    if seen == [] then []
    else
      var n := |seen| - 1;
      assert seen == seen[..n] + [seen[n]];
      NamedOnly(seen[..n]) + (if seen[n].path == [] then [] else [seen[n]])
  }

  function SeenAll(db: Db, c: Inventory, seen: seq<Observation>): (next: Db)
    requires Valid(db)
    ensures Valid(next)
  {
    if seen == [] then db
    else
      var n := |seen| - 1;
      var front := SeenAll(db, c, seen[..n]);
      UpsertKeepsValid(front, c.location, seen[n].path, seen[n].stat, c.at, c.token);
      Upsert(front, c.location, seen[n].path, seen[n].stat, c.at, c.token)
  }

  function UnsupportedAll(db: Db, c: Inventory, paths: seq<Path>): (next: Db)
    requires Valid(db)
    ensures Valid(next)
  {
    if paths == [] then db
    else
      var n := |paths| - 1;
      var front := UnsupportedAll(db, c, paths[..n]);
      UnsupportedKeepsValid(front, c.location, paths[n], c.at, c.token);
      UpsertUnsupported(front, c.location, paths[n], c.at, c.token)
  }

  function SeenKeys(c: Inventory): set<Key> {
    set o | o in Recorded(c) :: Fold(o.path)
  }

  function UnsupportedKeys(c: Inventory): set<Key> {
    set p | p in c.unsupported :: Fold(p)
  }

  function ObservedKeys(c: Inventory): set<Key> {
    SeenKeys(c) + UnsupportedKeys(c)
  }

  /** No key is observed twice, in either list. */
  predicate DistinctKeys(c: Inventory) {
    && (forall i, j :: 0 <= i < j < |Recorded(c)| ==> Fold(Recorded(c)[i].path) != Fold(Recorded(c)[j].path))
    && (forall i, j :: 0 <= i < j < |c.unsupported| ==> Fold(c.unsupported[i]) != Fold(c.unsupported[j]))
    && SeenKeys(c) !! UnsupportedKeys(c)
  }

  predicate Vanished(c: Inventory, row: Row) {
    if c.full then row.presence != Missing && Fold(row.path) !in ObservedKeys(c)
    else row.presence == Present && Fold(row.path) !in ObservedKeys(c) && exists p :: p in c.selected && Fold(p) == Fold(row.path)
  }

  function Reconciled(db: Db, c: Inventory): (r: Transaction<()>)
    requires Valid(db)
    ensures r.Commit? ==> Valid(r.db)
  {
    var seen := UnsupportedAll(SeenAll(db, c, Recorded(c)), c, c.unsupported);
    if !c.complete then Commit(seen, ())
    else if c.full && !DistinctKeys(c) then Rollback
    else
      MarkMissingKeepsValid(seen, c.location, (row: Row) => Vanished(c, row), c.at, c.token);
      Commit(MarkMissing(seen, c.location, (row: Row) => Vanished(c, row), c.at, c.token), ())
  }

  // ------------------------------------------------------------ what reconciliation changes

  /** Between two ledgers: rows of other locations are the same, no row or attestation disappears. */
  ghost predicate Confined(before: Db, after: Db, location: Location) {
    && (forall id :: id in before.rows ==> id in after.rows && after.rows[id].location == before.rows[id].location)
    && (forall id :: id in before.rows ==> after.rows[id].attestation == before.rows[id].attestation && after.rows[id].verifiedAt == before.rows[id].verifiedAt)
    && (forall id :: id in before.rows && before.rows[id].location != location ==> after.rows[id] == before.rows[id])
    && (forall id :: id in after.rows && id !in before.rows ==> after.rows[id].location == location && after.rows[id].attestation.None?)
    && after.links == before.links && after.mappings == before.mappings
  }

  lemma ConfinedTransitive(a: Db, b: Db, c: Db, location: Location)
    requires Confined(a, b, location) && Confined(b, c, location)
    ensures Confined(a, c, location)
  {
  }

  lemma StoredConfined(db: Db, id: Option<RowId>, row: Row)
    requires Numbered(db)
    requires if id.None? then row.attestation.None?
             else id.value in db.rows && db.rows[id.value].location == row.location
                  && row.attestation == db.rows[id.value].attestation && row.verifiedAt == db.rows[id.value].verifiedAt
    ensures Confined(db, Stored(db, id, row), row.location)
  {
  }

  lemma UpsertConfined(db: Db, location: Location, path: Path, stat: Stat, at: nat, token: string)
    requires Valid(db)
    ensures Confined(db, Upsert(db, location, path, stat, at, token), location)
  {
    var id := Find(db.rows, location, Fold(path));
    StoredConfined(db, id, Seen(RowAt(db, id), location, path, stat, at, token));
  }

  lemma UpsertUnsupportedConfined(db: Db, location: Location, path: Path, at: nat, token: string)
    requires Valid(db)
    ensures Confined(db, UpsertUnsupported(db, location, path, at, token), location)
  {
    var id := Find(db.rows, location, Fold(path));
    StoredConfined(db, id, SeenUnsupported(RowAt(db, id), location, path, at, token));
  }

  lemma {:induction false} SeenAllConfined(db: Db, c: Inventory, seen: seq<Observation>)
    requires Valid(db)
    ensures Confined(db, SeenAll(db, c, seen), c.location)
  {
    if seen != [] {
      var n := |seen| - 1;
      SeenAllConfined(db, c, seen[..n]);
      var front := SeenAll(db, c, seen[..n]);
      UpsertConfined(front, c.location, seen[n].path, seen[n].stat, c.at, c.token);
      ConfinedTransitive(db, front, SeenAll(db, c, seen), c.location);
    }
  }

  lemma {:induction false} UnsupportedAllConfined(db: Db, c: Inventory, paths: seq<Path>)
    requires Valid(db)
    ensures Confined(db, UnsupportedAll(db, c, paths), c.location)
  {
    if paths != [] {
      var n := |paths| - 1;
      UnsupportedAllConfined(db, c, paths[..n]);
      var front := UnsupportedAll(db, c, paths[..n]);
      UpsertUnsupportedConfined(front, c.location, paths[n], c.at, c.token);
      ConfinedTransitive(db, front, UnsupportedAll(db, c, paths), c.location);
    }
  }

  lemma MarkMissingConfined(db: Db, location: Location, gone: Row -> bool, at: nat, token: string)
    ensures Confined(db, MarkMissing(db, location, gone, at, token), location)
  {
  }

  // ------------------------------------------------------------------ what a full scan leaves

  /** The slot of a key at a location holds a row with this presence. */
  ghost predicate Shows(db: Db, location: Location, key: Key, presence: Presence) {
    exists id :: id in db.rows && InSlot(db.rows[id], location, key) && db.rows[id].presence == presence
  }

  lemma StoredShowsItself(db: Db, location: Location, path: Path, row: Row, presence: Presence)
    requires Unique(db.rows) && Numbered(db) && row.location == location && row.path == path
    ensures Shows(Stored(db, Find(db.rows, location, Fold(path)), row), location, Fold(path), presence) <==> row.presence == presence
  {
    var id := Find(db.rows, location, Fold(path));
    var next := Stored(db, id, row);
    var mine := StoredId(db, id);
    assert next.rows[mine] == row && InSlot(next.rows[mine], location, Fold(path));
    forall other | other in next.rows && InSlot(next.rows[other], location, Fold(path))
      ensures other == mine
    {
      if other != mine {
        OwnSlot(db, location, path, other);
      }
    }
  }

  lemma StoredShowsOthers(db: Db, id: Option<RowId>, row: Row, location: Location, key: Key, presence: Presence)
    requires Numbered(db) && !InSlot(row, location, key) && (id.Some? ==> id.value in db.rows && !InSlot(db.rows[id.value], location, key))
    ensures Shows(Stored(db, id, row), location, key, presence) <==> Shows(db, location, key, presence)
  {
    var next := Stored(db, id, row);
    if Shows(db, location, key, presence) {
      var other :| other in db.rows && InSlot(db.rows[other], location, key) && db.rows[other].presence == presence;
      assert next.rows[other] == db.rows[other];
    }
    if Shows(next, location, key, presence) {
      var other :| other in next.rows && InSlot(next.rows[other], location, key) && next.rows[other].presence == presence;
      assert other in db.rows && db.rows[other] == next.rows[other];
    }
  }

  lemma StoredShows(db: Db, location: Location, path: Path, row: Row, key: Key, presence: Presence)
    requires Valid(db) && row.location == location && row.path == path
    ensures Shows(Stored(db, Find(db.rows, location, Fold(path)), row), location, key, presence) <==>
            if key == Fold(path) then row.presence == presence else Shows(db, location, key, presence)
  {
    if key == Fold(path) {
      StoredShowsItself(db, location, path, row, presence);
    } else {
      StoredShowsOthers(db, Find(db.rows, location, Fold(path)), row, location, key, presence);
    }
  }

  lemma {:induction false} SeenAllShows(db: Db, c: Inventory, seen: seq<Observation>, key: Key, presence: Presence)
    requires Valid(db)
    ensures Shows(SeenAll(db, c, seen), c.location, key, presence) <==>
            if exists o :: o in seen && Fold(o.path) == key then presence == Present else Shows(db, c.location, key, presence)
  {
    if seen != [] {
      var n := |seen| - 1;
      assert seen == seen[..n] + [seen[n]];
      SeenAllShows(db, c, seen[..n], key, presence);
      var front := SeenAll(db, c, seen[..n]);
      var id := Find(front.rows, c.location, Fold(seen[n].path));
      StoredShows(front, c.location, seen[n].path, Seen(RowAt(front, id), c.location, seen[n].path, seen[n].stat, c.at, c.token), key, presence);
    }
  }

  lemma {:induction false} UnsupportedAllShows(db: Db, c: Inventory, paths: seq<Path>, key: Key, presence: Presence)
    requires Valid(db)
    ensures Shows(UnsupportedAll(db, c, paths), c.location, key, presence) <==>
            if exists p :: p in paths && Fold(p) == key then presence == Unsupported else Shows(db, c.location, key, presence)
  {
    if paths != [] {
      var n := |paths| - 1;
      assert paths == paths[..n] + [paths[n]];
      UnsupportedAllShows(db, c, paths[..n], key, presence);
      var front := UnsupportedAll(db, c, paths[..n]);
      var id := Find(front.rows, c.location, Fold(paths[n]));
      StoredShows(front, c.location, paths[n], SeenUnsupported(RowAt(front, id), c.location, paths[n], c.at, c.token), key, presence);
    }
  }

  lemma MarkMissingShows(db: Db, location: Location, gone: Row -> bool, at: nat, token: string, key: Key, presence: Presence)
    requires presence != Missing && forall row: Row, other: Row :: Fold(row.path) == Fold(other.path) && row.presence == other.presence ==> gone(row) == gone(other)
    ensures Shows(MarkMissing(db, location, gone, at, token), location, key, presence) <==>
            exists id :: id in db.rows && InSlot(db.rows[id], location, key) && db.rows[id].presence == presence && !gone(db.rows[id])
  {
    var next := MarkMissing(db, location, gone, at, token);
    if Shows(next, location, key, presence) {
      var id :| id in next.rows && InSlot(next.rows[id], location, key) && next.rows[id].presence == presence;
      assert next.rows[id] == db.rows[id];
    }
    if exists id :: id in db.rows && InSlot(db.rows[id], location, key) && db.rows[id].presence == presence && !gone(db.rows[id]) {
      var id :| id in db.rows && InSlot(db.rows[id], location, key) && db.rows[id].presence == presence && !gone(db.rows[id]);
      assert next.rows[id] == db.rows[id];
    }
  }

  /** After a complete full scan is reconciled, a location's present rows are exactly the files and
      directories seen, its unsupported rows exactly the unsupported entries; other locations, links
      and attestations are untouched. */
  lemma FullScanIsMirrored(db: Db, c: Inventory, key: Key)
    requires Valid(db) && c.complete && c.full && Reconciled(db, c).Commit?
    ensures Shows(Reconciled(db, c).db, c.location, key, Present) <==> key in SeenKeys(c)
    ensures Shows(Reconciled(db, c).db, c.location, key, Unsupported) <==> key in UnsupportedKeys(c)
    ensures Confined(db, Reconciled(db, c).db, c.location)
  {
    var mid := SeenAll(db, c, Recorded(c));
    var seen := UnsupportedAll(mid, c, c.unsupported);
    var gone := (row: Row) => Vanished(c, row);
    SeenAllShows(db, c, Recorded(c), key, Present);
    SeenAllShows(db, c, Recorded(c), key, Unsupported);
    UnsupportedAllShows(mid, c, c.unsupported, key, Present);
    UnsupportedAllShows(mid, c, c.unsupported, key, Unsupported);
    MarkMissingShows(seen, c.location, gone, c.at, c.token, key, Present);
    MarkMissingShows(seen, c.location, gone, c.at, c.token, key, Unsupported);
    FullScanConfined(db, c);
    NotVanished(seen, c, key, Present);
    NotVanished(seen, c, key, Unsupported);
  }

  lemma NotVanished(seen: Db, c: Inventory, key: Key, presence: Presence)
    requires c.full && presence != Missing
    ensures (exists id :: id in seen.rows && InSlot(seen.rows[id], c.location, key) && seen.rows[id].presence == presence && !Vanished(c, seen.rows[id]))
            <==> Shows(seen, c.location, key, presence) && key in ObservedKeys(c)
  {
    if Shows(seen, c.location, key, presence) && key in ObservedKeys(c) {
      var id :| id in seen.rows && InSlot(seen.rows[id], c.location, key) && seen.rows[id].presence == presence;
      assert !Vanished(c, seen.rows[id]);
    }
  }

  lemma FullScanConfined(db: Db, c: Inventory)
    requires Valid(db) && c.complete && Reconciled(db, c).Commit?
    ensures Confined(db, Reconciled(db, c).db, c.location)
  {
    var mid := SeenAll(db, c, Recorded(c));
    var seen := UnsupportedAll(mid, c, c.unsupported);
    SeenAllConfined(db, c, Recorded(c));
    UnsupportedAllConfined(mid, c, c.unsupported);
    MarkMissingConfined(seen, c.location, (row: Row) => Vanished(c, row), c.at, c.token);
    ConfinedTransitive(db, mid, seen, c.location);
    ConfinedTransitive(db, seen, Reconciled(db, c).db, c.location);
  }
}
