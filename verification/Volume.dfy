/** The target volume: named file objects with links, and the primitives the executor is given.

Every primitive may fail before or after it takes effect.  The volume has no other writer, and
a ghost history keeps every state it went through. */
module Volume {
  import opened Paths
  import opened Model

  type RunId = string

  /** Where an entry lives: at a planned path, in a run's trash, or under the owned temporary
      name an operation of a run derives from another place. */
  datatype Place =
    | Live(key: Key)
    | Trashed(run: RunId, key: Key)
    | TempOf(base: Place, run: RunId, op: OpId)

  datatype FileObject = FileObject(bytes: Bytes, mtime: nat, metadata: Metadata)

  datatype Entry = File(id: nat) | Directory(stat: Stat)

  /** `newBits` is the word of other attribute bits that the volume gives every new file. */
  datatype World = World(entries: map<Place, Entry>, files: map<nat, FileObject>, nextId: nat, newBits: nat)

  datatype ExecutionReason =
    | SourceMissing | SourceDrift | TargetMissing | TargetDrift | DestinationOccupied | WrongType
    | TrashCollision | UnsafePath | AclCopyFailed | CleanupFailed | RecorderFailed | UnsupportedKind

  datatype Error = AlreadyExists | NotFound | IoError | Failure(reason: ExecutionReason) | CancelRequested | PauseRequested

  datatype Result<+T> = Ok(value: T) | Err(error: Error) {
    predicate IsFailure() { Err? }
    function PropagateFailure<U>(): Result<U> requires Err? { Err(error) }
    function Extract(): T requires Ok? { value }
  }

  datatype Unit = Unit

  // ------------------------------------------------------------------ states

  function LinkedIds(entries: map<Place, Entry>): set<nat> {
    set p | p in entries && entries[p].File? :: entries[p].id
  }

  /** Names lead to stored objects, stored objects have a name, and ids are handed out in order. */
  ghost predicate Sound(w: World) {
    && (forall p :: p in w.entries && w.entries[p].File? ==> w.entries[p].id in w.files)
    && (forall id :: id in w.files ==> id in LinkedIds(w.entries) && id < w.nextId)
  }

  predicate HasFile(w: World, p: Place) {
    p in w.entries && w.entries[p].File? && w.entries[p].id in w.files
  }

  function BytesAt(w: World, p: Place): Bytes
    requires HasFile(w, p)
  {
    w.files[w.entries[p].id].bytes
  }

  function StatAt(w: World, serial: string, p: Place): (s: Option<Stat>)
    ensures s.None? <==> p !in w.entries || (w.entries[p].File? && w.entries[p].id !in w.files)
    ensures s.Some? && w.entries[p].File? ==>
              && s.value.kind == FileEntry
              && s.value.size == |BytesAt(w, p)|
              && s.value.identity == Some(Identity(serial, w.entries[p].id))
    ensures s.Some? && w.entries[p].Directory? ==> s.value.kind == DirectoryEntry
  {
    if p !in w.entries then None
    else match w.entries[p]
      case Directory(stat) => Some(stat.(kind := DirectoryEntry))
      case File(id) =>
        if id !in w.files then None
        else
          var o := w.files[id];
          var links := set q | q in w.entries && w.entries[q] == File(id);
          Some(Stat(FileEntry, |o.bytes|, o.mtime, Some(Identity(serial, id)), |links|, o.metadata))
  }

  /** The planned-path position of a place; a temporary sits beside the place it derives from. */
  function LiveKey(p: Place): Option<Key> {
    match p
    case Live(key) => Some(key)
    case Trashed(_, _) => None
    case TempOf(base, _, _) => LiveKey(base)
  }

  ghost predicate IsEmptyDirectory(w: World, p: Place) {
    && p in w.entries && w.entries[p].Directory? && p.Live?
    && forall q :: q in w.entries && LiveKey(q).Some? ==> !Beneath(LiveKey(q).value, p.key)
  }

  // ----------------------------------------------------------------- effects

  /** Keep the objects that still have a name. */
  function Collected(entries: map<Place, Entry>, files: map<nat, FileObject>): map<nat, FileObject> {
    map id | id in files && id in LinkedIds(entries) :: files[id]
  }

  predicate CanRename(w: World, a: Place, b: Place) {
    a in w.entries && b !in w.entries
  }

  function Renamed(w: World, a: Place, b: Place): World
    requires CanRename(w, a, b)
  {
    w.(entries := (w.entries - {a})[b := w.entries[a]])
  }

  predicate CanReplace(w: World, a: Place, b: Place) {
    HasFile(w, a) && a != b && (b in w.entries ==> w.entries[b].File?)
  }

  function Replaced(w: World, a: Place, b: Place): World
    requires CanReplace(w, a, b)
  {
    var entries := (w.entries - {a})[b := w.entries[a]];
    w.(entries := entries, files := Collected(entries, w.files))
  }

  function Unlinked(w: World, p: Place): World {
    var entries := w.entries - {p};
    w.(entries := entries, files := Collected(entries, w.files))
  }

  predicate CanLink(w: World, a: Place, b: Place) {
    HasFile(w, a) && b !in w.entries
  }

  function Linked(w: World, a: Place, b: Place): World
    requires CanLink(w, a, b)
  {
    w.(entries := w.entries[b := w.entries[a]])
  }

  function Created(w: World, p: Place, o: FileObject): World
    requires p !in w.entries
  {
    w.(entries := w.entries[p := File(w.nextId)], files := w.files[w.nextId := o], nextId := w.nextId + 1)
  }

  function Stored(w: World, p: Place, o: FileObject): World
    requires HasFile(w, p)
  {
    w.(files := w.files[w.entries[p].id := o])
  }

  function WithDirectory(w: World, p: Place, stat: Stat): World {
    w.(entries := w.entries[p := Directory(stat)])
  }

  function OtherBits(o: FileObject): nat {
    o.metadata.attributes.others
  }

  /** A rewritten file object keeps the attribute bits that no operation writes. */
  predicate Rewrites(w: World, p: Place, o: FileObject, bytes: Bytes)
    requires HasFile(w, p)
  {
    o.bytes == bytes && OtherBits(o) == OtherBits(w.files[w.entries[p].id])
  }

  function Unlocked(o: FileObject): FileObject {
    o.(metadata := o.metadata.(attributes := o.metadata.attributes.(readonly := false)))
  }

  /** The entry at `p` without its read-only bit. */
  function Unprotected(w: World, p: Place): World
    requires p in w.entries && (w.entries[p].File? ==> w.entries[p].id in w.files)
  {
    match w.entries[p]
    case File(id) => Stored(w, p, Unlocked(w.files[id]))
    case Directory(s) => WithDirectory(w, p, s.(metadata := s.metadata.(attributes := s.metadata.attributes.(readonly := false))))
  }

  /** Standard attribute bits replaced, the others kept. */
  function Attributed(current: Attributes, desired: Attributes, applyReadonly: bool): Attributes {
    Attributes(desired.readonly && applyReadonly, desired.hidden, desired.system, current.others)
  }

  /** Metadata application in its three steps: times, creation time, attributes. */
  function Dressed(m: Metadata, wanted: Metadata, preserveCreated: bool, applyReadonly: bool, steps: nat): Metadata {
    Metadata(
      if steps >= 3 then Attributed(m.attributes, wanted.attributes, applyReadonly) else m.attributes,
      if steps >= 2 && preserveCreated && wanted.created.Some? then wanted.created else m.created)
  }

  function Retouched(w: World, p: Place, stat: Stat, preserveCreated: bool, applyReadonly: bool, steps: nat): World
    requires p in w.entries && (w.entries[p].File? ==> w.entries[p].id in w.files)
  {
    match w.entries[p]
    case File(id) =>
      var o := w.files[id];
      w.(files := w.files[id := FileObject(
        o.bytes,
        if steps >= 1 then stat.mtime else o.mtime,
        Dressed(o.metadata, stat.metadata, preserveCreated, applyReadonly, steps))])
    case Directory(s) =>
      w.(entries := w.entries[p := Directory(s.(
        mtime := if steps >= 1 then stat.mtime else s.mtime,
        metadata := Dressed(s.metadata, stat.metadata, preserveCreated, applyReadonly, steps)))])
  }

  // -------------------------------------------------------------- primitives

  class TargetVolume {
    const serial: string
    var world: World
    ghost var history: seq<World>
    /** Everything recorded of earlier operations would survive a crash. */
    ghost var durable: bool
    /** How many primitives have failed for a reason of their own. */
    ghost var faults: nat

    /** The history ends with the present state. */
    ghost predicate Logged()
      reads this
    {
      history != [] && history[|history| - 1] == world
    }

    constructor (serial: string, world: World)
      ensures this.serial == serial && this.world == world && history == [world]
    {
      this.serial, this.world, this.history, durable, faults := serial, world, [world], true, 0;
    }

    method StatPath(p: Place) returns (r: Result<Option<Stat>>)
      ensures r.Ok? ==> r.value == StatAt(world, serial, p)
    {
      if * {
        return Err(IoError);
      }
      return Ok(StatAt(world, serial, p));
    }

    /** Path resolution may refuse a path; it never changes anything. */
    method Resolve(p: Place, mustExist: bool) returns (r: Result<Unit>)
      ensures r.Ok? && mustExist ==> p in world.entries
    {
      if * {
        return Err(Failure(UnsafePath));
      }
      if mustExist && p !in world.entries {
        return Err(NotFound);
      }
      return Ok(Unit);
    }

    /** Stands for flushes and security-descriptor copies: they change nothing that is modelled. */
    method Durable() returns (r: Result<Unit>)
    {
      if * {
        return Err(IoError);
      }
      return Ok(Unit);
    }

    /** Rename that never replaces; also the conditional publish of a temporary. */
    method RenameNew(a: Place, b: Place) returns (r: Result<Unit>)
      modifies this`world, this`history, this`faults
      ensures history == old(history) + [world]
      ensures world == old(world) || (CanRename(old(world), a, b) && world == Renamed(old(world), a, b))
      ensures r.Ok? ==> CanRename(old(world), a, b) && world == Renamed(old(world), a, b)
    {
      r := Ok(Unit);
      if * {
        r := Err(IoError);
      } else if b in world.entries {
        r := Err(AlreadyExists);
      } else if a !in world.entries {
        r := Err(NotFound);
      } else {
        world := Renamed(world, a, b);
        if * {
          r := Err(IoError);
        }
      }
      history := history + [world];
    }

    /** Rename an entry away from where it may be looked for. */
    method RenameAway(a: Place, b: Place) returns (r: Result<Unit>)
      requires durable
      modifies this`world, this`history, this`faults
      ensures history == old(history) + [world]
      ensures world == old(world) || (CanRename(old(world), a, b) && world == Renamed(old(world), a, b))
      ensures r.Ok? ==> CanRename(old(world), a, b) && world == Renamed(old(world), a, b)
    {
      r := RenameNew(a, b);
    }

    /** Rename an entry to another spelling of its name, which the keyed volume does not hold. */
    method Respell() returns (r: Result<Unit>)
      requires durable
    {
      if * {
        return Err(IoError);
      }
      return Ok(Unit);
    }

    /** A look at the volume that failed counts as well. */
    ghost method Blame()
      modifies this`faults
      ensures faults == old(faults) + 1
    {
      faults := faults + 1;
    }

    /** Atomic replacement of a file by another. */
    method Replace(a: Place, b: Place) returns (r: Result<Unit>)
      requires durable
      modifies this`world, this`history, this`faults
      ensures history == old(history) + [world]
      ensures world == old(world) || (CanReplace(old(world), a, b) && world == Replaced(old(world), a, b))
      ensures r.Ok? ==> CanReplace(old(world), a, b) && world == Replaced(old(world), a, b)
      ensures old(faults) <= faults <= old(faults) + 1 && (r.Ok? ==> faults == old(faults))
      ensures r.Err? && CanReplace(old(world), a, b) ==> faults == old(faults) + 1
    {
      r := Ok(Unit);
      if * {
        r, faults := Err(IoError), faults + 1;
      } else if !CanReplace(world, a, b) {
        r := Err(NotFound);
      } else {
        world := Replaced(world, a, b);
        if * {
          r, faults := Err(IoError), faults + 1;
        }
      }
      history := history + [world];
    }

    method Hardlink(a: Place, b: Place) returns (r: Result<Unit>)
      modifies this`world, this`history, this`faults
      ensures history == old(history) + [world]
      ensures world == old(world) || (CanLink(old(world), a, b) && world == Linked(old(world), a, b))
      ensures r.Ok? ==> CanLink(old(world), a, b) && world == Linked(old(world), a, b)
    {
      r := Ok(Unit);
      if * {
        r := Err(IoError);
      } else if !CanLink(world, a, b) {
        r := Err(AlreadyExists);
      } else {
        world := Linked(world, a, b);
        if * {
          r := Err(IoError);
        }
      }
      history := history + [world];
    }

    /** Exclusive creation of an empty file; times and standard attributes are the system's choice. */
    method CreateNew(p: Place) returns (r: Result<Unit>)
      modifies this`world, this`history, this`faults
      ensures history == old(history) + [world]
      ensures world == old(world) || (p !in old(world).entries && exists o: FileObject :: o.bytes == [] && OtherBits(o) == old(world).newBits && world == Created(old(world), p, o))
      ensures r.Ok? ==> p !in old(world).entries && world != old(world)
    {
      r := Ok(Unit);
      if * {
        r := Err(IoError);
      } else if p in world.entries {
        r := Err(AlreadyExists);
      } else {
        var mtime: nat, metadata: Metadata := *, *;
        var o := FileObject([], mtime, metadata.(attributes := metadata.attributes.(others := world.newBits)));
        world := Created(world, p, o);
        if * {
          r := Err(IoError);
        }
      }
      history := history + [world];
    }

    /** Append some prefix of `data` to the file at `p`, possibly nothing. */
    method Write(p: Place, data: Bytes) returns (r: Result<nat>, ghost written: nat)
      requires HasFile(world, p)
      modifies this`world, this`history, this`faults
      ensures history == old(history) + [world]
      ensures written <= |data| && (r.Ok? ==> r.value == written)
      ensures exists o: FileObject :: Rewrites(old(world), p, o, BytesAt(old(world), p) + data[..written]) && world == Stored(old(world), p, o)
    {
      var n: int :| 0 <= n <= |data|;
      var mtime: nat := *;
      var o := world.files[world.entries[p].id];
      o := o.(bytes := o.bytes + data[..n], mtime := mtime);
      world := Stored(world, p, o);
      history := history + [world];
      written := n;
      if * {
        r := Err(IoError);
      } else {
        r := Ok(n);
      }
    }

    method ApplyMetadata(p: Place, stat: Stat, preserveCreated: bool, applyReadonly: bool) returns (r: Result<Unit>)
      requires Sound(world)
      modifies this`world, this`history, this`faults
      ensures history == old(history) + [world]
      ensures world == old(world) || (p in old(world).entries && exists steps: nat :: world == Retouched(old(world), p, stat, preserveCreated, applyReadonly, steps))
      ensures r.Ok? ==> p in old(world).entries && world == Retouched(old(world), p, stat, preserveCreated, applyReadonly, 3)
      ensures old(faults) <= faults <= old(faults) + 1 && (r.Ok? ==> faults == old(faults))
      ensures r.Err? && p in old(world).entries ==> faults == old(faults) + 1
    {
      var steps: nat := *;
      r := Ok(Unit);
      if * {
        r, faults := Err(IoError), faults + 1;
      } else if p !in world.entries {
        r := Err(NotFound);
      } else if * {
        world := Retouched(world, p, stat, preserveCreated, applyReadonly, steps);
        r, faults := Err(IoError), faults + 1;
      } else {
        world := Retouched(world, p, stat, preserveCreated, applyReadonly, 3);
      }
      history := history + [world];
    }

    method ClearReadonly(p: Place) returns (r: Result<Unit>)
      requires Sound(world)
      modifies this`world, this`history, this`faults
      ensures history == old(history) + [world]
      ensures world == old(world) || (p in old(world).entries && world == Unprotected(old(world), p))
      ensures r.Ok? ==> p in old(world).entries && world == Unprotected(old(world), p)
      ensures old(faults) <= faults <= old(faults) + 1 && (r.Ok? ==> faults == old(faults))
      ensures r.Err? && p in old(world).entries ==> faults == old(faults) + 1
    {
      r := Ok(Unit);
      if * {
        r, faults := Err(IoError), faults + 1;
      } else if p !in world.entries {
        r := Err(NotFound);
      } else {
        world := Unprotected(world, p);
        if * {
          r, faults := Err(IoError), faults + 1;
        }
      }
      history := history + [world];
    }

    /** Removing an owned temporary that is not there succeeds. */
    method RemoveOwnedTemp(p: Place) returns (r: Result<Unit>)
      modifies this`world, this`history, this`faults
      ensures history == old(history) + [world]
      ensures world == old(world) || (p in old(world).entries && old(world).entries[p].File? && world == Unlinked(old(world), p))
      ensures r.Ok? ==> p !in world.entries
      ensures old(faults) <= faults && (r.Err? ==> faults > old(faults))
    {
      r := Ok(Unit);
      if * {
        r, faults := Err(IoError), faults + 1;
      } else if p in world.entries {
        if world.entries[p].Directory? {
          r, faults := Err(IoError), faults + 1;
        } else {
          world := Unlinked(world, p);
          if * {
            r, faults := Err(IoError), faults + 1;
          }
        }
      }
      history := history + [world];
    }

    method RemoveFile(p: Place) returns (r: Result<Unit>)
      requires durable
      modifies this`world, this`history, this`faults
      ensures history == old(history) + [world]
      ensures world == old(world) || (p in old(world).entries && old(world).entries[p].File? && world == Unlinked(old(world), p))
      ensures r.Ok? ==> p in old(world).entries && world == Unlinked(old(world), p)
      ensures old(faults) <= faults <= old(faults) + 1 && (r.Ok? ==> faults == old(faults))
      ensures r.Err? && p in old(world).entries && old(world).entries[p].File? ==> faults == old(faults) + 1
    {
      r := Ok(Unit);
      if * {
        r, faults := Err(IoError), faults + 1;
      } else if p !in world.entries || world.entries[p].Directory? {
        r := Err(NotFound);
      } else {
        world := Unlinked(world, p);
        if * {
          r, faults := Err(IoError), faults + 1;
        }
      }
      history := history + [world];
    }

    /** Only an empty directory can be removed. */
    method RemoveDirectory(p: Place) returns (r: Result<Unit>)
      requires durable
      modifies this`world, this`history, this`faults
      ensures history == old(history) + [world]
      ensures world == old(world) || (IsEmptyDirectory(old(world), p) && world == Unlinked(old(world), p))
      ensures r.Ok? ==> IsEmptyDirectory(old(world), p) && world == Unlinked(old(world), p)
      ensures old(faults) <= faults
    {
      r := Ok(Unit);
      var empty := p in world.entries && world.entries[p].Directory? && p.Live?
        && forall q | q in world.entries :: LiveKey(q).Some? ==> !Beneath(LiveKey(q).value, p.key);
      if * {
        r := Err(IoError);
      } else if !empty {
        r := Err(IoError);
      } else {
        world := Unlinked(world, p);
        if * {
          r := Err(IoError);
        }
      }
      history := history + [world];
    }

    method MakeDirectory(p: Place) returns (r: Result<Unit>)
      modifies this`world, this`history, this`faults
      ensures history == old(history) + [world]
      ensures world == old(world) || (p !in old(world).entries && exists s: Stat :: world == WithDirectory(old(world), p, s))
      ensures r.Ok? ==> p !in old(world).entries && world != old(world)
    {
      r := Ok(Unit);
      if * {
        r := Err(IoError);
      } else if p in world.entries {
        r := Err(AlreadyExists);
      } else {
        var s: Stat := *;
        world := WithDirectory(world, p, s);
        if * {
          r := Err(IoError);
        }
      }
      history := history + [world];
    }
  }
}
