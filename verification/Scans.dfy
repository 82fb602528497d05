/** Scan results, sync options and the recorded correspondence a plan is made from. */
module Scans {
  import opened Paths
  import opened Model
  import opened Order

  datatype VolumeId = VolumeId(serial: string, fsType: string)

  datatype Profile = Profile(granularity: nat, stableIdentity: bool, hardlinks: bool)

  datatype FileRecord = FileRecord(path: Path, size: nat, mtime: nat, identity: Option<Identity>, nlink: nat, metadata: Metadata)

  datatype DirRecord = DirRecord(path: Path, mtime: nat, metadata: Metadata, identity: Option<Identity>, nlink: nat)

  function FileStat(f: FileRecord): Stat {
    Stat(FileEntry, f.size, f.mtime, f.identity, f.nlink, f.metadata)
  }

  function DirStat(d: DirRecord): Stat {
    Stat(DirectoryEntry, 0, d.mtime, d.identity, d.nlink, d.metadata)
  }

  /** The root itself is recorded as the directory with the empty path. */
  datatype Scan = Scan(
    files: seq<FileRecord>,
    dirs: seq<DirRecord>,
    unsupported: seq<Path>,
    profile: Profile,
    volume: Option<VolumeId>)

  datatype DeletionPolicy = TrashExtras | Additive | Mirror

  /** `matches` says whether some filter pattern matches a key. */
  datatype Options = Options(deletion: DeletionPolicy, trashOnUpdate: bool, propagateCasing: bool, matches: Key -> bool)

  /** A path is filtered when a pattern matches it or one of its ancestors. */
  predicate Excludes(options: Options, path: Path) {
    exists n | 1 <= n <= |path| :: options.matches(Fold(path)[..n])
  }

  datatype MappingPair = MappingPair(target: Path, sourceIdentity: Identity, targetIdentity: Option<Identity>)

  datatype Mapping = Mapping(
    sourceVolume: Option<VolumeId>,
    targetVolume: Option<VolumeId>,
    pairs: seq<MappingPair>,
    ambiguous: set<Key>,
    disqualifiedSource: set<Identity>,
    disqualifiedTarget: set<Identity>)

  // -------------------------------------------------------------- sort keys

  function Texts(path: Path): seq<string> {
    seq(|path|, i requires 0 <= i < |path| => path[i].text)
  }

  function Joined(parts: seq<string>): string {
    if parts == [] then "" else KeyText(parts)
  }

  function PathRank(level: int, path: Path): Rank {
    Rank(level, Joined(Fold(path)), Joined(Texts(path)))
  }

  function ByPath(path: Path): Rank { PathRank(0, path) }
  function ByDepth(path: Path): Rank { PathRank(|path|, path) }
  function FileByPath(f: FileRecord): Rank { ByPath(f.path) }
  function DirByDepth(d: DirRecord): Rank { ByDepth(d.path) }
  function DirByHeight(d: DirRecord): Rank { PathRank(-|d.path|, d.path) }

  /** A scan with its records in the planner's order. */
  function Canonical(s: Scan): Scan {
    s.(files := SortBy(s.files, FileByPath),
       dirs := SortBy(s.dirs, DirByDepth),
       unsupported := SortBy(s.unsupported, ByPath))
  }
}
