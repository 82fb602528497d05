/** Stat evidence, planned operations and reviewed plans. */
module Model {
  import opened Paths

  newtype Byte = b: int | 0 <= b < 256
  type Bytes = seq<Byte>

  datatype EntryKind = FileEntry | DirectoryEntry

  datatype Identity = Identity(volume: string, index: nat)

  /** The attribute word split into the three bits the executor writes and the rest. */
  datatype Attributes = Attributes(readonly: bool, hidden: bool, system: bool, others: nat)

  datatype Metadata = Metadata(attributes: Attributes, created: Option<nat>)

  datatype Stat = Stat(kind: EntryKind, size: nat, mtime: nat, identity: Option<Identity>, nlink: nat, metadata: Metadata)

  datatype OperationKind = Copy | Update | Move | MoveUpdate | Recase | Mkdir | Trash | Delete | Noop

  datatype OperationReason =
    | SourceOnly | MetadataChanged | MetadataMatch | IdentityRename | IdentityRenameChanged
    | RequiredDirectory | TargetOnly | DirectoryCleanup | UnsupportedEntry | CaseMismatch
    | UnicodeNormalizationMismatch | CaseCollision | TypeCollision | PolicyCollision

  datatype BlockedReason =
    | BlockedUnsupported | BlockedCaseCollision | BlockedTypeCollision
    | BlockedDestinationCollision | BlockedDependency

  /** An operation id is a digest of the operation's intent; it is modelled as the intent itself. */
  datatype OpId = OpId(kind: OperationKind, source: Option<Path>, target: Path, prior: Option<Path>, reason: OperationReason)

  datatype Operation = Operation(
    id: OpId,
    kind: OperationKind,
    source: Option<Path>,
    target: Path,
    sourceExpected: Option<Stat>,
    targetExpected: Option<Stat>,
    intended: Option<Stat>,
    prior: Option<Path>,
    priorExpected: Option<Stat>,
    contentBytes: nat,
    dependencies: seq<OpId>,
    reason: OperationReason,
    blocked: Option<BlockedReason>)

  datatype Outcome = Succeeded | Failed | Canceled | Deferred | Blocked | Skipped

  predicate CopiesContent(kind: OperationKind) {
    kind == Copy || kind == Update || kind == MoveUpdate
  }

  /** Ids of a sequence of operations, in order. */
  function Ids(ops: seq<Operation>): (ids: seq<OpId>)
    ensures |ids| == |ops|
    ensures forall i :: 0 <= i < |ops| ==> ids[i] == ops[i].id
  {
    seq(|ops|, i requires 0 <= i < |ops| => ops[i].id)
  }

  predicate UniqueIds(ops: seq<Operation>) {
    forall i, j :: 0 <= i < j < |ops| ==> ops[i].id != ops[j].id
  }

  /** Every dependency names an operation that comes earlier. */
  predicate DependencyOrdered(ops: seq<Operation>) {
    forall i, d :: 0 <= i < |ops| && d in ops[i].dependencies ==> d in Ids(ops[..i])
  }
}
