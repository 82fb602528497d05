/** Progress counters of one executor call. */
module Progress {
  import opened Paths
  import opened Model

  datatype Snapshot = Snapshot(items: nat, bytes: nat)

  function Min(a: nat, b: nat): nat { if a <= b then a else b }
  function Max(a: nat, b: nat): nat { if a <= b then b else a }

  /** Content bytes of the operations whose id is in `ids`. */
  function ContentBytes(ops: seq<Operation>, ids: set<OpId>): nat {
    if ops == [] then 0
    else (if ops[0].id in ids && CopiesContent(ops[0].kind) then ops[0].contentBytes else 0) + ContentBytes(ops[1..], ids)
  }

  lemma {:induction false} ContentBytesMonotone(ops: seq<Operation>, a: set<OpId>, b: set<OpId>)
    requires a <= b
    ensures ContentBytes(ops, a) <= ContentBytes(ops, b)
  {
    if ops != [] {
      ContentBytesMonotone(ops[1..], a, b);
    }
  }

  /** Reports never go back, and stay within the given counts. */
  predicate Climbing(reports: seq<Snapshot>, items: nat, bytes: nat) {
    && (forall i, j :: 0 <= i <= j < |reports| ==> reports[i].items <= reports[j].items && reports[i].bytes <= reports[j].bytes)
    && (forall i :: 0 <= i < |reports| ==> reports[i].items <= items && reports[i].bytes <= bytes)
  }

  lemma ClimbingWider(reports: seq<Snapshot>, items: nat, bytes: nat, items': nat, bytes': nat)
    requires Climbing(reports, items, bytes) && items <= items' && bytes <= bytes'
    ensures Climbing(reports, items', bytes')
  {
  }

  class ProgressTracker {
    const itemsTotal: nat
    const bytesTotal: nat
    var itemsDone: nat
    var bytesDone: nat
    var committed: nat
    var fileBytes: nat
    var current: Option<Operation>
    /** Everything reported so far, in order. */
    ghost var reported: seq<Snapshot>

    /** Counters stay within their totals, and reports never go back. */
    ghost predicate Valid()
      reads this
    {
      && itemsDone <= itemsTotal
      && bytesDone <= bytesTotal
      && committed <= bytesDone
      && Climbing(reported, itemsDone, bytesDone)
    }

    /** Nothing was settled, and byte counts only went up. */
    twostate predicate Advanced()
      reads this
    {
      && Valid()
      && itemsDone == old(itemsDone)
      && old(bytesDone) <= bytesDone
      && old(reported) <= reported
    }

    constructor (ops: seq<Operation>, selection: set<OpId>, status: map<OpId, Outcome>)
      requires status.Keys <= selection
      ensures Valid() && itemsTotal == |selection| && itemsDone == |status|
      ensures bytesTotal == ContentBytes(ops, selection) && reported == []
      ensures bytesDone == ContentBytes(ops, set id | id in status && status[id] == Succeeded)
    {
      var settled := set id | id in status && status[id] == Succeeded;
      itemsTotal := |selection|;
      itemsDone := |status|;
      bytesTotal := ContentBytes(ops, selection);
      committed := ContentBytes(ops, settled);
      bytesDone := Min(ContentBytes(ops, settled), ContentBytes(ops, selection));
      fileBytes := 0;
      current := None;
      reported := [];
      ContentBytesMonotone(ops, settled, selection);
      CardinalityMonotone(status.Keys, selection);
    }

    method Start(op: Operation)
      requires Valid()
      modifies this
      ensures Valid() && itemsDone == old(itemsDone) && bytesDone == old(bytesDone)
      ensures old(reported) <= reported && current == Some(op) && fileBytes == 0 && committed == old(committed)
    {
      current := Some(op);
      fileBytes := 0;
      Emit();
    }

    /** Bytes copied for the current operation count up to its planned size. */
    method Copied(size: nat)
      requires Valid()
      modifies this
      ensures Advanced()
      ensures current == old(current) && fileBytes == old(fileBytes) + size && committed == old(committed)
      ensures current.Some? ==> bytesDone == Max(old(bytesDone), Min(bytesTotal, committed + Min(fileBytes, current.value.contentBytes)))
    {
      fileBytes := fileBytes + size;
      var planned := if current.Some? then current.value.contentBytes else 0;
      var candidate := Min(bytesTotal, committed + Min(fileBytes, planned));
      bytesDone := Max(bytesDone, candidate);
      Emit();
    }

    method Settled(op: Operation, outcome: Outcome)
      requires Valid() && itemsDone < itemsTotal
      modifies this
      ensures Valid() && itemsDone == old(itemsDone) + 1 && old(bytesDone) <= bytesDone && current == Some(op)
      ensures committed == if outcome == Succeeded && CopiesContent(op.kind) then Min(bytesTotal, old(committed) + op.contentBytes) else old(committed)
      ensures old(reported) <= reported
    {
      itemsDone := itemsDone + 1;
      if outcome == Succeeded && CopiesContent(op.kind) {
        committed := Min(bytesTotal, committed + op.contentBytes);
        bytesDone := Max(bytesDone, committed);
      }
      current := Some(op);
      Emit();
    }

    /** A report may be suppressed by pacing. */
    method Emit()
      requires Valid()
      modifies this`reported
      ensures Valid() && (reported == old(reported) || reported == old(reported) + [Snapshot(itemsDone, bytesDone)])
    {
      if * {
        reported := reported + [Snapshot(itemsDone, Min(bytesDone, bytesTotal))];
      }
    }
  }

  lemma {:induction false} CardinalityMonotone<T>(a: set<T>, b: set<T>)
    requires a <= b
    ensures |a| <= |b|
  {
    if a != {} {
      var x :| x in a;
      CardinalityMonotone(a - {x}, b - {x});
    }
  }
}
