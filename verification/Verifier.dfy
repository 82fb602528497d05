/** Integrity runs: every selected row gets one outcome, across pauses, resumes and cancellation. */
module Verifier {
  import opened Paths
  import opened Model

  datatype Mode = Baselining | Verifying | Rebaselining

  datatype RowState = RowPresent | RowMissing | RowUnsupported

  /** Retained evidence; a digest is modelled as the content it stands for. */
  datatype Baseline = Baseline(content: Bytes, subject: Stat)

  datatype Item = Item(id: string, pathValid: bool, state: RowState, expected: Option<Stat>, baseline: Option<Baseline>)

  datatype Finding = Verified | Baselined | Mismatched | Modified | Absent | NotSupported | Errored | CanceledItem

  datatype ItemOutcome = ItemOutcome(id: string, finding: Finding, degraded: bool)

  datatype Snapshot = Snapshot(itemsDone: nat, itemsTotal: nat, bytesDone: nat, bytesTotal: nat)

  datatype Ended = Returned(degraded: bool) | Paused | Canceled

  datatype Signal = Go | PauseNow | CancelNow

  datatype Processed = Done(outcome: ItemOutcome, bytesRead: nat) | Stopped(signal: Signal)

  predicate MatchesStat(expected: Stat, actual: Stat) {
    && expected.kind == actual.kind && expected.size == actual.size && expected.mtime == actual.mtime
    && (expected.identity.None? || expected.identity == actual.identity)
  }

  predicate SameSubject(before: Stat, after: Stat) {
    before.kind == after.kind && before.size == after.size && before.mtime == after.mtime && before.identity == after.identity
  }

  // ------------------------------------------------------------------------------ findings

  /** What a reader can fail with. */
  datatype Trouble = Vanished | Unreadable | Broken

  /** What a reader showed of a file: a failure to open it, what it was, its content, a failure on the way, and
      what it was afterwards. */
  datatype Sighting = Sighting(opening: Option<Trouble>, before: Stat, content: Bytes, closing: Option<Trouble>, after: Stat)

  /** Kind, size and time are the recorded ones, and so is the identity if one was recorded. */
  predicate Unchanged(recorded: Stat, shown: Stat) {
    && shown.kind == recorded.kind && shown.size == recorded.size && shown.mtime == recorded.mtime
    && (recorded.identity.Some? ==> shown.identity == recorded.identity)
  }

  /** The row is one that is read at all. */
  predicate Readable(item: Item, mode: Mode) {
    item.pathValid && item.state == RowPresent && item.expected.Some? && (mode == Baselining ==> item.baseline.None?)
  }

  /** The file was opened and is the recorded one, for a verification also the one of the baseline. */
  predicate Expected(item: Item, mode: Mode, seen: Sighting) {
    && Readable(item, mode) && seen.opening.None?
    && Unchanged(item.expected.value, seen.before)
    && (mode == Verifying && item.baseline.Some? ==> Unchanged(item.baseline.value.subject, seen.before))
  }

  /** It was read to its end, and was the same all the time. */
  predicate ReadWhole(item: Item, mode: Mode, seen: Sighting) {
    && Expected(item, mode, seen) && seen.closing.None?
    && seen.after == seen.before.(nlink := seen.after.nlink, metadata := seen.after.metadata)
    && |seen.content| == seen.before.size
  }

  predicate Fails(item: Item, mode: Mode, seen: Sighting, trouble: Trouble) {
    (Readable(item, mode) && seen.opening == Some(trouble)) || (Expected(item, mode, seen) && seen.closing == Some(trouble))
  }

  /** When a row is found to be what. */
  predicate Warrants(item: Item, mode: Mode, seen: Sighting, finding: Finding) {
    match finding
    case Verified => mode == Verifying && ReadWhole(item, mode, seen) && item.baseline.Some? && seen.content == item.baseline.value.content
    case Mismatched => mode == Verifying && ReadWhole(item, mode, seen) && item.baseline.Some? && seen.content != item.baseline.value.content
    case Baselined => ReadWhole(item, mode, seen) && (mode == Verifying ==> item.baseline.None?)
    case Modified =>
      && Readable(item, mode) && seen.opening.None?
      && (!Expected(item, mode, seen)
          || (seen.closing.None? && seen.after != seen.before.(nlink := seen.after.nlink, metadata := seen.after.metadata)))
    case Absent => item.pathValid && (item.state == RowMissing || Fails(item, mode, seen, Vanished))
    case NotSupported => item.pathValid && (item.state == RowUnsupported || Fails(item, mode, seen, Unreadable))
    case Errored =>
      || !item.pathValid
      || (item.state == RowPresent && !Readable(item, mode))
      || Fails(item, mode, seen, Broken)
      || (&& Expected(item, mode, seen) && seen.closing.None? && |seen.content| != seen.before.size
          && seen.after == seen.before.(nlink := seen.after.nlink, metadata := seen.after.metadata))
    case CanceledItem => false
  }

  /** This finding is warranted, and no other. */
  ghost predicate Finds(item: Item, mode: Mode, seen: Sighting, finding: Finding) {
    forall f :: Warrants(item, mode, seen, f) <==> f == finding
  }

  /** Whatever is shown of a row warrants exactly one finding. */
  lemma OneFinding(item: Item, mode: Mode, seen: Sighting) returns (finding: Finding)
    ensures Finds(item, mode, seen, finding)
  {
    if !item.pathValid || (item.state == RowPresent && !Readable(item, mode)) {
      finding := Errored;
    } else if item.state != RowPresent {
      finding := if item.state == RowMissing then Absent else NotSupported;
    } else if seen.opening.Some? || (Expected(item, mode, seen) && seen.closing.Some?) {
      var trouble := if seen.opening.Some? then seen.opening.value else seen.closing.value;
      finding := match trouble case Vanished => Absent case Unreadable => NotSupported case Broken => Errored;
    } else if !Expected(item, mode, seen) || seen.after != seen.before.(nlink := seen.after.nlink, metadata := seen.after.metadata) {
      finding := Modified;
    } else if |seen.content| != seen.before.size {
      finding := Errored;
    } else if mode == Verifying && item.baseline.Some? {
      finding := if seen.content == item.baseline.value.content then Verified else Mismatched;
    } else {
      finding := Baselined;
    }
  }

  predicate Evidences(items: seq<Item>, mode: Mode, seen: Sighting, e: ItemOutcome) {
    exists k :: 0 <= k < |items| && items[k].id == e.id && Warrants(items[k], mode, seen, e.finding)
  }

  lemma FoundIsEvidence(items: seq<Item>, k: nat, mode: Mode, seen: Sighting, e: ItemOutcome)
    requires k < |items| && items[k].id == e.id && Finds(items[k], mode, seen, e.finding)
    ensures Evidences(items, mode, seen, e)
  {
    assert Warrants(items[k], mode, seen, e.finding);
  }

  lemma WarrantedIsFound(item: Item, mode: Mode, seen: Sighting, finding: Finding)
    requires Warrants(item, mode, seen, finding)
    ensures Finds(item, mode, seen, finding)
  {
    var one := OneFinding(item, mode, seen);
  }

  /** From position `n` on, each event reports what was found at the corresponding sighting. */
  ghost predicate AllEvidenced(items: seq<Item>, mode: Mode, events: seq<ItemOutcome>, n: nat, seen: seq<Sighting>) {
    n + |seen| <= |events| && forall i :: 0 <= i < |seen| ==> Evidences(items, mode, seen[i], events[n + i])
  }

  /** The events of a call: first what was found, and then, only if it was canceled, cancellations. */
  ghost predicate AllReported(items: seq<Item>, mode: Mode, events: seq<ItemOutcome>, n: nat, seen: seq<Sighting>, end: Ended) {
    && AllEvidenced(items, mode, events, n, seen) && CanceledSince(events, n + |seen|)
    && (!end.Canceled? ==> |events| == n + |seen|)
  }

  lemma AllEvidencedNext(items: seq<Item>, mode: Mode, events: seq<ItemOutcome>, n: nat, seen: seq<Sighting>, e: ItemOutcome, s: Sighting)
    requires AllEvidenced(items, mode, events, n, seen) && |events| == n + |seen| && Evidences(items, mode, s, e)
    ensures AllEvidenced(items, mode, events + [e], n, seen + [s])
  {
    var more := seen + [s];
    forall i | 0 <= i < |more|
      ensures Evidences(items, mode, more[i], (events + [e])[n + i])
    {
      if i < |seen| {
        assert Evidences(items, mode, seen[i], events[n + i]);
      }
    }
  }

  // ---------------------------------------------------------------------------- bookkeeping

  predicate UniqueItems(items: seq<Item>) {
    forall i, j :: 0 <= i < j < |items| ==> items[i].id != items[j].id
  }

  function Names(items: seq<Item>): set<string> {
    set i | 0 <= i < |items| :: items[i].id
  }

  function CompletedBytes(items: seq<Item>, completed: map<string, nat>): nat {
    if items == [] then 0
    else
      var n := |items| - 1;
      CompletedBytes(items[..n], completed) + (if items[n].id in completed then completed[items[n].id] else 0)
  }

  function PendingBytes(items: seq<Item>, completed: map<string, nat>): nat {
    if items == [] then 0
    else
      var n := |items| - 1;
      var item := items[n];
      PendingBytes(items[..n], completed)
      + (if item.id !in completed && item.state == RowPresent && item.expected.Some? then item.expected.value.size else 0)
  }

  lemma {:induction false} CompletedElsewhere(items: seq<Item>, completed: map<string, nat>, id: string, bytes: nat)
    requires forall i :: 0 <= i < |items| ==> items[i].id != id
    ensures CompletedBytes(items, completed[id := bytes]) == CompletedBytes(items, completed)
  {
    if items != [] {
      CompletedElsewhere(items[..|items| - 1], completed, id, bytes);
    }
  }

  /** Completing one item adds exactly its bytes. */
  lemma {:induction false} CompletedAdds(items: seq<Item>, completed: map<string, nat>, k: nat, bytes: nat)
    requires UniqueItems(items) && k < |items| && items[k].id !in completed
    ensures CompletedBytes(items, completed[items[k].id := bytes]) == CompletedBytes(items, completed) + bytes
  {
    var n := |items| - 1;
    if k == n {
      CompletedElsewhere(items[..n], completed, items[k].id, bytes);
    } else {
      assert items[..n][k] == items[k];
      CompletedAdds(items[..n], completed, k, bytes);
    }
  }

  function EventIds(events: seq<ItemOutcome>): set<string> {
    set i | 0 <= i < |events| :: events[i].id
  }

  /** One event per completed item. */
  predicate Booked(events: seq<ItemOutcome>, completed: map<string, nat>) {
    && (forall i, j :: 0 <= i < j < |events| ==> events[i].id != events[j].id)
    && EventIds(events) == completed.Keys
  }

  lemma BookedNext(events: seq<ItemOutcome>, completed: map<string, nat>, e: ItemOutcome, bytes: nat)
    requires Booked(events, completed) && e.id !in completed
    ensures Booked(events + [e], completed[e.id := bytes])
  {
    var more := events + [e];
    forall i | 0 <= i < |events|
      ensures events[i].id != e.id
    {
      assert events[i].id in EventIds(events);
    }
    forall id
      ensures id in EventIds(more) <==> id in EventIds(events) || id == e.id
    {
      if id in EventIds(events) {
        var i :| 0 <= i < |events| && events[i].id == id;
        assert more[i].id == id;
      }
      if id == e.id {
        assert more[|events|].id == id;
      }
    }
  }

  /** Progress snapshots stay within their totals and never go back. */
  ghost predicate Steady(shots: seq<Snapshot>) {
    && (forall i :: 0 <= i < |shots| ==> shots[i].itemsDone <= shots[i].itemsTotal && shots[i].bytesDone <= shots[i].bytesTotal)
    && (forall i, j :: 0 <= i < j < |shots| ==> shots[i].itemsDone <= shots[j].itemsDone && shots[i].bytesDone <= shots[j].bytesDone && shots[i].bytesTotal <= shots[j].bytesTotal)
  }

  ghost predicate Behind(shots: seq<Snapshot>, items: nat, bytes: nat, total: nat) {
    forall i :: 0 <= i < |shots| ==> shots[i].itemsDone <= items && shots[i].bytesDone <= bytes && shots[i].bytesTotal <= total
  }

  lemma SteadyNext(shots: seq<Snapshot>, s: Snapshot)
    requires Steady(shots) && Behind(shots, s.itemsDone, s.bytesDone, s.bytesTotal) && s.itemsDone <= s.itemsTotal && s.bytesDone <= s.bytesTotal
    ensures Steady(shots + [s]) && Behind(shots + [s], s.itemsDone, s.bytesDone, s.bytesTotal)
  {
  }

  lemma SubsetCount(a: set<string>, b: set<string>)
    requires a <= b
    ensures |a| <= |b|
  {
    assert b == a + (b - a);
  }

  lemma {:induction false} CountNames(items: seq<Item>)
    ensures |Names(items)| <= |items|
  {
    if items != [] {
      var n := |items| - 1;
      CountNames(items[..n]);
      assert Names(items) == Names(items[..n]) + {items[n].id} by {
        forall id
          ensures id in Names(items) <==> id in Names(items[..n]) + {items[n].id}
        {
          if id in Names(items[..n]) {
            var i :| 0 <= i < n && items[..n][i].id == id;
            assert items[i].id == id;
          }
          if id in Names(items) && id != items[n].id {
            var i :| 0 <= i < |items| && items[i].id == id;
            assert items[..n][i].id == id;
          }
        }
      }
    }
  }

  predicate SettledUpto(items: seq<Item>, completed: map<string, nat>, k: nat)
    requires k <= |items|
  {
    forall j :: 0 <= j < k ==> items[j].id in completed
  }

  lemma SettledNext(items: seq<Item>, before: map<string, nat>, after: map<string, nat>, k: nat)
    requires k < |items| && SettledUpto(items, before, k) && before.Keys <= after.Keys && items[k].id in after.Keys
    ensures SettledUpto(items, after, k + 1)
  {
    forall j | 0 <= j < k
      ensures items[j].id in after
    {
      assert items[j].id in before.Keys;
    }
  }

  lemma AllNamed(items: seq<Item>, completed: map<string, nat>)
    requires completed.Keys <= Names(items) && SettledUpto(items, completed, |items|)
    ensures completed.Keys == Names(items)
  {
  }

  predicate CanceledSince(events: seq<ItemOutcome>, n: nat) {
    forall i :: n <= i < |events| ==> events[i].finding == CanceledItem
  }

  predicate DegradedSince(events: seq<ItemOutcome>, n: nat) {
    exists i :: n <= i < |events| && events[i].degraded
  }

  lemma DegradedSnoc(events: seq<ItemOutcome>, e: ItemOutcome, n: nat)
    requires n <= |events|
    ensures DegradedSince(events + [e], n) <==> DegradedSince(events, n) || e.degraded
  {
    var more := events + [e];
    if DegradedSince(events, n) {
      var i :| n <= i < |events| && events[i].degraded;
      assert more[i].degraded;
    }
    if e.degraded {
      assert more[|events|].degraded;
    }
  }

  // ------------------------------------------------------------------------- the selection

  class IntegritySelection {
    const items: seq<Item>
    var completed: map<string, nat>
    var processed: nat
    var events: seq<ItemOutcome>

    predicate Valid()
      reads this
    {
      && UniqueItems(items) && completed.Keys <= Names(items) && Booked(events, completed)
      && CompletedBytes(items, completed) <= processed
    }

    constructor (items: seq<Item>)
      requires UniqueItems(items)
      ensures Valid() && this.items == items && completed == map[] && events == [] && processed == 0
    {
      this.items, completed, processed, events := items, map[], 0, [];
      new;
      NothingCompleted(items);
    }

    /** The outcome is emitted first; only then is the row marked as done. */
    method EmitAndComplete(k: nat, outcome: ItemOutcome, bytesRead: nat)
      requires Valid() && k < |items| && outcome.id == items[k].id && outcome.id !in completed
      requires CompletedBytes(items, completed) + bytesRead <= processed
      modifies this`events, this`completed
      ensures Valid() && events == old(events) + [outcome] && completed == old(completed)[outcome.id := bytesRead]
      ensures CompletedBytes(items, completed) == CompletedBytes(items, old(completed)) + bytesRead
    {
      BookedNext(events, completed, outcome, bytesRead);
      CompletedAdds(items, completed, k, bytesRead);
      events := events + [outcome];
      completed := completed[outcome.id := bytesRead];
    }

    method NoteBytes(size: nat)
      requires Valid()
      modifies this`processed
      ensures Valid() && processed == old(processed) + size
    {
      processed := processed + size;
    }
  }

  lemma {:induction false} NothingCompleted(items: seq<Item>)
    ensures CompletedBytes(items, map[]) == 0
  {
    if items != [] {
      NothingCompleted(items[..|items| - 1]);
    }
  }

  // --------------------------------------------------------------------------------- a run

  class Pass {
    const selection: IntegritySelection
    const mode: Mode
    var bytesTotal: nat
    var shots: seq<Snapshot>
    /** The snapshot reported last. */
    ghost var latest: Snapshot

    ghost predicate Running()
      reads this, selection
    {
      && selection.Valid() && selection.processed <= bytesTotal
      && Steady(shots) && Behind(shots, |selection.completed|, selection.processed, bytesTotal)
    }

    constructor (selection: IntegritySelection, mode: Mode)
      requires selection.Valid()
      ensures Running() && this.selection == selection && this.mode == mode && fresh(this)
      ensures |shots| == 1
    {
      this.selection, this.mode := selection, mode;
      bytesTotal := selection.processed + PendingBytes(selection.items, selection.completed);
      shots, latest := [], Snapshot(0, 0, 0, 0);
      new;
      Emit();
    }

    /** A snapshot shows how far the pass has come. */
    predicate Current(s: Snapshot)
      reads this, selection
    {
      s == Snapshot(|selection.completed|, |selection.items|, selection.processed, bytesTotal)
    }

    /** A progress snapshot. */
    method Emit()
      requires Running()
      modifies this`shots, this`latest
      ensures Running() && shots == old(shots) + [latest] && Current(latest)
    {
      SubsetCount(selection.completed.Keys, Names(selection.items));
      CountNames(selection.items);
      assert |selection.completed.Keys| == |selection.completed|;
      var s := Snapshot(|selection.completed|, |selection.items|, selection.processed, bytesTotal);
      SteadyNext(shots, s);
      shots, latest := shots + [s], s;
    }

    /** Bytes read count at once; a subject that grew raises the total. */
    method NoteRead(size: nat, report: bool)
      requires Running()
      modifies this`shots, this`latest, this`bytesTotal, selection`processed
      ensures Running() && selection.processed == old(selection.processed) + size && bytesTotal >= old(bytesTotal)
      ensures old(shots) <= shots
    {
      selection.NoteBytes(size);
      if selection.processed > bytesTotal {
        bytesTotal := selection.processed;
      }
      if report {
        Emit();
      }
    }

    method Checkpoint() returns (s: Signal)
    {
      s := *;
    }

    /** Read the open subject chunk by chunk. */
    method ReadAll() returns (content: Bytes, s: Signal)
      requires Running()
      modifies this`shots, this`latest, this`bytesTotal, selection`processed
      ensures Running() && selection.processed == old(selection.processed) + |content|
      ensures old(shots) <= shots
    {
      content, s := [], Go;
      var chunks: nat := *;
      while chunks > 0 && s == Go
        invariant Running() && selection.processed == old(selection.processed) + |content|
        invariant old(shots) <= shots
        decreases chunks
      {
        chunks := chunks - 1;
        var chunk: Bytes := *;
        s := Checkpoint();
        if s == Go {
          var report: bool := *;
          content := content + chunk;
          NoteRead(|chunk|, report);
        }
      }
    }

    /** Classify one selected row by what the reader shows, or fails to. */
    method ProcessItem(item: Item) returns (p: Processed, ghost seen: Sighting)
      requires Running()
      modifies this`shots, this`latest, this`bytesTotal, selection`processed
      ensures Running() && old(shots) <= shots
      ensures selection.processed >= old(selection.processed) + (if p.Done? then p.bytesRead else 0)
      ensures p.Stopped? ==> p.signal != Go
      ensures p.Done? ==> p.outcome.id == item.id && Finds(item, mode, seen, p.outcome.finding)
      ensures p.Done? && p.outcome.degraded ==> p.outcome.finding in {Verified, Baselined}
      ensures p.Done? ==> p.bytesRead == if Expected(item, mode, seen) && seen.closing.None? then |seen.content| else 0
    {
      var early := Settled(item);
      if early.Some? {
        seen := *;
        WarrantedIsFound(item, mode, seen, early.value);
        p := Done(ItemOutcome(item.id, early.value, false), 0);
      } else {
        p, seen := ProcessPresent(item);
        if p.Done? {
          WarrantedIsFound(item, mode, seen, p.outcome.finding);
        }
      }
    }

    /** What is found of a row without reading. */
    function Settled(item: Item): (r: Option<Finding>)
      ensures r.None? ==> Readable(item, mode)
      ensures r.Some? ==> !Readable(item, mode) && forall seen :: Warrants(item, mode, seen, r.value)
    {
      if !item.pathValid then Some(Errored)
      else if item.state == RowMissing then Some(Absent)
      else if item.state == RowUnsupported then Some(NotSupported)
      else if mode == Baselining && item.baseline.Some? then Some(Errored)
      else if item.expected.None? then Some(Errored)
      else None
    }

    /** How a failure of the reader is reported. */
    function Reported(trouble: Trouble): Finding {
      match trouble
      case Vanished => Absent
      case Unreadable => NotSupported
      case Broken => Errored
    }

    method ProcessPresent(item: Item) returns (p: Processed, ghost seen: Sighting)
      requires Running() && Readable(item, mode)
      modifies this`shots, this`latest, this`bytesTotal, selection`processed
      ensures Running() && old(shots) <= shots
      ensures selection.processed >= old(selection.processed) + (if p.Done? then p.bytesRead else 0)
      ensures p.Stopped? ==> p.signal != Go
      ensures p.Done? ==> p.outcome.id == item.id && Warrants(item, mode, seen, p.outcome.finding)
      ensures p.Done? && p.outcome.degraded ==> p.outcome.finding in {Verified, Baselined}
      ensures p.Done? ==> p.bytesRead == if Expected(item, mode, seen) && seen.closing.None? then |seen.content| else 0
    {
      var shown: Stat, failure: Option<Trouble> := *, *;
      seen := Sighting(failure, shown, [], None, shown);
      if failure.Some? {
        return Done(ItemOutcome(item.id, Reported(failure.value), false), 0), seen;
      }
      if !MatchesStat(item.expected.value, shown) {
        return Done(ItemOutcome(item.id, Modified, false), 0), seen;
      }
      if mode == Verifying && item.baseline.Some? && !MatchesStat(item.baseline.value.subject, shown) {
        return Done(ItemOutcome(item.id, Modified, false), 0), seen;
      }
      p, seen := ReadAndCompare(item, shown);
    }

    /** Read the opened file, look at it once more and compare. */
    method ReadAndCompare(item: Item, shown: Stat) returns (p: Processed, ghost seen: Sighting)
      requires Running() && Readable(item, mode) && MatchesStat(item.expected.value, shown)
      requires mode == Verifying && item.baseline.Some? ==> MatchesStat(item.baseline.value.subject, shown)
      modifies this`shots, this`latest, this`bytesTotal, selection`processed
      ensures Running() && old(shots) <= shots
      ensures selection.processed >= old(selection.processed) + (if p.Done? then p.bytesRead else 0)
      ensures p.Stopped? ==> p.signal != Go
      ensures p.Done? ==> p.outcome.id == item.id && Warrants(item, mode, seen, p.outcome.finding)
      ensures p.Done? && p.outcome.degraded ==> p.outcome.finding in {Verified, Baselined}
      ensures p.Done? ==> p.bytesRead == if Expected(item, mode, seen) && seen.closing.None? then |seen.content| else 0
    {
      var read, signal := ReadAll();
      var after: Stat, failure: Option<Trouble> := *, *;
      seen := Sighting(None, shown, read, failure, after);
      if signal != Go {
        return Stopped(signal), seen;
      }
      var finding, degraded := Compared(item, shown, read, failure, after), *;
      ComparedIsWarranted(item, shown, read, failure, after);
      p := Done(ItemOutcome(item.id, finding, degraded && finding in {Verified, Baselined}), if failure.Some? then 0 else |read|);
    }

    /** What is found of a file that was read. */
    function Compared(item: Item, shown: Stat, read: Bytes, failure: Option<Trouble>, after: Stat): Finding {
      if failure.Some? then Reported(failure.value)
      else if !SameSubject(shown, after) then Modified
      else if |read| != shown.size then Errored
      else if mode == Verifying && item.baseline.Some? && read != item.baseline.value.content then Mismatched
      else if mode == Verifying && item.baseline.Some? then Verified
      else Baselined
    }

    lemma ComparedIsWarranted(item: Item, shown: Stat, read: Bytes, failure: Option<Trouble>, after: Stat)
      requires Readable(item, mode) && MatchesStat(item.expected.value, shown)
      requires mode == Verifying && item.baseline.Some? ==> MatchesStat(item.baseline.value.subject, shown)
      ensures Expected(item, mode, Sighting(None, shown, read, failure, after))
      ensures Warrants(item, mode, Sighting(None, shown, read, failure, after), Compared(item, shown, read, failure, after))
    {
    }

    /** Complete every row that is still pending as canceled. */
    method CancelPending()
      requires Running()
      modifies this`shots, this`latest, selection`events, selection`completed
      ensures Running() && selection.completed.Keys == Names(selection.items)
      ensures old(selection.events) <= selection.events
      ensures CanceledSince(selection.events, |old(selection.events)|) && old(shots) <= shots
      ensures Current(latest)
    {
      for k := 0 to |selection.items|
        invariant Running() && old(selection.events) <= selection.events && shots == old(shots)
        invariant CanceledSince(selection.events, |old(selection.events)|)
        invariant SettledUpto(selection.items, selection.completed, k)
      {
        ghost var before := selection.completed;
        CancelOne(k);
        SettledNext(selection.items, before, selection.completed, k);
      }
      AllNamed(selection.items, selection.completed);
      Emit();
    }

    method CancelOne(k: nat)
      requires Running() && k < |selection.items|
      modifies selection`events, selection`completed
      ensures Running() && old(selection.completed).Keys <= selection.completed.Keys && selection.items[k].id in selection.completed.Keys
      ensures old(selection.events) <= selection.events && CanceledSince(selection.events, |old(selection.events)|)
    {
      if selection.items[k].id !in selection.completed {
        Complete(k, ItemOutcome(selection.items[k].id, CanceledItem, false), 0);
      }
    }

    method Complete(k: nat, outcome: ItemOutcome, bytesRead: nat)
      requires Running() && k < |selection.items| && outcome.id == selection.items[k].id && outcome.id !in selection.completed
      requires CompletedBytes(selection.items, selection.completed) + bytesRead <= selection.processed
      modifies selection`events, selection`completed
      ensures Running() && selection.events == old(selection.events) + [outcome]
      ensures selection.completed == old(selection.completed)[outcome.id := bytesRead]
      ensures CompletedBytes(selection.items, selection.completed) == CompletedBytes(selection.items, old(selection.completed)) + bytesRead
    {
      ghost var before := selection.completed;
      selection.EmitAndComplete(k, outcome, bytesRead);
      assert selection.completed.Keys == before.Keys + {outcome.id};
      SubsetCount(before.Keys, selection.completed.Keys);
      assert |before.Keys| == |before| && |selection.completed.Keys| == |selection.completed|;
    }

    /** Pending rows in order, until a stop signal. */
    method Sweep() returns (s: Signal, degraded: bool, ghost seen: seq<Sighting>)
      requires Running()
      modifies this, selection
      ensures Running() && old(selection.events) <= selection.events && old(shots) <= shots
      ensures old(selection.processed) <= selection.processed
      ensures s == Go ==> SettledUpto(selection.items, selection.completed, |selection.items|)
      ensures degraded == DegradedSince(selection.events, |old(selection.events)|)
      ensures |selection.events| == |old(selection.events)| + |seen| && AllEvidenced(selection.items, mode, selection.events, |old(selection.events)|, seen)
    {
      s, degraded, seen := Go, false, [];
      var k := 0;
      while k < |selection.items|
        invariant 0 <= k <= |selection.items| && s == Go
        invariant Running() && old(selection.events) <= selection.events && old(shots) <= shots
        invariant old(selection.processed) <= selection.processed
        invariant SettledUpto(selection.items, selection.completed, k)
        invariant degraded == DegradedSince(selection.events, |old(selection.events)|)
        invariant |selection.events| == |old(selection.events)| + |seen|
        invariant AllEvidenced(selection.items, mode, selection.events, |old(selection.events)|, seen)
      {
        ghost var before, events := selection.completed, selection.events;
        if selection.items[k].id !in selection.completed {
          var worse;
          ghost var e, sighting;
          s, e, worse, sighting := Settle(k);
          if s != Go {
            return;
          }
          AllEvidencedNext(selection.items, mode, events, |old(selection.events)|, seen, e, sighting);
          seen := seen + [sighting];
          DegradedSnoc(events, e, |old(selection.events)|);
          degraded := degraded || worse;
        }
        SettledNext(selection.items, before, selection.completed, k);
        k := k + 1;
      }
    }

    /** One call: every pending row is settled, unless the call is paused, and reported as what was found or,
        after a cancel request, as canceled. */
    method Run() returns (end: Ended, ghost seen: seq<Sighting>)
      requires Running()
      modifies this, selection
      ensures Running() && old(selection.events) <= selection.events && old(shots) <= shots
      ensures old(selection.processed) <= selection.processed
      ensures end.Paused? || selection.completed.Keys == Names(selection.items)
      ensures end.Returned? ==> end.degraded == DegradedSince(selection.events, |old(selection.events)|)
      ensures AllReported(selection.items, mode, selection.events, |old(selection.events)|, seen, end)
    {
      ghost var first := |selection.events|;
      var signal, degraded;
      signal, degraded, seen := Sweep();
      end := Conclude(signal, degraded, first, seen);
    }

    /** The end of a call: it pauses or cancels as it was asked to, and else returns. */
    method Conclude(signal: Signal, degraded: bool, ghost first: nat, ghost seen: seq<Sighting>) returns (end: Ended)
      requires Running() && (signal == Go ==> SettledUpto(selection.items, selection.completed, |selection.items|))
      requires |selection.events| == first + |seen| && AllEvidenced(selection.items, mode, selection.events, first, seen)
      modifies this, selection
      ensures Running() && old(selection.events) <= selection.events && old(shots) <= shots && selection.processed == old(selection.processed)
      ensures match signal case Go => end == Returned(degraded) case PauseNow => end == Paused case CancelNow => end == Ended.Canceled
      ensures end.Returned? ==> selection.events == old(selection.events)
      ensures end.Paused? || selection.completed.Keys == Names(selection.items)
      ensures AllReported(selection.items, mode, selection.events, first, seen, end)
    {
      end := Paused;
      if signal == PauseNow {
        return;
      }
      if signal == CancelNow {
        ghost var events := selection.events;
        CancelPending();
        assert AllEvidenced(selection.items, mode, events, first, seen);
        return Ended.Canceled;
      }
      AllNamed(selection.items, selection.completed);
      end := Returned(degraded);
    }

    /** Process one pending row and settle it, or stop. */
    method Settle(k: nat) returns (s: Signal, ghost e: ItemOutcome, worse: bool, ghost seen: Sighting)
      requires Running() && k < |selection.items| && selection.items[k].id !in selection.completed
      modifies this, selection
      ensures Running() && old(shots) <= shots && old(selection.processed) <= selection.processed
      ensures s != Go ==> selection.events == old(selection.events) && selection.completed == old(selection.completed)
      ensures s == Go ==>
                && selection.events == old(selection.events) + [e] && e.degraded == worse && Evidences(selection.items, mode, seen, e)
                && selection.completed.Keys == old(selection.completed).Keys + {selection.items[k].id}
                && Current(latest)
    {
      worse, e, seen := false, *, *;
      s := Checkpoint();
      if s == Go {
        var p;
        p, seen := ProcessItem(selection.items[k]);
        if p.Stopped? {
          s := p.signal;
        } else {
          e, worse := p.outcome, p.outcome.degraded;
          FoundIsEvidence(selection.items, k, mode, seen, e);
          Finish(k, p.outcome, p.bytesRead);
        }
      }
    }

    /** Settle a row and report progress. */
    method Finish(k: nat, outcome: ItemOutcome, bytesRead: nat)
      requires Running() && k < |selection.items| && outcome.id == selection.items[k].id && outcome.id !in selection.completed
      requires CompletedBytes(selection.items, selection.completed) + bytesRead <= selection.processed
      modifies this`shots, this`latest, selection`events, selection`completed
      ensures Running() && old(shots) <= shots && selection.events == old(selection.events) + [outcome]
      ensures selection.completed.Keys == old(selection.completed).Keys + {outcome.id}
      ensures Current(latest)
    {
      Complete(k, outcome, bytesRead);
      Emit();
    }
  }

  /** Repeated calls while paused.  Over the whole chain no row is reported twice, and when the chain
      ends every row has been reported exactly once. */
  method RunToEnd(selection: IntegritySelection, mode: Mode, resumes: nat) returns (end: Ended, calls: nat)
    requires selection.Valid()
    modifies selection
    ensures selection.Valid() && old(selection.events) <= selection.events
    ensures old(selection.processed) <= selection.processed && CompletedBytes(selection.items, selection.completed) <= selection.processed
    ensures end.Paused? || EventIds(selection.events) == Names(selection.items)
    ensures 1 <= calls <= resumes + 1 && (end.Paused? ==> calls == resumes + 1)
  {
    var run := new Pass(selection, mode);
    ghost var seen;
    end, seen := run.Run();
    calls := 1;
    while end.Paused? && calls <= resumes
      invariant 1 <= calls <= resumes + 1
      invariant selection.Valid() && old(selection.events) <= selection.events && old(selection.processed) <= selection.processed
      invariant end.Paused? || selection.completed.Keys == Names(selection.items)
      decreases resumes + 1 - calls
    {
      run := new Pass(selection, mode);
      end, seen := run.Run();
      calls := calls + 1;
    }
  }
}
