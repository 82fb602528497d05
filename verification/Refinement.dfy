/** What the executor achieves on a volume refines what the planner meant by its operations. */
module Refinement {
  import opened Paths
  import opened Model
  import opened Order
  import opened Scans
  import opened Planner
  import opened Mirror
  import opened Convergence
  import opened ContentStage
  import opened CleanupStage
  import opened MirrorTheorem
  import opened CleanupSound
  import opened Constructible
  import opened Volume
  import opened Effects
  import opened Sharing
  import opened Safety
  import opened Run

  // --------------------------------------------------------------------- one operation

  /** A file object has the size, time and attributes of a stat, but for the given other bits and, unless
      looked at closely, a lost read-only bit. */
  predicate Looks(o: FileObject, stat: Stat, others: nat, closely: bool) {
    && |o.bytes| == stat.size && o.mtime == stat.mtime
    && var wanted := stat.metadata.attributes.(others := others);
    o.metadata.attributes == wanted || (!closely && o.metadata.attributes == wanted.(readonly := false))
  }

  /** A key of the volume holds what the tree has there.  A file that was copied has the other
      attribute bits of a new file on this volume, whatever the tree says. */
  predicate ShowsAt(w: World, key: Key, node: Option<Node>, copied: bool, closely: bool) {
    var p := Live(key);
    if node.None? then p !in w.entries
    else if node.value.DirNode? then p in w.entries && w.entries[p].Directory?
    else
      var stat := node.value.stat;
      HasFile(w, p) && Looks(w.files[w.entries[p].id], stat, if copied then w.newBits else stat.metadata.attributes.others, closely)
  }

  /** The planned paths of a volume look like a tree, with copied files at the given keys. */
  ghost predicate Depicted(w: World, t: Tree, copied: set<Key>, closely: bool) {
    forall key :: ShowsAt(w, key, Lookup(t, key), key in copied, closely)
  }

  /** Which keys hold copied files after an operation. */
  function CopiedAfter(op: Operation, copied: set<Key>): set<Key> {
    var key := Fold(op.target);
    if CopiesContent(op.kind) then copied + {key}
    else if op.kind == Move && op.prior.Some? && Fold(op.prior.value) in copied then copied + {key}
    else if op.kind == Move then copied - {key}
    else copied
  }

  /** What is written is meant to look like the reviewed source. */
  predicate Intends(op: Operation) {
    CopiesContent(op.kind) ==> op.sourceExpected.Some? && op.intended == op.sourceExpected
  }

  lemma OtherNodesStay(op: Operation, t: Tree, u: Tree, key: Key)
    requires Apply(op, t) == Some(u) && !Handles(op, key)
    ensures Lookup(u, key) == Lookup(t, key)
  {
  }

  /** A published file looks like the reviewed source, but for the other bits. */
  lemma PublishedLooks(s: Setup, op: Operation, w: World, v: World)
    requires Sound(w) && SourceSound(s) && CopiesContent(op.kind) && Intends(op)
    requires During(s, op, w, v) && Published(s, op, w, v) && WearsIntended(s, op, v)
    ensures HasFile(v, TargetPlace(op)) && v.newBits == w.newBits
    ensures Looks(v.files[v.entries[TargetPlace(op)].id], op.intended.value, v.newBits, true)
  {
    DuringIsSteady(s, op, w, v);
    var id := v.entries[TargetPlace(op)].id;
    assert ObjectKept(w, v, Touched(s, op), id);
  }

  lemma CopyRefines(s: Setup, op: Operation, w: World, v: World, t: Tree, u: Tree, copied: set<Key>, closely: bool, key: Key)
    requires Sound(w) && SourceSound(s) && CopiesContent(op.kind) && Intends(op)
    requires Apply(op, t) == Some(u) && During(s, op, w, v) && Achieved(s, op, w, v) && Handles(op, key)
    ensures ShowsAt(v, key, Lookup(u, key), key in CopiedAfter(op, copied), closely)
  {
    PublishedLooks(s, op, w, v);
  }

  lemma MoveRefines(s: Setup, op: Operation, w: World, v: World, t: Tree, u: Tree, copied: set<Key>, closely: bool, key: Key)
    requires Sound(w) && op.kind == Move && Depicted(w, t, copied, closely)
    requires Apply(op, t) == Some(u) && During(s, op, w, v) && Achieved(s, op, w, v) && Handles(op, key)
    ensures ShowsAt(v, key, Lookup(u, key), key in CopiedAfter(op, copied), closely)
  {
    var prior := Fold(op.prior.value);
    assert ShowsAt(w, prior, Lookup(t, prior), prior in copied, closely);
    assert ShowsAt(w, Fold(op.target), Lookup(t, Fold(op.target)), Fold(op.target) in copied, closely);
    DuringIsSteady(s, op, w, v);
  }

  /** At the keys it handles, an achieved operation does what it was planned to do. */
  lemma HandledKeyRefines(s: Setup, op: Operation, w: World, v: World, t: Tree, u: Tree, copied: set<Key>, closely: bool, key: Key)
    requires Sound(w) && SourceSound(s) && Intends(op) && Depicted(w, t, copied, closely)
    requires Apply(op, t) == Some(u) && During(s, op, w, v) && Achieved(s, op, w, v) && Handles(op, key)
    ensures ShowsAt(v, key, Lookup(u, key), key in CopiedAfter(op, copied), closely)
  {
    if CopiesContent(op.kind) {
      CopyRefines(s, op, w, v, t, u, copied, closely, key);
    } else if op.kind == Move {
      MoveRefines(s, op, w, v, t, u, copied, closely, key);
    } else {
      assert ShowsAt(w, key, Lookup(t, key), key in copied, closely);
    }
  }

  /** Simulation: if the volume looks like a tree, then after an achieved operation it looks like the
      tree that the operation's abstract effect yields, in sizes, times and attributes, except that
      copied files have the volume's other attribute bits and that a file with several names may have
      lost its read-only bit, which a harmless operation does not take. */
  lemma OperationRefines(s: Setup, op: Operation, w: World, v: World, t: Tree, u: Tree, copied: set<Key>, closely: bool)
    requires Sound(w) && SourceSound(s) && Intends(op) && (closely ==> Harmless(s, op)) && Depicted(w, t, copied, closely)
    requires Apply(op, t) == Some(u) && During(s, op, w, v) && Achieved(s, op, w, v)
    ensures Depicted(v, u, CopiedAfter(op, copied), closely)
  {
    forall key
      ensures ShowsAt(v, key, Lookup(u, key), key in CopiedAfter(op, copied), closely)
    {
      if Handles(op, key) {
        HandledKeyRefines(s, op, w, v, t, u, copied, closely, key);
      } else {
        assert ShowsAt(w, key, Lookup(t, key), key in copied, closely);
        if closely {
          HarmlessStays(s, op, w, v, key);
        } else {
          VeiledStays(s, op, w, v, key);
        }
        OtherNodesStay(op, t, u, key);
      }
    }
  }

  // ------------------------------------------------------------------------ whole plans

  /** Volumes before, between and after operations that were each achieved, in order. */
  ghost predicate Carried(s: Setup, ops: seq<Operation>, ws: seq<World>) {
    |ws| == |ops| + 1 && forall i :: 0 <= i < |ops| ==> Step(s, ops, ws, i)
  }

  ghost predicate Step(s: Setup, ops: seq<Operation>, ws: seq<World>, i: nat)
    requires i < |ops| && |ws| == |ops| + 1
  {
    Accomplished(s, ops[i], ws[i], ws[i + 1])
  }

  lemma CarriedFront(s: Setup, ops: seq<Operation>, ws: seq<World>)
    requires Carried(s, ops, ws) && ops != []
    ensures Carried(s, ops[..|ops| - 1], ws[..|ops|])
  {
    var front, before := ops[..|ops| - 1], ws[..|ops|];
    forall i | 0 <= i < |front|
      ensures Step(s, front, before, i)
    {
      assert Step(s, ops, ws, i);
    }
  }

  /** Which keys hold copied files after a sequence of operations. */
  function CopiedAll(ops: seq<Operation>): set<Key> {
    if ops == [] then {} else CopiedAfter(ops[|ops| - 1], CopiedAll(ops[..|ops| - 1]))
  }

  ghost predicate AllIntend(ops: seq<Operation>) {
    forall op :: op in ops ==> Intends(op)
  }

  ghost predicate AllHarmless(s: Setup, ops: seq<Operation>) {
    forall op :: op in ops ==> Harmless(s, op)
  }

  lemma {:induction false} PlanRefines(s: Setup, ops: seq<Operation>, ws: seq<World>, t: Tree, u: Tree, closely: bool)
    requires SourceSound(s) && AllIntend(ops) && Carried(s, ops, ws)
    requires (closely ==> AllHarmless(s, ops)) && Depicted(ws[0], t, {}, closely) && ApplyAll(ops, t) == Some(u)
    ensures Depicted(ws[|ops|], u, CopiedAll(ops), closely)
  {
    if ops != [] {
      var n := |ops| - 1;
      var mid := ApplyAll(ops[..n], t).value;
      CarriedFront(s, ops, ws);
      PlanRefines(s, ops[..n], ws[..n + 1], t, mid, closely);
      assert Step(s, ops, ws, n);
      assert ops[n] in ops;
      OperationRefines(s, ops[n], ws[n], ws[n + 1], mid, u, CopiedAll(ops[..n]), closely);
    }
  }

  /** Keys of the files that a plan copies. */
  function CopyKeys(ops: seq<Operation>): set<Key> {
    set op | op in ops && CopiesContent(op.kind) :: Fold(op.target)
  }

  /** No file is moved from a key that another is copied to. */
  ghost predicate MovesFromElsewhere(ops: seq<Operation>) {
    forall a, b :: a in ops && b in ops && a.kind == Move && a.prior.Some? && CopiesContent(b.kind) ==> Fold(b.target) != Fold(a.prior.value)
  }

  lemma {:induction false} CopiedFrom(ops: seq<Operation>)
    requires MovesFromElsewhere(ops)
    ensures CopiedAll(ops) <= CopyKeys(ops)
  {
    if ops != [] {
      var n := |ops| - 1;
      var front, op := ops[..n], ops[n];
      assert op in ops && forall o :: o in front ==> o in ops;
      CopiedFrom(front);
    }
  }

  lemma {:induction false} CopiedStays(ops: seq<Operation>, at: nat, n: nat)
    requires at < n <= |ops| && CopiesContent(ops[at].kind)
    requires forall j :: at < j < n ==> !Handles(ops[j], Fold(ops[at].target))
    ensures Fold(ops[at].target) in CopiedAll(ops[..n])
  {
    assert ops[..n][..n - 1] == ops[..n - 1];
    if at < n - 1 {
      CopiedStays(ops, at, n - 1);
    }
  }

  /** The file of an operation holds the reviewed source's bytes. */
  ghost predicate Carries(s: Setup, op: Operation, w: World) {
    HasFile(w, TargetPlace(op)) && NewContent(s, op) == Some(BytesAt(w, TargetPlace(op)))
  }

  lemma {:induction false} BytesStay(s: Setup, ops: seq<Operation>, ws: seq<World>, i: nat, n: nat)
    requires Carried(s, ops, ws) && i < n <= |ops| && CopiesContent(ops[i].kind)
    requires forall j :: i < j < n ==> !Handles(ops[j], Fold(ops[i].target))
    ensures Carries(s, ops[i], ws[n])
  {
    if n == i + 1 {
      assert Step(s, ops, ws, i);
    } else {
      BytesStay(s, ops, ws, i, n - 1);
      var op, place := ops[n - 1], TargetPlace(ops[i]);
      assert Step(s, ops, ws, n - 1);
      OtherEntriesStay(s, op, ws[n - 1], ws[n], Fold(ops[i].target));
      DuringIsSteady(s, op, ws[n - 1], ws[n]);
      SameKeepsBytes(ws[n - 1], ws[n], Touched(s, op), place, place);
    }
  }

  // --------------------------------------------------------------- the planner's own plans

  lemma RemovalsKeepOff(c: Inputs, content: seq<Operation>, files: seq<FileRecord>, o: Operation, key: Key)
    requires o in RemovalOperations(c, content, files) && Claimed(content, key)
    ensures !Handles(o, key)
  {
    var f :| f in files && Extra(c, content, f) && o == RemovalOperation(c, f);
  }

  lemma NoDirectoryAt(c: Inputs, key: Key)
    requires OpenContent(c) && FileKey(c.source, key)
    ensures forall d :: d in TargetDirs(c) ==> Fold(d.path) != key
  {
    forall d | d in TargetDirs(c)
      ensures Fold(d.path) != key
    {
      NoFileAtDirectory(c, d);
    }
  }

  lemma CleanupsKeepOff(c: Inputs, content: seq<Operation>, vacating: seq<Operation>, o: Operation, key: Key)
    requires o in CleanupOperations(c, content, vacating, DirsByHeight(c))
    requires forall d :: d in TargetDirs(c) ==> Fold(d.path) != key
    ensures !Handles(o, key)
  {
    var d, prior := CleanupOrigin(c, content, vacating, DirsByHeight(c), o);
  }

  /** After a file's operation no later operation of the plan handles its key. */
  lemma LaterKeepsOff(c: Inputs, i: nat, o: Operation)
    requires OpenContent(c) && i < |Content(c)|
    requires o in Removals(c) || o in Cleanups(c) || exists j :: i < j < |Content(c)| && Content(c)[j] == o
    ensures !Handles(o, Fold(Content(c)[i].target))
  {
    OperationFacts(c, i);
    var key := Fold(Content(c)[i].target);
    assert FileKey(c.source, key);
    if o in Removals(c) {
      ClaimedIsSource(c, key);
      RemovalsKeepOff(c, Content(c), TargetFiles(c), o, key);
    } else if o in Cleanups(c) {
      NoDirectoryAt(c, key);
      CleanupsKeepOff(c, Content(c), Vacating(c), o, key);
    } else {
      var j :| i < j < |Content(c)| && Content(c)[j] == o;
      TargetsApart(c, i, j);
    }
  }

  /** Where the operations after a content operation come from. */
  lemma LaterPart(d: seq<Operation>, k: seq<Operation>, r: seq<Operation>, z: seq<Operation>, i: nat, j: nat)
    requires i < |k| && |d| + i < j < |d + k + r + [] + z|
    ensures var o := (d + k + r + [] + z)[j]; o in r || o in z || exists m :: i < m < |k| && k[m] == o
  {
    var ops := d + k + r + [] + z;
    if j < |d| + |k| {
      assert ops[j] == k[j - |d|];
    } else if j < |d| + |k| + |r| {
      assert ops[j] == r[j - |d| - |k|];
    } else {
      assert ops[j] == z[j - |d| - |k| - |r|];
    }
  }

  lemma LaterInPlan(c: Inputs, i: nat, j: nat)
    requires OpenContent(c) && c.source.unsupported == [] && c.target.unsupported == [] && i < |Content(c)|
    requires |Directories(c).ops| + i < j < |Arranged(c)|
    ensures !Handles(Arranged(c)[j], Fold(Content(c)[i].target))
  {
    NothingUnsupportedPlanned(c);
    LaterPart(Directories(c).ops, Content(c), Removals(c), Cleanups(c), i, j);
    LaterKeepsOff(c, i, Arranged(c)[j]);
  }

  lemma IsContent(c: Inputs, op: Operation)
    requires Named(c) && op in Arranged(c) && CopiesContent(op.kind)
    ensures op in Content(c)
  {
    PlanWrites(c, op);
    RequiredNonEmpty(c);
    MkdirsListed(c, RequiredDirectories(c));
  }

  lemma SecondPart(d: seq<Operation>, k: seq<Operation>, r: seq<Operation>, u: seq<Operation>, z: seq<Operation>, i: nat)
    requires i < |k|
    ensures |d| + i < |d + k + r + u + z| && (d + k + r + u + z)[|d| + i] == k[i]
  {
  }

  lemma ContentPosition(c: Inputs, i: nat)
    requires Named(c) && i < |Content(c)|
    ensures |Directories(c).ops| + i < |Arranged(c)| && Arranged(c)[|Directories(c).ops| + i] == Content(c)[i]
  {
    SecondPart(Directories(c).ops, Content(c), Removals(c), UnsupportedOperations(UnsupportedPaths(c)), Cleanups(c), i);
  }

  /** No later operation handles this operation's target. */
  ghost predicate Final(ops: seq<Operation>, i: nat)
    requires i < |ops|
  {
    forall j :: i < j < |ops| ==> !Handles(ops[j], Fold(ops[i].target))
  }

  lemma ContentIsFinal(c: Inputs, ops: seq<Operation>, i: nat, at: nat)
    requires OpenContent(c) && c.source.unsupported == [] && c.target.unsupported == [] && i < |Content(c)|
    requires ops == Arranged(c) && at == |Directories(c).ops| + i < |ops| && ops[at] == Content(c)[i]
    ensures Final(ops, at)
  {
    forall j | at < j < |ops|
      ensures !Handles(ops[j], Fold(ops[at].target))
    {
      LaterInPlan(c, i, j);
    }
  }

  lemma FinalArrives(s: Setup, ops: seq<Operation>, ws: seq<World>, at: nat)
    requires Carried(s, ops, ws) && at < |ops| && CopiesContent(ops[at].kind) && Final(ops, at)
    ensures Carries(s, ops[at], ws[|ops|])
  {
    BytesStay(s, ops, ws, at, |ops|);
  }

  lemma OpenParts(c: Inputs)
    requires Healthy(c)
    ensures OpenContent(c) && c.source.unsupported == [] && c.target.unsupported == []
  {
    Parts(c);
  }

  lemma ContentIndex(c: Inputs, op: Operation) returns (i: nat)
    requires Named(c) && op in Arranged(c) && CopiesContent(op.kind)
    ensures i < |Content(c)| && Content(c)[i] == op
  {
    IsContent(c, op);
    i :| 0 <= i < |Content(c)| && Content(c)[i] == op;
  }

  /** A content operation of an unblocked plan has the last word on its target. */
  lemma PlannedContentIsFinal(c: Inputs, i: nat)
    requires OpenContent(c) && c.source.unsupported == [] && c.target.unsupported == [] && i < |Content(c)|
    ensures var at := |Directories(c).ops| + i; at < |Arranged(c)| && Arranged(c)[at] == Content(c)[i] && Final(Arranged(c), at)
  {
    ContentPosition(c, i);
    ContentIsFinal(c, Arranged(c), i, |Directories(c).ops| + i);
  }

  lemma ContentArrives(c: Inputs, s: Setup, ws: seq<World>, op: Operation)
    requires OpenContent(c) && c.source.unsupported == [] && c.target.unsupported == []
    requires Carried(s, Arranged(c), ws) && op in Arranged(c) && CopiesContent(op.kind)
    ensures Carries(s, op, ws[|Arranged(c)|])
  {
    var i := ContentIndex(c, op);
    PlannedContentIsFinal(c, i);
    FinalArrives(s, Arranged(c), ws, |Directories(c).ops| + i);
  }

  /** The planned paths of a volume are a mirror: directories and files exactly at the source's keys. */
  ghost predicate MirrorsKeys(source: Scan, w: World) {
    forall key :: && (Live(key) in w.entries && w.entries[Live(key)].Directory? <==> DirKey(source, key))
                  && (Live(key) in w.entries && w.entries[Live(key)].File? <==> FileKey(source, key))
  }

  lemma MirroredKeys(source: Scan, granularity: nat, casing: bool, t: Tree, w: World, copied: set<Key>, closely: bool)
    requires WellFormed(source) && Mirrors(source, granularity, casing, t) && Depicted(w, t, copied, closely)
    ensures MirrorsKeys(source, w)
  {
    forall key
      ensures Live(key) in w.entries && w.entries[Live(key)].Directory? <==> DirKey(source, key)
      ensures Live(key) in w.entries && w.entries[Live(key)].File? <==> FileKey(source, key)
    {
      assert ShowsAt(w, key, Lookup(t, key), key in copied, closely);
      if FileKey(source, key) {
        var f := FileWith(source, key).value;
        assert Reflects(f, Lookup(t, Fold(f.path)), granularity, casing);
      }
    }
  }

  lemma MatchedIntends(c: Inputs, f: FileRecord, found: FileRecord, dependencies: seq<OpId>)
    requires f.path != [] && found.path != []
    ensures var op := MatchedOperation(c, f, f, found, false, dependencies); Intends(op) && op.kind != Mkdir
  {
  }

  lemma UnmatchedIntends(c: Inputs, f: FileRecord, dependencies: seq<OpId>)
    ensures var op := UnmatchedOperation(c, f, f, dependencies); Intends(op) && op.kind != Mkdir
  {
  }

  lemma ContentIntends(c: Inputs, i: nat)
    requires OpenContent(c) && i < |Content(c)|
    ensures Intends(Content(c)[i]) && Content(c)[i].kind != Mkdir
  {
    var f := SourceFiles(c)[i];
    assert f in SourceFiles(c);
    OperationFacts(c, i);
    OpenShape(c, Directories(c).created, f);
    var dependencies, found := DependsOn(NearestCreated(f.path, Directories(c).created)), FileWith(c.target, Fold(f.path));
    if found.Some? {
      MatchedIntends(c, f, found.value, dependencies);
    } else {
      UnmatchedIntends(c, f, dependencies);
    }
  }

  lemma PlanIntends(c: Inputs)
    requires OpenContent(c)
    ensures AllIntend(Arranged(c))
  {
    forall op | op in Arranged(c)
      ensures Intends(op)
    {
      if CopiesContent(op.kind) {
        var i := ContentIndex(c, op);
        ContentIntends(c, i);
      }
    }
  }

  lemma MoveIndex(c: Inputs, op: Operation) returns (i: nat)
    requires Named(c) && op in Arranged(c) && op.kind == Move
    ensures i < |Content(c)| && Content(c)[i] == op
  {
    PlanWrites(c, op);
    RequiredNonEmpty(c);
    MkdirsListed(c, RequiredDirectories(c));
    i :| 0 <= i < |Content(c)| && Content(c)[i] == op;
  }

  lemma MovesApart(c: Inputs, i: nat, j: nat)
    requires OpenContent(c) && i < |Content(c)| && j < |Content(c)| && Content(c)[i].kind == Move && Content(c)[i].prior.Some?
    ensures Fold(Content(c)[j].target) != Fold(Content(c)[i].prior.value)
  {
    OperationFacts(c, j);
    MovedKeyFacts(c, i, Fold(Content(c)[i].prior.value));
  }

  lemma PlanMovesFromElsewhere(c: Inputs)
    requires OpenContent(c)
    ensures MovesFromElsewhere(Arranged(c))
  {
    forall a, b | a in Arranged(c) && b in Arranged(c) && a.kind == Move && a.prior.Some? && CopiesContent(b.kind)
      ensures Fold(b.target) != Fold(a.prior.value)
    {
      var i := MoveIndex(c, a);
      var j := ContentIndex(c, b);
      MovesApart(c, i, j);
    }
  }

  /** The copied files of a finished plan are at the targets of its copying operations. */
  lemma PlanCopies(c: Inputs)
    requires OpenContent(c) && c.source.unsupported == [] && c.target.unsupported == []
    ensures CopiedAll(Arranged(c)) == CopyKeys(Arranged(c))
  {
    var ops := Arranged(c);
    PlanMovesFromElsewhere(c);
    CopiedFrom(ops);
    forall key | key in CopyKeys(ops)
      ensures key in CopiedAll(ops)
    {
      var op :| op in ops && CopiesContent(op.kind) && Fold(op.target) == key;
      CopyStays(c, op);
    }
  }

  lemma CopyStays(c: Inputs, op: Operation)
    requires OpenContent(c) && c.source.unsupported == [] && c.target.unsupported == []
    requires op in Arranged(c) && CopiesContent(op.kind)
    ensures Fold(op.target) in CopiedAll(Arranged(c))
  {
    var i := ContentIndex(c, op);
    PlannedContentIsFinal(c, i);
    FinalIsCopied(Arranged(c), |Directories(c).ops| + i);
  }

  lemma FinalIsCopied(ops: seq<Operation>, at: nat)
    requires at < |ops| && CopiesContent(ops[at].kind) && Final(ops, at)
    ensures Fold(ops[at].target) in CopiedAll(ops)
  {
    CopiedStays(ops, at, |ops|);
    assert ops[..|ops|] == ops;
  }

  lemma WellFormedIsDistinct(s: Scan)
    requires WellFormed(s)
    ensures DistinctPaths(s)
  {
    OneEntryPerKey(s);
  }

  /** The volume looks like the tree that the plan yields, and copied files have its other bits. */
  ghost predicate Realized(c: Inputs, w: World, closely: bool)
    requires Named(c)
  {
    var t := ApplyAll(Plan(c), TreeOf(c.target));
    t.Some? && Depicted(w, t.value, CopyKeys(Plan(c)), closely)
  }

  lemma DepictedLoosely(w: World, t: Tree, copied: set<Key>, closely: bool)
    requires Depicted(w, t, copied, true)
    ensures Depicted(w, t, copied, closely)
  {
    forall key
      ensures ShowsAt(w, key, Lookup(t, key), key in copied, closely)
    {
      assert ShowsAt(w, key, Lookup(t, key), key in copied, true);
    }
  }

  lemma AchievedPlanRealized(c: Inputs, s: Setup, ws: seq<World>, closely: bool)
    requires Clean(c) && AllOpen(Plan(c)) && SourceSound(s) && Carried(s, Plan(c), ws)
    requires (closely ==> AllHarmless(s, Plan(c))) && Depicted(ws[0], TreeOf(c.target), {}, closely)
    ensures Realized(c, ws[|Plan(c)|], closely)
  {
    var t := PlanConverges(c);
    CanonicalClean(c);
    OpenParts(Canonicalized(c));
    PlanIntends(Canonicalized(c));
    PlanCopies(Canonicalized(c));
    PlanRefines(s, Plan(c), ws, TreeOf(c.target), t, closely);
  }

  lemma RealizedMirrors(c: Inputs, w: World, closely: bool)
    requires Clean(c) && AllOpen(Plan(c)) && Realized(c, w, closely)
    ensures MirrorsKeys(c.source, w)
  {
    var t := PlanConverges(c);
    MirroredKeys(c.source, Granularity(c), c.options.propagateCasing, t, w, CopyKeys(Plan(c)), closely);
  }

  /** Planner and executor together: when every operation of an unblocked plan is achieved, in order, the
      volume ends up with directories and files exactly at the source's keys; every file has the size,
      time and attributes the plan intended, but for the other bits of copied files and, unless the plan
      shows that no operation takes it, the read-only bit of a file with several names; and every file
      that was to be copied holds the bytes of the reviewed source file. */
  lemma AchievedPlanMirrors(c: Inputs, s: Setup, ws: seq<World>)
    requires Clean(c) && AllOpen(Plan(c)) && SourceSound(s) && Carried(s, Plan(c), ws)
    requires Depicted(ws[0], TreeOf(c.target), {}, true)
    ensures MirrorsKeys(c.source, ws[|Plan(c)|]) && Realized(c, ws[|Plan(c)|], AllHarmless(s, Plan(c)))
    ensures forall op :: op in Plan(c) && CopiesContent(op.kind) ==> Carries(s, op, ws[|Plan(c)|])
  {
    var closely := AllHarmless(s, Plan(c));
    DepictedLoosely(ws[0], TreeOf(c.target), {}, closely);
    AchievedPlanRealized(c, s, ws, closely);
    RealizedMirrors(c, ws[|Plan(c)|], closely);
    CanonicalClean(c);
    OpenParts(Canonicalized(c));
    forall op | op in Plan(c) && CopiesContent(op.kind)
      ensures Carries(s, op, ws[|Plan(c)|])
    {
      ContentArrives(Canonicalized(c), s, ws, op);
    }
  }

  // ----------------------------------------------------------------------- executed plans

  /** In a call that selected the whole plan and had nothing go wrong, each operation was achieved. */
  lemma TrailIsCarried(s: Setup, plan: seq<Operation>, selection: set<OpId>, status: map<OpId, Outcome>, ws: seq<World>)
    requires Trail(s, plan, selection, map[], status, ws, |plan|) && AllWell(status)
    requires forall i :: 0 <= i < |plan| ==> plan[i].id in selection
    ensures Carried(s, plan, ws)
  {
    forall i | 0 <= i < |plan|
      ensures Step(s, plan, ws, i)
    {
      assert TrailAt(s, plan, selection, map[], status, ws, i);
    }
  }

  /** A directory creation of the plan makes one of the source's directories. */
  lemma MkdirMakesSourceDir(c: Inputs, op: Operation)
    requires Clean(c) && AllOpen(Plan(c)) && op in Plan(c) && op.kind == Mkdir
    ensures DirKey(c.source, Fold(op.target))
  {
    var n := Canonicalized(c);
    CanonicalClean(c);
    OpenParts(n);
    MkdirIsListed(n, op);
    RequiredNonEmpty(n);
    MkdirsListed(n, RequiredDirectories(n));
    assert Desired(n, Fold(op.target));
    DesiredIsSourceDir(n, Fold(op.target));
    SameKeys(c.source, Fold(op.target));
  }

  lemma {:induction false} MkdirsDiffer(c: Inputs, paths: seq<Path>)
    requires NoRepeats(paths) && forall i :: 0 <= i < |paths| ==> paths[i] != []
    ensures forall a, b :: a in MakeDirectories(c, paths).ops && b in MakeDirectories(c, paths).ops && a.target == b.target ==> a == b
  {
    if paths != [] {
      var n := |paths| - 1;
      MkdirsDiffer(c, paths[..n]);
      MkdirsListed(c, paths[..n]);
      assert forall p :: p in paths[..n] ==> p != paths[n];
    }
  }

  /** No two directory creations of a plan make the same directory. */
  lemma PlanBuildsOnce(c: Inputs, selection: set<OpId>, op: Operation)
    requires Clean(c) && AllOpen(Plan(c)) && op in Plan(c) && op.kind == Mkdir
    ensures SoleBuilder(Plan(c), selection, op)
  {
    var n := Canonicalized(c);
    CanonicalClean(c);
    OpenParts(n);
    RequiredNonEmpty(n);
    RequiredOrdered(n);
    MkdirsListed(n, RequiredDirectories(n));
    MkdirsDiffer(n, RequiredDirectories(n));
    MkdirIsListed(n, op);
    forall o | o in Plan(c) && o.kind == Mkdir && TargetPlace(o) == TargetPlace(op)
      ensures o == op
    {
      MkdirIsListed(n, o);
      RequiredKeysDistinct(n, o.target, op.target);
    }
  }

  lemma MkdirIsListed(c: Inputs, op: Operation)
    requires OpenContent(c) && op in Arranged(c) && op.kind == Mkdir
    ensures op in Directories(c).ops
  {
    PlanWrites(c, op);
    forall i | 0 <= i < |Content(c)|
      ensures Content(c)[i] != op
    {
      ContentIntends(c, i);
    }
  }

  /** Dressing directories changes no file of a mirror. */
  lemma RedressedKeepsRealized(c: Inputs, selection: set<OpId>, w: World, v: World, closely: bool)
    requires Clean(c) && AllOpen(Plan(c)) && Realized(c, w, closely) && Redressed(w, v, Built(Plan(c), selection))
    ensures Realized(c, v, closely)
  {
    RealizedMirrors(c, w, closely);
    var t, copied := ApplyAll(Plan(c), TreeOf(c.target)).value, CopyKeys(Plan(c));
    forall key
      ensures ShowsAt(v, key, Lookup(t, key), key in copied, closely)
    {
      assert ShowsAt(w, key, Lookup(t, key), key in copied, closely);
      assert Live(key) in w.entries.Keys <==> Live(key) in v.entries.Keys;
      if HasFile(w, Live(key)) {
        NotBuilt(c, selection, w, w.entries[Live(key)].id);
      }
    }
  }

  lemma NotBuilt(c: Inputs, selection: set<OpId>, w: World, id: nat)
    requires Clean(c) && AllOpen(Plan(c)) && MirrorsKeys(c.source, w)
    ensures !NamedIn(w, Built(Plan(c), selection), id)
  {
    forall p | p in Built(Plan(c), selection) && p in w.entries
      ensures w.entries[p].Directory?
    {
      var op :| op in Plan(c) && op.id in selection && op.kind == Mkdir && p == TargetPlace(op);
      MkdirMakesSourceDir(c, op);
    }
  }

  lemma RedressedKeepsContent(s: Setup, op: Operation, w: World, v: World, places: set<Place>)
    requires Carries(s, op, w) && Redressed(w, v, places)
    ensures Carries(s, op, v)
  {
    assert TargetPlace(op) in v.entries.Keys;
  }
}
