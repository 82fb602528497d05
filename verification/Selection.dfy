/** Quarantine of paths a blocked operation leaves in doubt, and the safe subset of a plan. */
module Selection {
  import opened Paths
  import opened Model
  import opened Order
  import opened Scans

  /** The parts of a plan that selection looks at. */
  datatype Reviewed = Reviewed(ops: seq<Operation>, sourceComplete: bool, targetComplete: bool)

  predicate Ordered(p: Reviewed) {
    UniqueIds(p.ops) && DependencyOrdered(p.ops)
  }

  // ----------------------------------------------------------------------- quarantine

  /** A path's key as the program stores it. */
  function Text(path: Path): string {
    Joined(Fold(path))
  }

  function BlockedSources(ops: seq<Operation>): set<string> {
    set op | op in ops && op.blocked.Some? && op.source.Some? :: Text(op.source.value)
  }

  function BlockedTargets(ops: seq<Operation>): set<string> {
    (set op | op in ops && op.blocked.Some? :: Text(op.target))
    + (set op | op in ops && op.blocked.Some? && op.prior.Some? :: Text(op.prior.value))
  }

  predicate InsideAny(text: string, regions: set<string>) {
    exists r :: r in regions && SameOrDescendant(text, r)
  }

  predicate EngulfsAny(text: string, regions: set<string>) {
    exists r :: r in regions && SameOrDescendant(r, text)
  }

  /** An operation that is not blocked itself but overlaps a blocked one. */
  predicate Overlaps(op: Operation, sources: set<string>, targets: set<string>) {
    && op.blocked.None?
    && (|| (op.source.Some? && InsideAny(Text(op.source.value), sources))
        || InsideAny(Text(op.target), targets)
        || (op.prior.Some? && InsideAny(Text(op.prior.value), targets))
        || (op.kind in {Trash, Delete} && EngulfsAny(Text(op.target), targets))
        || (op.kind in {Move, MoveUpdate} && op.prior.Some? && EngulfsAny(Text(op.prior.value), targets)))
  }

  predicate Quarantined(ops: seq<Operation>, op: Operation) {
    Overlaps(op, BlockedSources(ops), BlockedTargets(ops))
  }

  method QuarantinedIds(ops: seq<Operation>) returns (ids: set<OpId>)
    ensures forall id :: id in ids <==> exists op :: op in ops && op.id == id && Quarantined(ops, op)
  {
    var sources, targets := BlockedSources(ops), BlockedTargets(ops);
    ids := {};
    for i := 0 to |ops|
      invariant forall id :: id in ids <==> exists j :: 0 <= j < i && ops[j].id == id && Overlaps(ops[j], sources, targets)
    {
      var op := ops[i];
      if op.blocked.Some? {
        continue;
      }
      if op.source.Some? && InsideAny(Text(op.source.value), sources) {
        ids := ids + {op.id};
        continue;
      }
      if InsideAny(Text(op.target), targets) || (op.prior.Some? && InsideAny(Text(op.prior.value), targets)) {
        ids := ids + {op.id};
        continue;
      }
      var destructive := if op.kind in {Trash, Delete} then Some(op.target)
                         else if op.kind in {Move, MoveUpdate} then op.prior
                         else None;
      if destructive.Some? && EngulfsAny(Text(destructive.value), targets) {
        ids := ids + {op.id};
      }
    }
  }

  // ------------------------------------------------------------------------ exclusions

  datatype Reason = PlanBlocked(blocked: BlockedReason) | BlockedCorrespondence | ExcludedDependency | IncompleteScan

  datatype Exclusion = Exclusion(id: OpId, outcome: Outcome, reason: Reason, because: seq<OpId>)

  type Exclusions = map<OpId, Exclusion>

  predicate Incomplete(p: Reviewed) {
    !p.sourceComplete || !p.targetComplete
  }

  predicate UnsafeWhenIncomplete(kind: OperationKind) {
    kind in {Move, MoveUpdate, Trash, Delete}
  }

  /** Excluded on its own account. */
  function Seed(p: Reviewed, op: Operation): Option<Exclusion> {
    if op.blocked.Some? then Some(Exclusion(op.id, Blocked, PlanBlocked(op.blocked.value), []))
    else if Quarantined(p.ops, op) then Some(Exclusion(op.id, Deferred, BlockedCorrespondence, []))
    else if Incomplete(p) && UnsafeWhenIncomplete(op.kind) then Some(Exclusion(op.id, Deferred, IncompleteScan, []))
    else None
  }

  /** Those of a list of dependencies that are excluded, in their order. */
  function Lost(dependencies: seq<OpId>, m: Exclusions): (r: seq<OpId>)
    ensures forall d :: d in r <==> d in dependencies && d in m
  {
    Filter(dependencies, (d: OpId) => d in m)
  }

  /** Excluded because of its dependencies. */
  function Inherited(op: Operation, m: Exclusions): Option<Exclusion> {
    var lost := Lost(op.dependencies, m);
    if lost == [] then None
    else Some(Exclusion(op.id, Deferred, if forall d :: d in lost ==> m[d].reason == IncompleteScan then IncompleteScan else ExcludedDependency, lost))
  }

  function Judged(p: Reviewed, op: Operation, m: Exclusions): Option<Exclusion> {
    if Seed(p, op).Some? then Seed(p, op) else Inherited(op, m)
  }

  /** Reference: one decision per operation, in plan order, from the decisions before it. */
  function Decided(p: Reviewed, n: nat): (m: Exclusions)
    requires n <= |p.ops|
    ensures forall id :: id in m ==> id in Ids(p.ops[..n])
  {
    if n == 0 then map[]
    else
      var m, op := Decided(p, n - 1), p.ops[n - 1];
      var verdict := Judged(p, op, m);
      assert Ids(p.ops[..n]) == Ids(p.ops[..n - 1]) + [op.id];
      if verdict.Some? then m[op.id := verdict.value] else m
  }

  function Final(p: Reviewed): Exclusions {
    Decided(p, |p.ops|)
  }

  lemma NewId(p: Reviewed, n: nat)
    requires Ordered(p) && n < |p.ops|
    ensures p.ops[n].id !in Ids(p.ops[..n])
  {
    var front := Ids(p.ops[..n]);
    assert forall i :: 0 <= i < n ==> front[i] == p.ops[i].id;
  }

  /** Later decisions leave earlier ones as they are. */
  lemma {:induction false} DecisionsStand(p: Reviewed, n: nat, m: nat, id: OpId)
    requires Ordered(p) && n <= m <= |p.ops| && id in Ids(p.ops[..n])
    ensures id in Decided(p, m) <==> id in Decided(p, n)
    ensures id in Decided(p, n) ==> Decided(p, m)[id] == Decided(p, n)[id]
    decreases m
  {
    if n < m {
      DecisionsStand(p, n, m - 1, id);
      NewId(p, m - 1);
      PrefixIds(p.ops, n, m - 1, id);
    }
  }

  lemma PrefixIds(ops: seq<Operation>, n: nat, m: nat, id: OpId)
    requires n <= m <= |ops| && id in Ids(ops[..n])
    ensures id in Ids(ops[..m])
  {
    var i :| 0 <= i < n && Ids(ops[..n])[i] == id;
    assert Ids(ops[..m])[i] == id;
  }

  lemma SameLost(dependencies: seq<OpId>, m: Exclusions, k: Exclusions)
    requires forall d :: d in dependencies ==> (d in m <==> d in k)
    ensures Lost(dependencies, m) == Lost(dependencies, k)
  {
    SameFilter(dependencies, (d: OpId) => d in m, (d: OpId) => d in k);
  }

  lemma {:induction false} SameFilter<T(!new)>(xs: seq<T>, f: T -> bool, g: T -> bool)
    requires forall x :: x in xs ==> f(x) == g(x)
    ensures Filter(xs, f) == Filter(xs, g)
  {
    if xs != [] {
      var n := |xs| - 1;
      assert xs == xs[..n] + [xs[n]];
      SameFilter(xs[..n], f, g);
    }
  }

  lemma SameInherited(op: Operation, m: Exclusions, k: Exclusions)
    requires forall d :: d in op.dependencies ==> (d in m <==> d in k) && (d in m ==> m[d] == k[d])
    ensures Inherited(op, m) == Inherited(op, k)
  {
    SameLost(op.dependencies, m, k);
    var lost := Lost(op.dependencies, m);
    assert forall d :: d in lost ==> m[d] == k[d];
  }

  /** Each operation's decision, read off the final exclusions. */
  lemma FinalDecision(p: Reviewed, i: nat)
    requires Ordered(p) && i < |p.ops|
    ensures var op := p.ops[i]; Judged(p, op, Final(p)) == if op.id in Final(p) then Some(Final(p)[op.id]) else None
  {
    var op := p.ops[i];
    var before := Decided(p, i);
    assert Ids(p.ops[..i + 1])[i] == op.id;
    DecisionsStand(p, i + 1, |p.ops|, op.id);
    forall d | d in op.dependencies
      ensures (d in before <==> d in Final(p)) && (d in before ==> before[d] == Final(p)[d])
    {
      assert d in Ids(p.ops[..i]);
      DecisionsStand(p, i, |p.ops|, d);
    }
    SameInherited(op, before, Final(p));
    NewId(p, i);
  }

  // ----------------------------------------------------------------- the greatest safe set

  predicate Safe(p: Reviewed, op: Operation) {
    op.blocked.None? && !Quarantined(p.ops, op) && !(Incomplete(p) && UnsafeWhenIncomplete(op.kind))
  }

  predicate Supported(op: Operation, chosen: set<OpId>) {
    forall d :: d in op.dependencies ==> d in chosen
  }

  /** Ids of the plan, each safe, together with all their dependencies. */
  ghost predicate SafeClosed(p: Reviewed, chosen: set<OpId>) {
    && (forall id :: id in chosen ==> id in Ids(p.ops))
    && (forall op :: op in p.ops && op.id in chosen ==> Safe(p, op) && Supported(op, chosen))
  }

  function Selected(p: Reviewed): set<OpId> {
    set op | op in p.ops && op.id !in Final(p) :: op.id
  }

  lemma NothingLost(op: Operation, m: Exclusions)
    requires Inherited(op, m) == None
    ensures forall d :: d in op.dependencies ==> d !in m
  {
    assert forall d :: d in op.dependencies && d in m ==> d in Lost(op.dependencies, m);
  }

  lemma MemberIndex(ops: seq<Operation>, op: Operation) returns (i: nat)
    requires op in ops
    ensures i < |ops| && ops[i] == op && op.id in Ids(ops)
  {
    i :| 0 <= i < |ops| && ops[i] == op;
    assert Ids(ops)[i] == op.id;
  }

  lemma IdIndex(ops: seq<Operation>, id: OpId) returns (i: nat)
    requires id in Ids(ops)
    ensures i < |ops| && ops[i].id == id
  {
    i :| 0 <= i < |ops| && Ids(ops)[i] == id;
  }

  lemma SelectedIsSafe(p: Reviewed, op: Operation)
    requires Ordered(p) && op in p.ops && op.id in Selected(p)
    ensures Safe(p, op) && Supported(op, Selected(p))
  {
    var i := MemberIndex(p.ops, op);
    FinalDecision(p, i);
    var o :| o in p.ops && o.id !in Final(p) && o.id == op.id;
    NothingLost(op, Final(p));
    forall d | d in op.dependencies
      ensures d in Selected(p)
    {
      assert d in Ids(p.ops[..i]);
      PrefixIds(p.ops, i, |p.ops|, d);
      assert p.ops[..|p.ops|] == p.ops;
      var j := IdIndex(p.ops, d);
      assert p.ops[j] in p.ops;
    }
  }

  lemma {:induction false} NothingKept<T(!new)>(xs: seq<T>, f: T -> bool)
    requires forall x :: x in xs ==> !f(x)
    ensures Filter(xs, f) == []
  {
    if xs != [] {
      var n := |xs| - 1;
      assert xs == xs[..n] + [xs[n]];
      NothingKept(xs[..n], f);
    }
  }

  lemma NotJudged(p: Reviewed, op: Operation, m: Exclusions)
    requires Safe(p, op) && forall d :: d in op.dependencies ==> d !in m
    ensures Judged(p, op, m) == None
  {
    NothingKept(op.dependencies, (d: OpId) => d in m);
  }

  lemma {:induction false} SafeIsNeverExcluded(p: Reviewed, chosen: set<OpId>, n: nat)
    requires SafeClosed(p, chosen) && n <= |p.ops|
    ensures forall id :: id in chosen ==> id !in Decided(p, n)
  {
    if n > 0 {
      SafeIsNeverExcluded(p, chosen, n - 1);
      var op := p.ops[n - 1];
      if op.id in chosen {
        assert op in p.ops;
        NotJudged(p, op, Decided(p, n - 1));
      }
    }
  }

  /** The selection is the greatest set of safe operations that is closed under dependencies. */
  lemma SelectionIsGreatest(p: Reviewed)
    requires Ordered(p)
    ensures SafeClosed(p, Selected(p))
    ensures forall chosen :: SafeClosed(p, chosen) ==> chosen <= Selected(p)
  {
    forall id | id in Selected(p)
      ensures id in Ids(p.ops)
    {
      var op :| op in p.ops && op.id !in Final(p) && op.id == id;
      var i := MemberIndex(p.ops, op);
    }
    forall op | op in p.ops && op.id in Selected(p)
      ensures Safe(p, op) && Supported(op, Selected(p))
    {
      SelectedIsSafe(p, op);
    }
    forall chosen | SafeClosed(p, chosen)
      ensures chosen <= Selected(p)
    {
      SafeIsNeverExcluded(p, chosen, |p.ops|);
      forall id | id in chosen
        ensures id in Selected(p)
      {
        var i := IdIndex(p.ops, id);
        assert p.ops[i] in p.ops;
      }
    }
  }

  /** Every exclusion says why.  A blocked operation is reported as blocked with its own reason.  All others are
      put off: for lying in a blocked region; else because a scan was incomplete, if the operation takes
      something away or if every dependency it loses is put off for that; else for its dependencies. */
  lemma ExclusionTells(p: Reviewed, op: Operation)
    requires Ordered(p) && op in p.ops && op.id in Final(p)
    ensures var e, m := Final(p)[op.id], Final(p);
            var takesAway := op.kind in {Move, MoveUpdate, Trash, Delete} && !(p.sourceComplete && p.targetComplete);
            && e.id == op.id && (e.outcome == Blocked <==> op.blocked.Some?) && (op.blocked.None? ==> e.outcome == Deferred)
            && (op.blocked.Some? ==> e.reason == PlanBlocked(op.blocked.value))
            && (e.reason == BlockedCorrespondence <==> Quarantined(p.ops, op))
            && (op.blocked.None? && !Quarantined(p.ops, op) ==>
                  if takesAway then e.reason == IncompleteScan && e.because == []
                  else
                    && e.because != [] && (forall d :: d in e.because <==> d in op.dependencies && d in m)
                    && e.reason == (if forall d :: d in op.dependencies && d in m ==> m[d].reason == IncompleteScan then IncompleteScan else ExcludedDependency))
  {
    var i := MemberIndex(p.ops, op);
    FinalDecision(p, i);
  }

  // ----------------------------------------------------------------- the fixpoint loops

  ghost predicate Agrees(m: Exclusions, final: Exclusions) {
    forall id :: id in m ==> id in final && m[id] == final[id]
  }

  /** Exclusions found so far are final ones and include everything excluded on its own account. */
  ghost predicate Partly(p: Reviewed, m: Exclusions) {
    Agrees(m, Final(p)) && forall i :: 0 <= i < |p.ops| && Seed(p, p.ops[i]).Some? ==> p.ops[i].id in m
  }

  /** The first `i` operations are decided for good. */
  ghost predicate DecidedUpto(p: Reviewed, m: Exclusions, i: nat)
    requires i <= |p.ops|
  {
    forall j :: 0 <= j < i && p.ops[j].id in Final(p) ==> p.ops[j].id in m
  }

  ghost predicate SeedsAgree(p: Reviewed, final: Exclusions) {
    forall i :: 0 <= i < |p.ops| && Seed(p, p.ops[i]).Some? ==>
      p.ops[i].id in final && final[p.ops[i].id] == Seed(p, p.ops[i]).value
  }

  lemma FinalSeeds(p: Reviewed)
    requires Ordered(p)
    ensures SeedsAgree(p, Final(p))
  {
    forall i | 0 <= i < |p.ops| && Seed(p, p.ops[i]).Some?
      ensures p.ops[i].id in Final(p) && Final(p)[p.ops[i].id] == Seed(p, p.ops[i]).value
    {
      FinalDecision(p, i);
    }
  }

  method ExcludeBlocked(p: Reviewed, ghost final: Exclusions) returns (m: Exclusions)
    requires SeedsAgree(p, final)
    ensures Agrees(m, final)
    ensures forall j :: 0 <= j < |p.ops| && p.ops[j].blocked.Some? ==> p.ops[j].id in m
  {
    m := map[];
    for i := 0 to |p.ops|
      invariant Agrees(m, final)
      invariant forall j :: 0 <= j < i && p.ops[j].blocked.Some? ==> p.ops[j].id in m
    {
      var op := p.ops[i];
      if op.blocked.Some? {
        assert Seed(p, p.ops[i]).Some?;
        m := m[op.id := Exclusion(op.id, Blocked, PlanBlocked(op.blocked.value), [])];
      }
    }
  }

  method ExcludeQuarantined(p: Reviewed, known: Exclusions, ghost final: Exclusions) returns (m: Exclusions)
    requires Ordered(p) && SeedsAgree(p, final) && Agrees(known, final)
    ensures Agrees(m, final) && known.Keys <= m.Keys
    ensures forall j :: 0 <= j < |p.ops| && Quarantined(p.ops, p.ops[j]) ==> p.ops[j].id in m
  {
    var quarantined := QuarantinedIds(p.ops);
    m := known;
    for i := 0 to |p.ops|
      invariant Agrees(m, final) && known.Keys <= m.Keys
      invariant forall j :: 0 <= j < i && Quarantined(p.ops, p.ops[j]) ==> p.ops[j].id in m
    {
      var op := p.ops[i];
      QuarantinedById(p, quarantined, i);
      if op.id in quarantined {
        assert Seed(p, p.ops[i]).Some?;
        m := m[op.id := Exclusion(op.id, Deferred, BlockedCorrespondence, [])];
      }
    }
  }

  method ExcludeIncomplete(p: Reviewed, known: Exclusions, ghost final: Exclusions) returns (m: Exclusions)
    requires SeedsAgree(p, final) && Agrees(known, final) && Incomplete(p)
    requires forall j :: 0 <= j < |p.ops| && (p.ops[j].blocked.Some? || Quarantined(p.ops, p.ops[j])) ==> p.ops[j].id in known
    ensures Agrees(m, final) && known.Keys <= m.Keys
    ensures forall j :: 0 <= j < |p.ops| && UnsafeWhenIncomplete(p.ops[j].kind) ==> p.ops[j].id in m
  {
    m := known;
    for i := 0 to |p.ops|
      invariant Agrees(m, final) && known.Keys <= m.Keys
      invariant forall j :: 0 <= j < i && UnsafeWhenIncomplete(p.ops[j].kind) ==> p.ops[j].id in m
    {
      var op := p.ops[i];
      if op.id !in m && UnsafeWhenIncomplete(op.kind) {
        assert Seed(p, p.ops[i]).Some?;
        m := m[op.id := Exclusion(op.id, Deferred, IncompleteScan, [])];
      }
    }
  }

  /** The three passes that exclude operations on their own account. */
  method ExcludeSeeds(p: Reviewed) returns (m: Exclusions)
    requires Ordered(p)
    ensures Partly(p, m)
  {
    FinalSeeds(p);
    ghost var final := Final(p);
    m := ExcludeBlocked(p, final);
    m := ExcludeQuarantined(p, m, final);
    if Incomplete(p) {
      m := ExcludeIncomplete(p, m, final);
    }
  }

  lemma QuarantinedById(p: Reviewed, ids: set<OpId>, i: nat)
    requires Ordered(p) && i < |p.ops|
    requires forall id :: id in ids <==> exists op :: op in p.ops && op.id == id && Quarantined(p.ops, op)
    ensures p.ops[i].id in ids <==> Quarantined(p.ops, p.ops[i])
  {
    if p.ops[i].id in ids {
      var op :| op in p.ops && op.id == p.ops[i].id && Quarantined(p.ops, op);
      var j :| 0 <= j < |p.ops| && p.ops[j] == op;
      assert j == i;
    }
    assert p.ops[i] in p.ops;
  }

  /** What the loop finds for one operation agrees with the final decision. */
  lemma LoopDecision(p: Reviewed, m: Exclusions, i: nat)
    requires Ordered(p) && i < |p.ops| && Partly(p, m) && DecidedUpto(p, m, i) && p.ops[i].id !in m
    ensures Inherited(p.ops[i], m) == if p.ops[i].id in Final(p) then Some(Final(p)[p.ops[i].id]) else None
  {
    var op := p.ops[i];
    assert op in p.ops;
    FinalDecision(p, i);
    forall d | d in op.dependencies
      ensures (d in m <==> d in Final(p)) && (d in m ==> m[d] == Final(p)[d])
    {
      assert d in Ids(p.ops[..i]);
      var j :| 0 <= j < i && Ids(p.ops[..i])[j] == d;
      assert p.ops[j].id == d;
    }
    SameInherited(op, m, Final(p));
  }

  lemma PartlyNext(p: Reviewed, m: Exclusions, i: nat)
    requires i < |p.ops| && Partly(p, m) && DecidedUpto(p, m, i) && p.ops[i].id in Final(p)
    ensures var next := m[p.ops[i].id := Final(p)[p.ops[i].id]]; Partly(p, next) && DecidedUpto(p, next, i + 1)
  {
  }

  /** One pass over the plan, adding what depends on something excluded. */
  method Propagate(p: Reviewed, known: Exclusions) returns (m: Exclusions, changed: bool)
    requires Ordered(p) && Partly(p, known)
    ensures Partly(p, m) && DecidedUpto(p, m, |p.ops|)
    ensures known.Keys <= m.Keys && (changed <==> known.Keys != m.Keys)
  {
    m, changed := known, false;
    for i := 0 to |p.ops|
      invariant Partly(p, m) && DecidedUpto(p, m, i)
      invariant known.Keys <= m.Keys && (changed <==> known.Keys != m.Keys)
    {
      var op := p.ops[i];
      if op.id in m {
        continue;
      }
      LoopDecision(p, m, i);
      var found := Inheritance(op, m);
      if found.None? {
        continue;
      }
      PartlyNext(p, m, i);
      m := m[op.id := found.value];
      changed := true;
      assert op.id in m.Keys && op.id !in known.Keys;
    }
  }

  /** The exclusion an operation draws from the exclusions of its dependencies, if any. */
  method Inheritance(op: Operation, m: Exclusions) returns (e: Option<Exclusion>)
    ensures e == Inherited(op, m)
  {
    var lost := Lost(op.dependencies, m);
    if lost == [] {
      return None;
    }
    var all := true;
    for i := 0 to |lost|
      invariant all <==> forall j :: 0 <= j < i ==> m[lost[j]].reason == IncompleteScan
    {
      assert lost[i] in lost;
      if m[lost[i]].reason != IncompleteScan {
        all := false;
      }
    }
    assert all <==> forall d :: d in lost ==> m[d].reason == IncompleteScan;
    e := Some(Exclusion(op.id, Deferred, if all then IncompleteScan else ExcludedDependency, lost));
  }

  lemma FinalIds(p: Reviewed)
    ensures Final(p).Keys <= PlanIds(p)
  {
    forall id | id in Final(p)
      ensures id in PlanIds(p)
    {
      assert p.ops[..|p.ops|] == p.ops;
      var i := IdIndex(p.ops, id);
      assert p.ops[i] in p.ops;
    }
  }

  function PlanIds(p: Reviewed): set<OpId> {
    set op | op in p.ops :: op.id
  }

  lemma AllDecided(p: Reviewed, m: Exclusions)
    requires Partly(p, m) && DecidedUpto(p, m, |p.ops|)
    ensures m == Final(p)
  {
    FinalIds(p);
    forall id | id in Final(p)
      ensures id in m
    {
      assert p.ops[..|p.ops|] == p.ops;
      var i := IdIndex(p.ops, id);
    }
  }

  /** The exclusions of operations, in their order. */
  function Explained(ops: seq<Operation>, m: Exclusions): (r: seq<Exclusion>) {
    if ops == [] then []
    else
      var n := |ops| - 1;
      Explained(ops[..n], m) + (if ops[n].id in m then [m[ops[n].id]] else [])
  }

  /** Repeated passes until nothing changes. */
  method ExcludeAll(p: Reviewed) returns (m: Exclusions)
    requires Ordered(p)
    ensures m == Final(p)
  {
    m := ExcludeSeeds(p);
    var changed := true;
    FinalIds(p);
    while changed
      invariant Partly(p, m)
      invariant !changed ==> DecidedUpto(p, m, |p.ops|)
      decreases |PlanIds(p) - m.Keys|, changed
    {
      ghost var ids := m.Keys;
      m, changed := Propagate(p, m);
      assert m.Keys <= PlanIds(p);
      Shrinks(PlanIds(p), ids, m.Keys);
    }
    AllDecided(p, m);
  }

  method Explain(ops: seq<Operation>, m: Exclusions) returns (exclusions: seq<Exclusion>)
    ensures exclusions == Explained(ops, m)
  {
    exclusions := [];
    for i := 0 to |ops|
      invariant exclusions == Explained(ops[..i], m)
    {
      assert ops[..i + 1][..i] == ops[..i];
      if ops[i].id in m {
        exclusions := exclusions + [m[ops[i].id]];
      }
    }
    assert ops[..|ops|] == ops;
  }

  /** Select the safe independent subset and explain every exclusion. */
  method DeriveSelection(p: Reviewed) returns (selection: set<OpId>, exclusions: seq<Exclusion>)
    requires Ordered(p)
    ensures selection == Selected(p) && exclusions == Explained(p.ops, Final(p))
    ensures SafeClosed(p, selection)
    ensures forall chosen :: SafeClosed(p, chosen) ==> chosen <= selection
  {
    var m := ExcludeAll(p);
    exclusions := Explain(p.ops, m);
    selection := set op | op in p.ops && op.id !in m :: op.id;
    SelectionIsGreatest(p);
  }

  lemma Shrinks<T>(all: set<T>, a: set<T>, b: set<T>)
    requires a <= b <= all
    ensures |all - b| <= |all - a| && (a != b ==> |all - b| < |all - a|)
  {
    var rest, gained := all - b, b - a;
    assert all - a == rest + gained;
    if a != b {
      assert exists x :: x in gained;
      assert |gained| > 0;
    }
  }

  function ExclusionIds(exclusions: seq<Exclusion>): seq<OpId> {
    seq(|exclusions|, i requires 0 <= i < |exclusions| => exclusions[i].id)
  }

  lemma ExclusionIdsSnoc(front: seq<Exclusion>, e: Exclusion)
    ensures ExclusionIds(front + [e]) == ExclusionIds(front) + [e.id]
  {
  }

  lemma FilterSnoc<T(!new)>(xs: seq<T>, x: T, f: T -> bool)
    ensures Filter(xs + [x], f) == Filter(xs, f) + (if f(x) then [x] else [])
  {
    assert (xs + [x])[..|xs|] == xs;
  }

  lemma FinalId(p: Reviewed, i: nat)
    requires Ordered(p) && i < |p.ops| && p.ops[i].id in Final(p)
    ensures Final(p)[p.ops[i].id].id == p.ops[i].id
  {
    FinalDecision(p, i);
  }

  ghost predicate Labelled(ops: seq<Operation>, m: Exclusions) {
    forall i :: 0 <= i < |ops| && ops[i].id in m ==> m[ops[i].id].id == ops[i].id
  }

  lemma {:induction false} ExplainedIds(ops: seq<Operation>, m: Exclusions, f: OpId -> bool)
    requires Labelled(ops, m) && forall i :: 0 <= i < |ops| ==> f(ops[i].id) == (ops[i].id in m)
    ensures ExclusionIds(Explained(ops, m)) == Filter(Ids(ops), f)
  {
    if ops != [] {
      var n := |ops| - 1;
      ExplainedIds(ops[..n], m, f);
      var id, front := ops[n].id, Explained(ops[..n], m);
      assert Ids(ops) == Ids(ops[..n]) + [id];
      FilterSnoc(Ids(ops[..n]), id, f);
      if id in m {
        ExclusionIdsSnoc(front, m[id]);
        assert Explained(ops, m) == front + [m[id]];
      } else {
        assert Explained(ops, m) == front;
      }
    }
  }

  lemma SelectedOrExcluded(p: Reviewed, op: Operation)
    requires op in p.ops
    ensures op.id in Selected(p) <==> op.id !in Final(p)
  {
  }

  lemma FinalLabelled(p: Reviewed)
    requires Ordered(p)
    ensures Labelled(p.ops, Final(p))
  {
    forall i | 0 <= i < |p.ops| && p.ops[i].id in Final(p)
      ensures Final(p)[p.ops[i].id].id == p.ops[i].id
    {
      FinalId(p, i);
    }
  }

  /** Every planned operation is either selected or explained, and the explanations follow plan order. */
  lemma SelectionPartitions(p: Reviewed)
    requires Ordered(p)
    ensures ExclusionIds(Explained(p.ops, Final(p))) == Filter(Ids(p.ops), (id: OpId) => id !in Selected(p))
    ensures forall op :: op in p.ops ==> (op.id in Selected(p) <==> op.id !in ExclusionIds(Explained(p.ops, Final(p))))
  {
    FinalLabelled(p);
    forall i | 0 <= i < |p.ops|
      ensures (p.ops[i].id !in Selected(p)) == (p.ops[i].id in Final(p))
    {
      assert p.ops[i] in p.ops;
      SelectedOrExcluded(p, p.ops[i]);
    }
    ExplainedIds(p.ops, Final(p), (id: OpId) => id !in Selected(p));
    forall op | op in p.ops
      ensures op.id in Ids(p.ops)
    {
      var i := MemberIndex(p.ops, op);
    }
  }
}
