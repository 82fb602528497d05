/** One executor call, and the chain of calls that pausing and resuming makes of a run. */
module Run {
  import opened Paths
  import opened Model
  import opened Volume
  import opened Effects
  import opened Safety
  import opened Progress
  import opened Executor

  datatype ItemOutcome = ItemOutcome(id: OpId, outcome: Outcome)

  datatype Verdict = Returned(failed: bool) | RaisedCanceled | RaisedPaused

  predicate DependenciesMet(op: Operation, status: map<OpId, Outcome>, ready: set<OpId>) {
    forall d :: d in op.dependencies ==> (d in status && status[d] == Succeeded) || d in ready
  }

  // ---------------------------------------------------------- decisions and their grounds

  /** A directory with this id was created in this call. */
  ghost predicate MadeId(made: seq<Creation>, id: OpId) {
    exists c :: c in made && c.op.id == id
  }

  /** Each dependency had succeeded, or was a directory that this call had created. */
  ghost predicate Met(a: Admission) {
    forall d :: d in a.op.dependencies ==> (d in a.status && a.status[d] == Succeeded) || MadeId(a.made, d)
  }

  /** A selected directory creation that was carried out: absent before, a directory after. */
  predicate Genuine(plan: seq<Operation>, selection: set<OpId>, c: Creation) {
    && Chosen(plan, selection, c.op) && c.op.kind == Mkdir
    && TargetPlace(c.op) !in c.before.entries
    && TargetPlace(c.op) in c.after.entries && c.after.entries[TargetPlace(c.op)].Directory?
  }

  ghost predicate GenuineIn(plan: seq<Operation>, selection: set<OpId>, made: seq<Creation>, c: Creation) {
    c in made ==> Genuine(plan, selection, c)
  }

  ghost predicate AllGenuine(plan: seq<Operation>, selection: set<OpId>, made: seq<Creation>) {
    forall c :: GenuineIn(plan, selection, made, c)
  }

  lemma AllGenuineNext(plan: seq<Operation>, selection: set<OpId>, made: seq<Creation>, c: Creation)
    requires AllGenuine(plan, selection, made) && Genuine(plan, selection, c)
    ensures AllGenuine(plan, selection, made + [c])
  {
    forall b
      ensures GenuineIn(plan, selection, made + [c], b)
    {
      assert GenuineIn(plan, selection, made, b);
    }
  }

  /** What a decision was based on still stands. */
  predicate Stands(a: Admission, status: map<OpId, Outcome>, made: seq<Creation>) {
    Extends(a.status, status) && a.made <= made
  }

  ghost predicate Rightly(plan: seq<Operation>, selection: set<OpId>, status: map<OpId, Outcome>, made: seq<Creation>,
                          admitted: seq<Admission>, a: Admission)
  {
    a in admitted ==> Chosen(plan, selection, a.op) && a.op.blocked.None? && Met(a) && Stands(a, status, made)
  }

  ghost predicate Prudently(plan: seq<Operation>, selection: set<OpId>, status: map<OpId, Outcome>, made: seq<Creation>,
                            withheld: seq<Admission>, a: Admission)
  {
    a in withheld ==> Chosen(plan, selection, a.op) && !Met(a) && Stands(a, status, made)
  }

  /** Operations were gone ahead with only when unblocked with their dependencies met, and put off
      only with a dependency that was not met. */
  ghost predicate Decided(plan: seq<Operation>, selection: set<OpId>, status: map<OpId, Outcome>, made: seq<Creation>,
                          admitted: seq<Admission>, withheld: seq<Admission>)
  {
    && (forall a :: Rightly(plan, selection, status, made, admitted, a))
    && (forall a :: Prudently(plan, selection, status, made, withheld, a))
  }

  lemma DecidedLater(plan: seq<Operation>, selection: set<OpId>, status: map<OpId, Outcome>, made: seq<Creation>,
                     admitted: seq<Admission>, withheld: seq<Admission>, later: map<OpId, Outcome>, more: seq<Creation>)
    requires Decided(plan, selection, status, made, admitted, withheld) && Extends(status, later) && made <= more
    ensures Decided(plan, selection, later, more, admitted, withheld)
  {
    forall a
      ensures Rightly(plan, selection, later, more, admitted, a)
      ensures Prudently(plan, selection, later, more, withheld, a)
    {
      assert Rightly(plan, selection, status, made, admitted, a) && Prudently(plan, selection, status, made, withheld, a);
    }
  }

  lemma DecidedNext(plan: seq<Operation>, selection: set<OpId>, status: map<OpId, Outcome>, made: seq<Creation>,
                    admitted: seq<Admission>, withheld: seq<Admission>, a: Admission)
    requires Decided(plan, selection, status, made, admitted, withheld)
    requires Chosen(plan, selection, a.op) && a.status == status && a.made == made
    ensures a.op.blocked.None? && Met(a) ==> Decided(plan, selection, status, made, admitted + [a], withheld)
    ensures !Met(a) ==> Decided(plan, selection, status, made, admitted, withheld + [a])
  {
    forall b
      ensures a.op.blocked.None? && Met(a) ==> Rightly(plan, selection, status, made, admitted + [a], b)
      ensures !Met(a) ==> Prudently(plan, selection, status, made, withheld + [a], b)
    {
      assert Rightly(plan, selection, status, made, admitted, b) && Prudently(plan, selection, status, made, withheld, b);
    }
  }

  ghost predicate Among(log: seq<Admission>, id: OpId) {
    exists a :: a in log && a.op.id == id
  }

  predicate BlockedIn(plan: seq<Operation>, id: OpId) {
    exists op :: op in plan && op.id == id && op.blocked.Some?
  }

  /** Where a status may come from: an attempt, or one of the three reasons to make none. */
  ghost predicate Reasoned(plan: seq<Operation>, admitted: seq<Admission>, withheld: seq<Admission>, id: OpId, outcome: Outcome) {
    || Among(admitted, id)
    || outcome == Canceled
    || (outcome == Deferred && Among(withheld, id))
    || (outcome == Failed && BlockedIn(plan, id))
  }

  ghost predicate ExplainedAt(plan: seq<Operation>, before: map<OpId, Outcome>, status: map<OpId, Outcome>,
                              admitted: seq<Admission>, withheld: seq<Admission>, id: OpId)
  {
    id in status && id !in before ==> Reasoned(plan, admitted, withheld, id, status[id])
  }

  /** Every status since `before` has its reason. */
  ghost predicate Explained(plan: seq<Operation>, before: map<OpId, Outcome>, status: map<OpId, Outcome>,
                            admitted: seq<Admission>, withheld: seq<Admission>)
  {
    forall id :: ExplainedAt(plan, before, status, admitted, withheld, id)
  }

  lemma AmongLater(log: seq<Admission>, longer: seq<Admission>, id: OpId)
    requires Among(log, id) && log <= longer
    ensures Among(longer, id)
  {
    var a :| a in log && a.op.id == id;
    assert a in longer;
  }

  lemma ExplainedLater(plan: seq<Operation>, before: map<OpId, Outcome>, status: map<OpId, Outcome>,
                       admitted: seq<Admission>, withheld: seq<Admission>, admitted': seq<Admission>, withheld': seq<Admission>)
    requires Explained(plan, before, status, admitted, withheld) && admitted <= admitted' && withheld <= withheld'
    ensures Explained(plan, before, status, admitted', withheld')
  {
    forall id
      ensures ExplainedAt(plan, before, status, admitted', withheld', id)
    {
      assert ExplainedAt(plan, before, status, admitted, withheld, id);
      if Among(admitted, id) {
        AmongLater(admitted, admitted', id);
      } else if Among(withheld, id) {
        AmongLater(withheld, withheld', id);
      }
    }
  }

  lemma ExplainedNext(plan: seq<Operation>, before: map<OpId, Outcome>, status: map<OpId, Outcome>,
                      admitted: seq<Admission>, withheld: seq<Admission>, id: OpId, outcome: Outcome)
    requires Explained(plan, before, status, admitted, withheld) && Reasoned(plan, admitted, withheld, id, outcome)
    ensures Explained(plan, before, status[id := outcome], admitted, withheld)
  {
    var later := status[id := outcome];
    forall other
      ensures ExplainedAt(plan, before, later, admitted, withheld, other)
    {
      assert ExplainedAt(plan, before, status, admitted, withheld, other);
    }
  }

  ghost predicate PendingAt(admitted: seq<Admission>, pending: seq<Operation>, op: Operation) {
    op in pending ==> Among(admitted, op.id)
  }

  /** Pending directories were gone ahead with. */
  ghost predicate AllTried(admitted: seq<Admission>, pending: seq<Operation>) {
    forall op :: PendingAt(admitted, pending, op)
  }

  lemma AllTriedLater(admitted: seq<Admission>, longer: seq<Admission>, pending: seq<Operation>)
    requires AllTried(admitted, pending) && admitted <= longer
    ensures AllTried(longer, pending)
  {
    forall op
      ensures PendingAt(longer, pending, op)
    {
      assert PendingAt(admitted, pending, op);
      if op in pending {
        AmongLater(admitted, longer, op.id);
      }
    }
  }

  lemma AllTriedNext(admitted: seq<Admission>, pending: seq<Operation>, op: Operation)
    requires AllTried(admitted, pending) && Among(admitted, op.id)
    ensures AllTried(admitted, pending + [op])
  {
    forall o
      ensures PendingAt(admitted, pending + [op], o)
    {
      assert PendingAt(admitted, pending, o);
    }
  }

  ghost predicate ReadyAt(ready: set<OpId>, made: seq<Creation>, id: OpId) {
    id in ready <==> MadeId(made, id)
  }

  /** Directories that may be built upon are those created in this call. */
  ghost predicate Usable(ready: set<OpId>, made: seq<Creation>) {
    forall id :: ReadyAt(ready, made, id)
  }

  lemma UsableNext(ready: set<OpId>, made: seq<Creation>, c: Creation)
    requires Usable(ready, made)
    ensures Usable(ready + {c.op.id}, made + [c])
  {
    forall id
      ensures ReadyAt(ready + {c.op.id}, made + [c], id)
    {
      assert ReadyAt(ready, made, id);
      if MadeId(made, id) {
        var b :| b in made && b.op.id == id;
        assert b in made + [c];
      }
      assert c in made + [c];
    }
  }

  lemma UsableDecides(op: Operation, status: map<OpId, Outcome>, ready: set<OpId>, made: seq<Creation>, w: World)
    requires Usable(ready, made)
    ensures DependenciesMet(op, status, ready) <==> Met(Admission(op, status, made, w))
  {
    forall d | d in op.dependencies
      ensures d in ready <==> MadeId(made, d)
    {
      assert ReadyAt(ready, made, d);
    }
  }

  /** The volume was in this state since `base`. */
  ghost predicate OnRecord(h: seq<World>, base: nat, w: World) {
    exists i :: base <= i < |h| && h[i] == w
  }

  ghost predicate AdmissionOnRecord(h: seq<World>, base: nat, admitted: seq<Admission>, a: Admission) {
    a in admitted ==> OnRecord(h, base, a.world)
  }

  ghost predicate CreationOnRecord(h: seq<World>, base: nat, made: seq<Creation>, c: Creation) {
    c in made ==> OnRecord(h, base, c.before) && OnRecord(h, base, c.after)
  }

  /** What decisions and creations were based on are states of the call. */
  ghost predicate Recorded(h: seq<World>, base: nat, admitted: seq<Admission>, made: seq<Creation>) {
    && (forall a :: AdmissionOnRecord(h, base, admitted, a))
    && (forall c :: CreationOnRecord(h, base, made, c))
  }

  lemma OnRecordLater(h: seq<World>, longer: seq<World>, base: nat, w: World)
    requires OnRecord(h, base, w) && h <= longer
    ensures OnRecord(longer, base, w)
  {
    var i :| base <= i < |h| && h[i] == w;
    assert longer[i] == w;
  }

  lemma RecordedLater(h: seq<World>, longer: seq<World>, base: nat, admitted: seq<Admission>, made: seq<Creation>)
    requires Recorded(h, base, admitted, made) && h <= longer
    ensures Recorded(longer, base, admitted, made)
  {
    forall a
      ensures AdmissionOnRecord(longer, base, admitted, a)
    {
      assert AdmissionOnRecord(h, base, admitted, a);
      if a in admitted {
        OnRecordLater(h, longer, base, a.world);
      }
    }
    forall c
      ensures CreationOnRecord(longer, base, made, c)
    {
      assert CreationOnRecord(h, base, made, c);
      if c in made {
        OnRecordLater(h, longer, base, c.before);
        OnRecordLater(h, longer, base, c.after);
      }
    }
  }

  lemma RecordedNext(h: seq<World>, base: nat, admitted: seq<Admission>, made: seq<Creation>, a: Admission, c: Creation)
    requires Recorded(h, base, admitted, made)
    ensures OnRecord(h, base, a.world) ==> Recorded(h, base, admitted + [a], made)
    ensures OnRecord(h, base, c.before) && OnRecord(h, base, c.after) ==> Recorded(h, base, admitted, made + [c])
  {
    forall b
      ensures OnRecord(h, base, a.world) ==> AdmissionOnRecord(h, base, admitted + [a], b)
    {
      assert AdmissionOnRecord(h, base, admitted, b);
    }
    forall d
      ensures OnRecord(h, base, c.before) && OnRecord(h, base, c.after) ==> CreationOnRecord(h, base, made + [c], d)
    {
      assert CreationOnRecord(h, base, made, d);
    }
  }

  // -------------------------------------------------------------- order and outcomes

  predicate DeepestFirst(ops: seq<Operation>) {
    forall i, j :: 0 <= i < j < |ops| ==> |ops[i].target| >= |ops[j].target|
  }

  /** Order by path depth, deepest first; equal depths keep their order. */
  function Deepened(ops: seq<Operation>): seq<Operation> {
    if ops == [] then [] else Placed(Deepened(ops[..|ops| - 1]), ops[|ops| - 1])
  }

  function Placed(ops: seq<Operation>, op: Operation): (r: seq<Operation>)
    ensures forall o :: o in r <==> o in ops || o == op
  {
    if ops == [] then [op]
    else if |ops[0].target| >= |op.target| then
      assert ops == [ops[0]] + ops[1..];
      [ops[0]] + Placed(ops[1..], op)
    else
      [op] + ops
  }

  lemma {:induction false} PlacedKeepsOrder(ops: seq<Operation>, op: Operation)
    requires DeepestFirst(ops)
    ensures DeepestFirst(Placed(ops, op))
  {
    if ops != [] && |ops[0].target| >= |op.target| {
      PlacedKeepsOrder(ops[1..], op);
      var rest := Placed(ops[1..], op);
      assert forall i :: 0 <= i < |rest| ==> rest[i] in rest;
    }
  }

  lemma {:induction false} PlacedKeepsUnique(ops: seq<Operation>, op: Operation)
    requires UniqueIds(ops) && forall o :: o in ops ==> o.id != op.id
    ensures UniqueIds(Placed(ops, op))
  {
    if ops != [] && |ops[0].target| >= |op.target| {
      PlacedKeepsUnique(ops[1..], op);
      var rest := Placed(ops[1..], op);
      assert forall i :: 0 <= i < |rest| ==> rest[i] in rest;
    }
  }

  /** The same operations, deepest first. */
  lemma {:induction false} DeepenedIsOrdering(ops: seq<Operation>)
    ensures DeepestFirst(Deepened(ops))
    ensures forall op :: op in Deepened(ops) <==> op in ops
    ensures UniqueIds(ops) ==> UniqueIds(Deepened(ops))
  {
    if ops != [] {
      var n := |ops| - 1;
      assert ops == ops[..n] + [ops[n]];
      DeepenedIsOrdering(ops[..n]);
      PlacedKeepsOrder(Deepened(ops[..n]), ops[n]);
      if UniqueIds(ops) {
        PlacedKeepsUnique(Deepened(ops[..n]), ops[n]);
      }
    }
  }

  /** The statuses that a sequence of reported outcomes adds up to. */
  function Replayed(events: seq<ItemOutcome>): map<OpId, Outcome> {
    if events == [] then map[]
    else
      var last := events[|events| - 1];
      Replayed(events[..|events| - 1])[last.id := last.outcome]
  }

  /** Every report is about an operation not reported before. */
  predicate Novel(events: seq<ItemOutcome>) {
    events == [] || (Novel(events[..|events| - 1]) && events[|events| - 1].id !in Replayed(events[..|events| - 1]))
  }

  /** The statuses are what was reported, each once, and only for selected operations. */
  predicate Tallied(selection: set<OpId>, status: map<OpId, Outcome>, events: seq<ItemOutcome>) {
    Novel(events) && status == Replayed(events) && status.Keys <= selection
  }

  lemma TalliedStep(selection: set<OpId>, status: map<OpId, Outcome>, events: seq<ItemOutcome>, id: OpId, outcome: Outcome)
    requires Tallied(selection, status, events) && id in selection && id !in status
    ensures Tallied(selection, status[id := outcome], events + [ItemOutcome(id, outcome)])
    ensures |status[id := outcome]| == |status| + 1 <= |selection|
  {
    var e := events + [ItemOutcome(id, outcome)];
    assert e[..|e| - 1] == events;
    assert status[id := outcome].Keys == status.Keys + {id};
    CardinalityMonotone(status.Keys + {id}, selection);
  }

  /** Tallied books mean exactly one reported outcome per settled operation. */
  lemma {:induction false} ExactlyOneOutcome(selection: set<OpId>, status: map<OpId, Outcome>, events: seq<ItemOutcome>, id: OpId)
    requires Tallied(selection, status, events)
    ensures id in status <==> exists i :: 0 <= i < |events| && events[i].id == id
    ensures forall i, j :: 0 <= i < |events| && 0 <= j < |events| && events[i].id == id == events[j].id ==> i == j
    ensures forall i :: 0 <= i < |events| && events[i].id == id ==> id in status && status[id] == events[i].outcome
    decreases |events|
  {
    if events != [] {
      var front := events[..|events| - 1];
      var last := events[|events| - 1];
      ExactlyOneOutcome(selection, Replayed(front), front, id);
      if last.id != id && id in status {
        var i :| 0 <= i < |front| && front[i].id == id;
        assert events[i].id == id;
      }
    }
  }

  /** Exactly the first `n` operations were reported since, in order. */
  predicate ReportedInOrder(before: seq<ItemOutcome>, events: seq<ItemOutcome>, order: seq<Operation>, n: nat)
    requires n <= |order|
  {
    && before <= events && |events| == |before| + n
    && forall j :: 0 <= j < n ==> events[|before| + j].id == order[j].id
  }

  lemma ReportedNext(before: seq<ItemOutcome>, events: seq<ItemOutcome>, more: seq<ItemOutcome>, order: seq<Operation>, n: nat)
    requires n < |order| && ReportedInOrder(before, events, order, n)
    requires events <= more && |more| == |events| + 1 && more[|events|].id == order[n].id
    ensures ReportedInOrder(before, more, order, n + 1)
  {
    forall j | 0 <= j < n + 1
      ensures more[|before| + j].id == order[j].id
    {
      if j < n {
        assert more[|before| + j] == events[|before| + j];
      }
    }
  }

  /** Created directories await their metadata. */
  predicate Awaited(plan: seq<Operation>, selection: set<OpId>, status: map<OpId, Outcome>, pending: seq<Operation>) {
    && UniqueIds(pending)
    && forall op :: op in pending ==> Chosen(plan, selection, op) && op.id !in status && op.kind == Mkdir && op.blocked.None?
  }

  predicate SettledUpto(order: seq<Operation>, n: nat, status: map<OpId, Outcome>)
    requires n <= |order|
  {
    forall j :: 0 <= j < n ==> order[j].id in status
  }

  /** From position `n` on nothing is settled yet. */
  predicate Unsettled(order: seq<Operation>, n: nat, status: map<OpId, Outcome>)
    requires n <= |order|
  {
    forall j :: n <= j < |order| ==> order[j].id !in status.Keys
  }

  lemma UnsettledNext(order: seq<Operation>, n: nat, before: map<OpId, Outcome>, after: map<OpId, Outcome>)
    requires n < |order| && UniqueIds(order) && Unsettled(order, n, before)
    requires order[n].id in after && after == before[order[n].id := after[order[n].id]]
    ensures Unsettled(order, n + 1, after)
  {
  }

  lemma SettledNext(order: seq<Operation>, n: nat, before: map<OpId, Outcome>, after: map<OpId, Outcome>)
    requires n < |order| && SettledUpto(order, n, before) && Extends(before, after) && order[n].id in after.Keys
    ensures SettledUpto(order, n + 1, after)
  {
  }

  lemma TrailTurn(s: Setup, plan: seq<Operation>, selection: set<OpId>, before: map<OpId, Outcome>, status: map<OpId, Outcome>,
                  ws: seq<World>, n: nat, v: World)
    requires Trail(s, plan, selection, before, status, ws, n) && n < |plan|
    requires TrailAt(s, [plan[n]], selection, before, status, [ws[n], v], 0)
    ensures Trail(s, plan, selection, before, status, ws + [v], n + 1)
  {
    TrailNext(s, plan, selection, before, status, ws, n, v);
  }

  lemma TrailGrows(s: Setup, plan: seq<Operation>, selection: set<OpId>, before: map<OpId, Outcome>, status: map<OpId, Outcome>,
                   later: map<OpId, Outcome>, ws: seq<World>, n: nat, v: World)
    requires Trail(s, plan, selection, before, status, ws, n) && n < |plan| && Extends(status, later)
    requires TrailAt(s, [plan[n]], selection, before, later, [ws[n], v], 0)
    ensures Trail(s, plan, selection, before, later, ws + [v], n + 1) && (ws + [v])[0] == ws[0] && (ws + [v])[n + 1] == v
  {
    TrailLater(s, plan, selection, before, status, later, ws, n);
    TrailTurn(s, plan, selection, before, later, ws, n, v);
  }

  /** Operations that may run have the planner's shape. */
  predicate AllShaped(plan: seq<Operation>) {
    forall op :: op in plan && op.blocked.None? ==> Shaped(op)
  }

  /** Statuses are never taken back. */
  predicate Extends(before: map<OpId, Outcome>, after: map<OpId, Outcome>) {
    forall id :: id in before ==> id in after && after[id] == before[id]
  }

  lemma ExtendsTransitive(a: map<OpId, Outcome>, b: map<OpId, Outcome>, c: map<OpId, Outcome>)
    requires Extends(a, b) && Extends(b, c)
    ensures Extends(a, c)
  {
  }

  lemma ExtendsByOne(before: map<OpId, Outcome>, after: map<OpId, Outcome>, id: OpId)
    requires id !in before && (after == before || (id in after && after == before[id := after[id]]))
    ensures Extends(before, after)
  {
  }

  /** One more directory creation is dressed. */
  lemma RedressedAt(plan: seq<Operation>, selection: set<OpId>, w: World, v: World, u: World, op: Operation)
    requires Redressed(w, v, Built(plan, selection)) && Redressed(v, u, {TargetPlace(op)})
    requires Chosen(plan, selection, op) && op.kind == Mkdir
    ensures Redressed(w, u, Built(plan, selection))
  {
    RedressedWider(v, u, {TargetPlace(op)}, Built(plan, selection));
    RedressedTransitive(w, v, u, Built(plan, selection));
  }

  /** Settled since `before`, and neither failed, canceled nor deferred. */
  function Erected(before: map<OpId, Outcome>, status: map<OpId, Outcome>): set<OpId> {
    set id | id in status && id !in before && status[id] !in {Failed, Canceled, Deferred}
  }

  /** Directories created by earlier calls, of which the plan says what they are to look like. */
  function Standing(plan: seq<Operation>, selection: set<OpId>, status: map<OpId, Outcome>): set<OpId> {
    set op | op in plan && op.kind == Mkdir && op.blocked.None? && op.id in selection && IntendedStat(op).Some?
             && op.id in status && status[op.id] == Succeeded :: op.id
  }

  predicate NotErected(plan: seq<Operation>, before: map<OpId, Outcome>, status: map<OpId, Outcome>, op: Operation) {
    op in plan && op.kind == Mkdir ==> op.id !in Erected(before, status)
  }

  /** No directory creation succeeds before its contents are done. */
  ghost predicate NoneErected(plan: seq<Operation>, before: map<OpId, Outcome>, status: map<OpId, Outcome>) {
    forall op :: NotErected(plan, before, status, op)
  }

  /** Everything before position `i` has had its turn: it is settled or pending; the rest is as it
      was before the call. */

  lemma NothingToFurnish(s: Setup, plan: seq<Operation>, selection: set<OpId>, before: map<OpId, Outcome>, status: map<OpId, Outcome>, w: World)
    requires NoneErected(plan, before, status)
    ensures Furnished(s, plan, selection, Erected(before, status), w)
  {
    forall op
      ensures op in plan && op.kind == Mkdir ==> op.id !in Erected(before, status)
    {
      assert NotErected(plan, before, status, op);
    }
  }

  ghost predicate Swept(plan: seq<Operation>, selection: set<OpId>, before: map<OpId, Outcome>,
                        status: map<OpId, Outcome>, pending: seq<Operation>, i: nat)
  {
    && i <= |plan|
    && Awaited(plan, selection, status, pending)
    && Extends(before, status) && NoneErected(plan, before, status)
    && (forall j :: 0 <= j < i && plan[j].id in selection ==> plan[j].id in status || plan[j] in pending)
    && (forall j :: i <= j < |plan| && plan[j].id in status ==> plan[j].id in before)
    && (forall j, op :: i <= j < |plan| && op in pending ==> op.id != plan[j].id)
  }

  lemma SweptStart(plan: seq<Operation>, selection: set<OpId>, before: map<OpId, Outcome>)
    ensures Swept(plan, selection, before, before, [], 0)
  {
  }

  lemma SweptSkip(plan: seq<Operation>, selection: set<OpId>, before: map<OpId, Outcome>, status: map<OpId, Outcome>, pending: seq<Operation>, i: nat)
    requires i < |plan| && Swept(plan, selection, before, status, pending, i)
    requires plan[i].id !in selection || plan[i].id in status
    ensures Swept(plan, selection, before, status, pending, i + 1)
  {
  }

  lemma SweptNext(plan: seq<Operation>, selection: set<OpId>, before: map<OpId, Outcome>, status: map<OpId, Outcome>, pending: seq<Operation>, i: nat,
                  status': map<OpId, Outcome>, pending': seq<Operation>)
    requires i < |plan| && UniqueIds(plan) && Swept(plan, selection, before, status, pending, i)
    requires plan[i].id in selection && plan[i].id !in status
    requires if plan[i].id in status'
             then status' == status[plan[i].id := status'[plan[i].id]] && pending' == pending
             else status' == status && pending' == pending + [plan[i]] && plan[i].kind == Mkdir && plan[i].blocked.None?
    requires plan[i].kind == Mkdir && plan[i].id in status' ==> !Fulfilled(status', plan[i])
    ensures Swept(plan, selection, before, status', pending', i + 1)
  {
    assert Chosen(plan, selection, plan[i]);
    assert Awaited(plan, selection, status', pending');
    forall op
      ensures NotErected(plan, before, status', op)
    {
      assert NotErected(plan, before, status, op);
      if op in plan && op.id == plan[i].id {
        var j :| 0 <= j < |plan| && plan[j] == op;
      }
    }
  }

  /** Every selected operation is settled or pending. */
  predicate AllHadTheirTurn(plan: seq<Operation>, selection: set<OpId>, status: map<OpId, Outcome>, pending: seq<Operation>) {
    forall j :: 0 <= j < |plan| && plan[j].id in selection ==> plan[j].id in status || plan[j] in pending
  }

  /** A finished sweep with its pending directories settled leaves nothing out. */
  lemma SweptAll(plan: seq<Operation>, selection: set<OpId>, status: map<OpId, Outcome>, pending: seq<Operation>, final: map<OpId, Outcome>)
    requires AllHadTheirTurn(plan, selection, status, pending)
    requires forall id :: id in selection ==> id in Ids(plan)
    requires Extends(status, final) && forall op :: op in pending ==> op.id in final
    ensures selection <= final.Keys
  {
    forall id | id in selection
      ensures id in final
    {
      var j :| 0 <= j < |plan| && Ids(plan)[j] == id;
      assert plan[j].id == id;
    }
  }

  /** The first `n` operations have their status. */
  predicate CanceledUpto(plan: seq<Operation>, selection: set<OpId>, status: map<OpId, Outcome>, n: nat)
    requires n <= |plan|
  {
    forall j :: 0 <= j < n && plan[j].id in selection ==> plan[j].id in status
  }

  lemma CanceledNext(plan: seq<Operation>, selection: set<OpId>, before: map<OpId, Outcome>, after: map<OpId, Outcome>, n: nat)
    requires n < |plan| && CanceledUpto(plan, selection, before, n) && Extends(before, after)
    requires plan[n].id in selection ==> plan[n].id in after
    ensures CanceledUpto(plan, selection, after, n + 1)
  {
  }

  /** Statuses added since are all canceled. */
  predicate CanceledSince(before: map<OpId, Outcome>, after: map<OpId, Outcome>) {
    forall id :: id in after && id !in before ==> after[id] == Canceled
  }

  lemma CanceledJoin(a: map<OpId, Outcome>, b: map<OpId, Outcome>, c: map<OpId, Outcome>)
    requires CanceledSince(a, b) && CanceledSince(b, c) && Extends(b, c)
    ensures CanceledSince(a, c)
  {
  }

  lemma CanceledErectsNothing(before: map<OpId, Outcome>, a: map<OpId, Outcome>, b: map<OpId, Outcome>)
    requires CanceledSince(a, b) && Extends(a, b)
    ensures Erected(before, b) == Erected(before, a)
  {
  }

  predicate AllWell(status: map<OpId, Outcome>) {
    forall id :: id in status ==> status[id] !in {Failed, Canceled, Deferred}
  }

  class Execution {
    const setup: Setup
    const plan: seq<Operation>
    const selection: set<OpId>
    const volume: TargetVolume
    const maxRetries: nat
    var status: map<OpId, Outcome>
    var events: seq<ItemOutcome>
    /** Directories created in this call and not yet finalized. */
    var pending: seq<Operation>
    var ready: set<OpId>
    /** Of the current call: the statuses and the history it began with, what was gone ahead with and
        what was put off, and directories created. */
    ghost var begun: map<OpId, Outcome>
    ghost var base: nat
    ghost var admitted: seq<Admission>
    ghost var withheld: seq<Admission>
    ghost var made: seq<Creation>

    predicate Planned()
    {
      && UniqueIds(plan)
      && AllShaped(plan)
      && SourceSound(setup)
      && setup.serial == volume.serial
      && (forall id :: id in selection ==> id in Ids(plan))
    }

    /** The books of the run: one outcome per settled operation, each with its reason, and decisions
        that were justified when they were made. */
    ghost predicate Kept()
      reads this`status, this`events, this`pending, this`begun, this`admitted, this`withheld, this`made
    {
      && Tallied(selection, status, events)
      && Explained(plan, begun, status, admitted, withheld)
      && Decided(plan, selection, status, made, admitted, withheld)
      && AllGenuine(plan, selection, made)
      && AllTried(admitted, pending)
    }

    ghost predicate Valid()
      reads this, volume
    {
      Planned() && Kept() && volume.Logged() && Sound(volume.world)
    }

    predicate Counts(progress: ProgressTracker)
      reads this`status, progress
    {
      progress.itemsDone == |status| && progress.itemsTotal == |selection|
    }

    /** The machine is idle between operations, and the volume is secured so far. */
    ghost predicate Sailing(machine: Machine, start: World, spent: nat)
      reads this`base, this`admitted, this`made, machine, volume, machine.progress
    {
      && machine.setup == setup && machine.volume == volume && machine.Valid()
      && machine.inflight == None && machine.continuations == map[]
      && base < |volume.history| && Recorded(volume.history, base, admitted, made)
      && Secured(setup, plan, selection, start, volume.world, spent, admitted)
    }

    constructor (setup: Setup, plan: seq<Operation>, selection: set<OpId>, volume: TargetVolume, maxRetries: nat)
      requires UniqueIds(plan) && AllShaped(plan) && SourceSound(setup) && Sound(volume.world)
      requires volume.Logged() && setup.serial == volume.serial
      requires forall id :: id in selection ==> id in Ids(plan)
      ensures Valid() && status == map[] && events == []
      ensures this.setup == setup && this.plan == plan && this.selection == selection && this.volume == volume
    {
      this.setup, this.plan, this.selection, this.volume, this.maxRetries := setup, plan, selection, volume, maxRetries;
      status, events, pending, ready := map[], [], [], {};
      begun, base, admitted, withheld, made := map[], 0, [], [], [];
    }

    ghost predicate Watched(h0: seq<World>, h: seq<World>, start: World, budget: nat)
      reads this`admitted
    {
      AllSecured(setup, plan, selection, start, h0, h, budget, admitted)
    }

    lemma WatchedJoin(h0: seq<World>, h1: seq<World>, h: seq<World>, start: World, budget: nat)
      requires Watched(h0, h1, start, budget) && Watched(h1, h, start, budget)
      ensures Watched(h0, h, start, budget)
    {
      AllSecuredOn(setup, plan, selection, start, h0, h1, h, budget, budget, admitted, admitted);
    }

    // -------------------------------------------------------------- settling

    /** Record and report a final status once; a settled operation is left alone. */
    method Settle(op: Operation, outcome: Outcome, progress: ProgressTracker)
      requires Kept() && op.id in selection && progress.Valid() && Counts(progress)
      requires Reasoned(plan, admitted, withheld, op.id, outcome)
      modifies this`status, this`events, progress
      ensures Kept() && progress.Valid() && Counts(progress)
      ensures status == if op.id in old(status) then old(status) else old(status)[op.id := outcome]
      ensures events == if op.id in old(status) then old(events) else old(events) + [ItemOutcome(op.id, outcome)]
      ensures old(events) <= events
      ensures old(progress.bytesDone) <= progress.bytesDone
    {
      if op.id in status {
        return;
      }
      TalliedStep(selection, status, events, op.id, outcome);
      DecidedLater(plan, selection, status, made, admitted, withheld, status[op.id := outcome], made);
      ExplainedNext(plan, begun, status, admitted, withheld, op.id, outcome);
      status, events := status[op.id := outcome], events + [ItemOutcome(op.id, outcome)];
      progress.Settled(op, outcome);
    }

    // ------------------------------------------------------- one operation's turn

    /** Create a directory now; its metadata is applied once its contents are done. */
    method StartDirectory(op: Operation, machine: Machine, ghost start: World, ghost spent: nat) returns (created: bool)
      requires Sailing(machine, start, spent) && Begun(admitted, op, volume.world)
      requires Chosen(plan, selection, op) && op.kind == Mkdir && op.blocked.None?
      modifies volume
      ensures Sailing(machine, start, spent)
      ensures Watched(old(volume.history), volume.history, start, spent)
      ensures created ==> Accomplished(setup, op, old(volume.world), volume.world)
    {
      var target := TargetPlace(op);
      var absent := machine.GuardAbsent(target);
      var resolved := volume.Resolve(target, false);
      if absent.Err? || resolved.Err? {
        return false;
      }
      ghost var w1, h1 := volume.world, volume.history;
      var r := volume.MakeDirectory(target);
      RecordedLater(h1, volume.history, base, admitted, made);
      if volume.world != w1 {
        var stat: Stat :| volume.world == WithDirectory(w1, target, stat);
        SecuredByCreation(setup, plan, selection, start, w1, op, stat, spent, admitted);
      }
      return r.Ok?;
    }

    /** Run the operation with its retries. */
    method Perform(op: Operation, machine: Machine, ghost start: World, ghost spent: nat) returns (r: Result<Outcome>, stop: bool)
      requires Sailing(machine, start, spent) && Begun(admitted, op, volume.world)
      requires Chosen(plan, selection, op) && op.blocked.None? && Shaped(op)
      modifies volume, machine, machine.progress
      ensures Sailing(machine, start, spent + Charge(setup, op)) && machine.progress.Advanced()
      ensures Watched(old(volume.history), volume.history, start, spent + Charge(setup, op))
      ensures r.Err? ==> r.error == CancelRequested || r.error == PauseRequested
      ensures r.Ok? ==> r.value in {Succeeded, Skipped, Failed} && (r.value == Skipped ==> op.kind == Noop)
      ensures r.Ok? && r.value != Failed ==> Accomplished(setup, op, old(volume.world), volume.world)
    {
      ghost var h1 := volume.history;
      r, stop := machine.CarryThrough(op, maxRetries);
      RecordedLater(h1, volume.history, base, admitted, made);
      SecuredByTrace(setup, plan, selection, start, op, spent, h1, volume.history, admitted);
    }

    /** An operation whose dependencies are met is carried out; a directory stays pending. */
    method Proceed(op: Operation, machine: Machine, ghost start: World, ghost spent: nat) returns (r: Result<Option<Outcome>>, stop: bool)
      requires Sailing(machine, start, spent) && Begun(admitted, op, volume.world)
      requires Chosen(plan, selection, op) && op.blocked.None? && Shaped(op)
      modifies volume, machine, machine.progress
      ensures Sailing(machine, start, spent + Charge(setup, op)) && machine.progress.Advanced()
      ensures Watched(old(volume.history), volume.history, start, spent + Charge(setup, op))
      ensures r.Err? ==> r.error == CancelRequested || r.error == PauseRequested
      ensures r.Ok? ==> if op.kind == Mkdir then r.value in {None, Some(Failed)} else r.value.Some?
      ensures r.Ok? && r.value != Some(Failed) ==> Accomplished(setup, op, old(volume.world), volume.world)
    {
      if op.kind == Mkdir {
        var created := StartDirectory(op, machine, start, spent);
        return Ok(if created then None else Some(Failed)), false;
      }
      var outcome;
      outcome, stop := Perform(op, machine, start, spent);
      var settled :- outcome;
      return Ok(Some(settled)), stop;
    }

    /** Why an operation is settled without being tried, if it is. */
    function Declined(op: Operation, stopped: bool): Option<Outcome>
      reads this
    {
      if stopped then Some(Canceled)
      else if op.blocked.Some? then Some(Failed)
      else if !DependenciesMet(op, status, ready) then Some(Deferred)
      else None
    }

    /** Log the decision to go ahead, with its grounds. */
    ghost method LogAdmission(op: Operation, machine: Machine, start: World, spent: nat)
      requires Sailing(machine, start, spent) && Kept() && Chosen(plan, selection, op) && op.blocked.None?
      requires Usable(ready, made) && DependenciesMet(op, status, ready)
      modifies this`admitted
      ensures Sailing(machine, start, spent) && Kept() && Begun(admitted, op, volume.world)
      ensures admitted == old(admitted) + [Admission(op, status, made, volume.world)] && Among(admitted, op.id)
    {
      var a := Admission(op, status, made, volume.world);
      var longer := admitted + [a];
      assert OnRecord(volume.history, base, volume.world);
      RecordedNext(volume.history, base, admitted, made, a, Creation(op, volume.world, volume.world));
      SecuredWider(setup, plan, selection, start, volume.world, spent, spent, admitted, longer);
      ExplainedLater(plan, begun, status, admitted, withheld, longer, withheld);
      UsableDecides(op, status, ready, made, volume.world);
      DecidedNext(plan, selection, status, made, admitted, withheld, a);
      AllTriedLater(admitted, longer, pending);
      assert a in longer;
      admitted := longer;
    }

    /** A directory was created: it may be built upon from now on. */
    method Await(op: Operation, machine: Machine, ghost start: World, ghost spent: nat, ghost w1: World)
      requires Sailing(machine, start, spent) && Kept() && Usable(ready, made) && Among(admitted, op.id)
      requires Chosen(plan, selection, op) && op.kind == Mkdir
      requires Accomplished(setup, op, w1, volume.world) && OnRecord(volume.history, base, w1)
      modifies this`pending, this`ready, this`made
      ensures Sailing(machine, start, spent) && Kept() && Usable(ready, made)
      ensures pending == old(pending) + [op] && made == old(made) + [Creation(op, w1, volume.world)]
    {
      ghost var c := Creation(op, w1, volume.world);
      assert OnRecord(volume.history, base, volume.world);
      RecordedNext(volume.history, base, admitted, made, Admission(op, status, made, w1), c);
      DecidedLater(plan, selection, status, made, admitted, withheld, status, made + [c]);
      AllGenuineNext(plan, selection, made, c);
      AllTriedNext(admitted, pending, op);
      UsableNext(ready, made, c);
      pending, ready := pending + [op], ready + {op.id};
      made := made + [c];
    }

    /** Log the decision to go ahead and carry the operation out. */
    method GoAhead(op: Operation, machine: Machine, ghost start: World, ghost spent: nat) returns (r: Result<Option<Outcome>>, stop: bool)
      requires Sailing(machine, start, spent) && Kept() && Usable(ready, made)
      requires Chosen(plan, selection, op) && Shaped(op) && Declined(op, false) == None
      modifies this`admitted, volume, machine, machine.progress
      ensures Sailing(machine, start, spent + Charge(setup, op)) && Kept() && machine.progress.Advanced()
      ensures Watched(old(volume.history), volume.history, start, spent + Charge(setup, op))
      ensures admitted == old(admitted) + [Admission(op, status, made, old(volume.world))] && Among(admitted, op.id)
      ensures r.Err? ==> r.error == CancelRequested || r.error == PauseRequested
      ensures r.Ok? ==> if op.kind == Mkdir then r.value in {None, Some(Failed)} else r.value.Some?
      ensures r.Ok? && r.value != Some(Failed) ==> Accomplished(setup, op, old(volume.world), volume.world)
      ensures OnRecord(volume.history, base, old(volume.world))
    {
      LogAdmission(op, machine, start, spent);
      ghost var h1 := volume.history;
      assert OnRecord(h1, base, volume.world);
      r, stop := Proceed(op, machine, start, spent);
      OnRecordLater(h1, volume.history, base, old(volume.world));
    }

    /** Settle what has an outcome; a created directory is pending. */
    method Book(op: Operation, outcome: Option<Outcome>, machine: Machine, ghost start: World, ghost spent: nat, ghost w1: World)
      requires Sailing(machine, start, spent) && Kept() && Counts(machine.progress) && Usable(ready, made)
      requires Chosen(plan, selection, op) && op.id !in status && Among(admitted, op.id)
      requires outcome.None? ==> op.kind == Mkdir && Accomplished(setup, op, w1, volume.world) && OnRecord(volume.history, base, w1)
      modifies this`status, this`events, this`pending, this`ready, this`made, machine.progress
      ensures Sailing(machine, start, spent) && Kept() && Counts(machine.progress) && Usable(ready, made)
      ensures if outcome.Some?
              then status == old(status)[op.id := outcome.value] && pending == old(pending)
              else status == old(status) && pending == old(pending) + [op]
      ensures old(events) <= events
      ensures old(machine.progress.bytesDone) <= machine.progress.bytesDone
    {
      if outcome.Some? {
        Settle(op, outcome.value, machine.progress);
      } else {
        Await(op, machine, start, spent, w1);
      }
    }

    /** Try an admissible operation, and book the result. */
    method AdmitMet(op: Operation, machine: Machine, ghost start: World, ghost spent: nat) returns (r: Result<Unit>, stop: bool)
      requires Sailing(machine, start, spent) && Kept() && Counts(machine.progress) && Usable(ready, made)
      requires Chosen(plan, selection, op) && Shaped(op) && op.id !in status && Declined(op, false) == None
      modifies this`status, this`events, this`pending, this`ready, this`admitted, this`made, volume, machine, machine.progress
      ensures Sailing(machine, start, spent + Charge(setup, op)) && Kept() && Counts(machine.progress) && Usable(ready, made)
      ensures Watched(old(volume.history), volume.history, start, spent + Charge(setup, op))
      ensures r.Err? ==> (r.error == CancelRequested || r.error == PauseRequested) && status == old(status) && pending == old(pending)
      ensures r.Ok? ==> if op.id in status
                        then status == old(status)[op.id := status[op.id]] && pending == old(pending)
                        else status == old(status) && pending == old(pending) + [op] && op.kind == Mkdir
      ensures r.Ok? && op.kind == Mkdir && op.id in status ==> !Fulfilled(status, op)
      ensures admitted == old(admitted) + [Admission(op, old(status), old(made), old(volume.world))]
      ensures r.Ok? && Fulfilled(status, op) ==> Accomplished(setup, op, old(volume.world), volume.world)
      ensures old(events) <= events
      ensures old(machine.progress.bytesDone) <= machine.progress.bytesDone
    {
      ghost var w1 := volume.world;
      var outcome;
      outcome, stop := GoAhead(op, machine, start, spent);
      if outcome.Err? {
        return Err(outcome.error), stop;
      }
      Book(op, outcome.value, machine, start, spent + Charge(setup, op), w1);
      r := Ok(Unit);
    }

    /** Settle an operation that may not run. */
    method Decline(op: Operation, stopped: bool, machine: Machine)
      requires Kept() && machine.progress.Valid() && Counts(machine.progress) && Usable(ready, made)
      requires Chosen(plan, selection, op) && op.id !in status && Declined(op, stopped).Some?
      modifies this`status, this`events, this`withheld, machine.progress
      ensures Kept() && machine.progress.Valid() && Counts(machine.progress)
      ensures status == old(status)[op.id := old(Declined(op, stopped)).value] && old(events) <= events
      ensures old(machine.progress.bytesDone) <= machine.progress.bytesDone
    {
      var outcome := Declined(op, stopped).value;
      if outcome == Deferred {
        ghost var a := Admission(op, status, made, volume.world);
        ghost var longer := withheld + [a];
        UsableDecides(op, status, ready, made, volume.world);
        DecidedNext(plan, selection, status, made, admitted, withheld, a);
        ExplainedLater(plan, begun, status, admitted, withheld, admitted, longer);
        assert a in longer;
        withheld := longer;
      }
      Settle(op, outcome, machine.progress);
    }

    /** One operation's turn: honour a stop request, settle what may not run, try the rest. */
    method Admit(op: Operation, machine: Machine, stopped: bool, ghost start: World, ghost spent: nat) returns (r: Result<Unit>, stop: bool)
      requires Sailing(machine, start, spent) && Kept() && Counts(machine.progress) && Usable(ready, made)
      requires Chosen(plan, selection, op) && (op.blocked.None? ==> Shaped(op)) && op.id !in status
      modifies this`status, this`events, this`pending, this`ready, this`admitted, this`withheld, this`made, volume, machine, machine.progress
      ensures Sailing(machine, start, spent + Charge(setup, op)) && Kept() && Counts(machine.progress) && Usable(ready, made)
      ensures Watched(old(volume.history), volume.history, start, spent + Charge(setup, op))
      ensures r.Err? ==> (r.error == CancelRequested || r.error == PauseRequested) && status == old(status) && pending == old(pending)
      ensures r.Ok? ==> if op.id in status
                        then status == old(status)[op.id := status[op.id]] && pending == old(pending)
                        else status == old(status) && pending == old(pending) + [op] && op.kind == Mkdir && op.blocked.None?
      ensures r.Ok? && op.kind == Mkdir && op.id in status ==> !Fulfilled(status, op)
      ensures r.Ok? && old(Declined(op, stopped)).Some? ==> op.id in status && status[op.id] == old(Declined(op, stopped)).value
      ensures admitted == old(admitted) || admitted == old(admitted) + [Admission(op, old(status), old(made), old(volume.world))]
      ensures r.Ok? ==> (admitted == old(admitted) <==> old(Declined(op, stopped)).Some?)
      ensures old(Declined(op, stopped)).Some? ==> volume.history == old(volume.history) && (r.Ok? ==> stop == stopped)
      ensures r.Ok? && Fulfilled(status, op) ==> Accomplished(setup, op, old(volume.world), volume.world)
      ensures old(events) <= events
      ensures old(machine.progress.bytesDone) <= machine.progress.bytesDone
    {
      stop := stopped;
      r := machine.Checkpoint();
      if r.Ok? {
        machine.progress.Start(op);
      }
      if r.Ok? && Declined(op, stopped).None? {
        r, stop := AdmitMet(op, machine, start, spent);
      } else {
        TurnDown(op, r.Ok?, stopped, machine, start, spent);
      }
    }

    /** An operation that is not tried costs nothing: it is declined, or left for a later call. */
    method TurnDown(op: Operation, settled: bool, stopped: bool, machine: Machine, ghost start: World, ghost spent: nat)
      requires Sailing(machine, start, spent) && Kept() && Counts(machine.progress) && Usable(ready, made)
      requires Chosen(plan, selection, op) && op.id !in status && (settled ==> Declined(op, stopped).Some?)
      modifies this`status, this`events, this`withheld, machine.progress
      ensures Sailing(machine, start, spent + Charge(setup, op)) && Kept() && Counts(machine.progress)
      ensures status == if settled then old(status)[op.id := old(Declined(op, stopped)).value] else old(status)
      ensures settled ==> !Fulfilled(status, op)
      ensures old(events) <= events && old(machine.progress.bytesDone) <= machine.progress.bytesDone
    {
      SecuredWider(setup, plan, selection, start, volume.world, spent, spent + Charge(setup, op), admitted, admitted);
      if settled {
        Decline(op, stopped, machine);
      }
    }

    // ------------------------------------------------------------- directories

    /** Apply directory metadata at the place of a selected directory creation. */
    method DressDirectory(op: Operation, machine: Machine, ghost start: World, ghost spent: nat) returns (ok: bool)
      requires Sailing(machine, start, spent) && IntendedStat(op).Some?
      requires Chosen(plan, selection, op) && op.kind == Mkdir && op.blocked.None?
      modifies volume
      ensures Sailing(machine, start, spent)
      ensures Watched(old(volume.history), volume.history, start, spent)
      ensures ok ==> Clad(setup, volume.world, op)
      ensures Redressed(old(volume.world), volume.world, {TargetPlace(op)})
    {
      var target, intended := TargetPlace(op), IntendedStat(op).value;
      RedressedRefl(volume.world, {target});
      var resolved := volume.Resolve(target, true);
      if resolved.Err? {
        return false;
      }
      ghost var w1, h1 := volume.world, volume.history;
      var dressed := volume.ApplyMetadata(target, intended, setup.preserveCreated, true);
      RecordedLater(h1, volume.history, base, admitted, made);
      SecuredByRetouch(setup, plan, selection, start, w1, volume.world, op, intended, setup.preserveCreated, true, spent, admitted);
      RetouchClads(setup, w1, op);
      if volume.world != w1 {
        var steps: nat :| volume.world == Retouched(w1, target, intended, setup.preserveCreated, true, steps);
        RetouchRedresses(w1, target, intended, setup.preserveCreated, true, steps, {target});
      }
      return dressed.Ok?;
    }

    method DressPending(op: Operation, machine: Machine, ghost start: World, ghost spent: nat) returns (ok: bool)
      requires Sailing(machine, start, spent)
      requires Chosen(plan, selection, op) && op.kind == Mkdir && op.blocked.None?
      modifies volume
      ensures Sailing(machine, start, spent)
      ensures Watched(old(volume.history), volume.history, start, spent)
      ensures ok ==> Clad(setup, volume.world, op) && IntendedStat(op).value.kind == DirectoryEntry
      ensures Redressed(old(volume.world), volume.world, {TargetPlace(op)})
    {
      RedressedRefl(volume.world, {TargetPlace(op)});
      var intended := IntendedStat(op);
      ok := false;
      if intended.Some? && intended.value.kind == DirectoryEntry {
        ok := DressDirectory(op, machine, start, spent);
        if ok {
          var found := machine.RequireStat(TargetPlace(op));
          ok := found.Ok?;
        }
      }
    }

    /** Dress one pending directory and settle it: it succeeds only in what was intended for it. */
    method FinalizeDirectory(op: Operation, machine: Machine, ghost start: World, ghost spent: nat)
      requires Sailing(machine, start, spent) && Kept() && Counts(machine.progress)
      requires Chosen(plan, selection, op) && op.kind == Mkdir && op.blocked.None? && Among(admitted, op.id) && op.id !in status
      modifies this`status, this`events, this`ready, volume, machine.progress
      ensures Sailing(machine, start, spent) && Kept() && Counts(machine.progress)
      ensures Watched(old(volume.history), volume.history, start, spent)
      ensures op.id in status && status == old(status)[op.id := status[op.id]]
      ensures status[op.id] == Failed || (status[op.id] == Succeeded && Clad(setup, volume.world, op) && IntendedStat(op).value.kind == DirectoryEntry)
      ensures events == old(events) + [ItemOutcome(op.id, status[op.id])]
      ensures Redressed(old(volume.world), volume.world, {TargetPlace(op)})
    {
      var ok := DressPending(op, machine, start, spent);
      Settle(op, if ok then Succeeded else Failed, machine.progress);
      ready := ready - {op.id};
    }

    ghost predicate Creations(order: seq<Operation>)
      reads this`admitted
    {
      forall j :: 0 <= j < |order| ==> Chosen(plan, selection, order[j]) && order[j].kind == Mkdir && order[j].blocked.None? && Among(admitted, order[j].id)
    }

    method FinalizeInOrder(order: seq<Operation>, machine: Machine, ghost before: map<OpId, Outcome>, ghost start: World, ghost spent: nat)
      requires Sailing(machine, start, spent) && Kept() && Counts(machine.progress) && Creations(order)
      requires UniqueIds(order) && Unsettled(order, 0, status)
      requires UniqueIds(plan) && Furnished(setup, plan, selection, Erected(before, status), volume.world)
      modifies this`status, this`events, this`ready, volume, machine.progress
      ensures Sailing(machine, start, spent) && Kept() && Counts(machine.progress)
      ensures Watched(old(volume.history), volume.history, start, spent)
      ensures SettledUpto(order, |order|, status) && ReportedInOrder(old(events), events, order, |order|)
      ensures Extends(old(status), status) && old(events) <= events
      ensures Redressed(old(volume.world), volume.world, Built(plan, selection))
      ensures Furnished(setup, plan, selection, Erected(before, status), volume.world)
    {
      for k := 0 to |order|
        invariant Sailing(machine, start, spent) && Kept() && Counts(machine.progress)
        invariant Watched(old(volume.history), volume.history, start, spent)
        invariant SettledUpto(order, k, status) && Unsettled(order, k, status)
        invariant ReportedInOrder(old(events), events, order, k)
        invariant Extends(old(status), status) && old(events) <= events
        invariant Redressed(old(volume.world), volume.world, Built(plan, selection))
        invariant Furnished(setup, plan, selection, Erected(before, status), volume.world)
      {
        ghost var h, s, w, e := volume.history, status, volume.world, events;
        FinalizeDirectory(order[k], machine, start, spent);
        FurnishedNext(setup, plan, selection, Erected(before, s), w, volume.world, order[k], Erected(before, status));
        RedressedAt(plan, selection, old(volume.world), w, volume.world, order[k]);
        WatchedJoin(old(volume.history), h, volume.history, start, spent);
        ExtendsByOne(s, status, order[k].id);
        ExtendsTransitive(old(status), s, status);
        SettledNext(order, k, s, status);
        UnsettledNext(order, k, s, status);
        ReportedNext(old(events), e, events, order, k);
      }
    }

    /** Settle every pending directory, deepest first.  Those that succeed look as intended. */
    method FinalizeDirectories(machine: Machine, ghost before: map<OpId, Outcome>, ghost start: World, ghost spent: nat)
      requires Sailing(machine, start, spent) && Kept() && Counts(machine.progress)
      requires Awaited(plan, selection, status, pending) && UniqueIds(plan) && NoneErected(plan, before, status)
      modifies this`status, this`events, this`pending, this`ready, volume, machine.progress
      ensures Sailing(machine, start, spent) && Kept() && Counts(machine.progress) && pending == []
      ensures Furnished(setup, plan, selection, Erected(before, status), volume.world)
      ensures Watched(old(volume.history), volume.history, start, spent)
      ensures forall op :: op in old(pending) ==> op.id in status
      ensures ReportedInOrder(old(events), events, Deepened(old(pending)), |Deepened(old(pending))|)
      ensures Extends(old(status), status) && old(events) <= events
      ensures Redressed(old(volume.world), volume.world, Built(plan, selection))
    {
      DeepenedIsOrdering(pending);
      var order := Deepened(pending);
      forall j | 0 <= j < |order|
        ensures order[j] in pending && Among(admitted, order[j].id)
      {
        assert order[j] in order && PendingAt(admitted, pending, order[j]);
      }
      pending := [];
      NothingToFurnish(setup, plan, selection, before, status, volume.world);
      FinalizeInOrder(order, machine, before, start, spent);
      assert forall op :: op in old(pending) ==> op in order;
    }

    /** A directory that an earlier call created and that is to get its metadata back. */
    predicate Owed(op: Operation, restore: set<OpId>) {
      op.kind == Mkdir && op.blocked.None? && op.id in selection && op.id in restore && IntendedStat(op).Some?
    }

    /** From position `k` on every directory to be restored is among the furnished ones. */
    ghost predicate RestoredFrom(restore: set<OpId>, ids: set<OpId>, k: nat) {
      forall j :: k <= j < |plan| && Owed(plan[j], restore) ==> plan[j].id in ids
    }

    /** A directory that an earlier call created gets its metadata back; anything else is left alone. */
    method RestoreDirectory(op: Operation, machine: Machine, restore: set<OpId>, ghost ids: set<OpId>, ghost start: World, ghost spent: nat)
      returns (ok: bool, ghost more: set<OpId>)
      requires Sailing(machine, start, spent) && UniqueIds(plan) && op in plan && (op.id in ids ==> op.id !in restore)
      requires Furnished(setup, plan, selection, ids, volume.world)
      modifies volume
      ensures Sailing(machine, start, spent)
      ensures Watched(old(volume.history), volume.history, start, spent)
      ensures Redressed(old(volume.world), volume.world, Built(plan, selection))
      ensures Furnished(setup, plan, selection, more, volume.world) && ids <= more <= ids + {op.id}
      ensures ok && Owed(op, restore) ==> op.id in more
    {
      RedressedRefl(volume.world, Built(plan, selection));
      ok, more := true, ids;
      if Owed(op, restore) {
        ghost var w := volume.world;
        ok := DressDirectory(op, machine, start, spent);
        more := if ok then ids + {op.id} else ids;
        FurnishedNext(setup, plan, selection, ids, w, volume.world, op, more);
        RedressedAt(plan, selection, w, w, volume.world, op);
      }
    }

    /** Directories created by an earlier call get their metadata back; a failure is only noted. */
    method RestoreDirectories(machine: Machine, restore: set<OpId>, ghost others: set<OpId>, ghost start: World, ghost spent: nat)
      returns (failed: bool, ghost furnished: set<OpId>)
      requires Sailing(machine, start, spent) && UniqueIds(plan) && others !! restore
      requires Furnished(setup, plan, selection, others, volume.world)
      modifies volume
      ensures Sailing(machine, start, spent)
      ensures Watched(old(volume.history), volume.history, start, spent)
      ensures Redressed(old(volume.world), volume.world, Built(plan, selection))
      ensures Furnished(setup, plan, selection, furnished, volume.world) && others <= furnished
      ensures !failed ==> RestoredFrom(restore, furnished, 0)
    {
      failed, furnished := false, others;
      RedressedRefl(volume.world, Built(plan, selection));
      var k := |plan|;
      while k > 0
        invariant 0 <= k <= |plan|
        invariant Sailing(machine, start, spent)
        invariant Watched(old(volume.history), volume.history, start, spent)
        invariant Redressed(old(volume.world), volume.world, Built(plan, selection))
        invariant Furnished(setup, plan, selection, furnished, volume.world) && others <= furnished
        invariant forall j :: 0 <= j < k ==> plan[j].id !in furnished - others
        invariant !failed ==> RestoredFrom(restore, furnished, k)
      {
        ghost var w, h := volume.world, volume.history;
        k := k - 1;
        var ok;
        ok, furnished := RestoreDirectory(plan[k], machine, restore, furnished, start, spent);
        RedressedTransitive(old(volume.world), w, volume.world, Built(plan, selection));
        WatchedJoin(old(volume.history), h, volume.history, start, spent);
        failed := failed || !ok;
      }
    }

    // ------------------------------------------------------------------- a call

    /** The turn of the `i`-th planned operation. */
    method Turn(i: nat, machine: Machine, stopped: bool, before: map<OpId, Outcome>, ghost start: World, ghost spent: nat)
      returns (r: Result<Unit>, stop: bool)
      requires i < |plan| && Planned() && Swept(plan, selection, before, status, pending, i)
      requires Sailing(machine, start, spent) && Kept() && Counts(machine.progress) && Usable(ready, made)
      modifies this`status, this`events, this`pending, this`ready, this`admitted, this`withheld, this`made, volume, machine, machine.progress
      ensures Sailing(machine, start, spent + Toll(setup, plan[i], selection, before)) && Kept() && Counts(machine.progress)
      ensures Usable(ready, made) && old(admitted) <= admitted
      ensures Watched(old(volume.history), volume.history, start, spent + Toll(setup, plan[i], selection, before))
      ensures old(events) <= events && old(machine.progress.bytesDone) <= machine.progress.bytesDone
      ensures r.Err? ==> r.error == CancelRequested || r.error == PauseRequested
      ensures Swept(plan, selection, before, status, pending, if r.Ok? then i + 1 else i)
      ensures Extends(old(status), status)
      ensures r.Ok? ==> TrailAt(setup, [plan[i]], selection, before, status, [old(volume.world), volume.world], 0)
    {
      var op := plan[i];
      stop := stopped;
      if op.id !in selection || op.id in status {
        SecuredWider(setup, plan, selection, start, volume.world, spent, spent + Toll(setup, op, selection, before), admitted, admitted);
        SweptSkip(plan, selection, before, status, pending, i);
        return Ok(Unit), stop;
      }
      ghost var s, p := status, pending;
      r, stop := Admit(op, machine, stopped, start, spent);
      ExtendsByOne(s, status, op.id);
      if r.Ok? {
        SweptNext(plan, selection, before, s, p, i, status, pending);
      }
    }

    /** A sweep up to position `i`: books, budget and the trail of volumes are in order. */
    ghost predicate Afloat(machine: Machine, r: Result<Unit>, before: map<OpId, Outcome>, start: World, spent: nat, h0: seq<World>, ws: seq<World>, i: nat)
      reads this, machine, volume, machine.progress
    {
      && i <= |plan| && spent <= Granted(setup, plan, selection, before, |plan|)
      && (r.Err? ==> r.error == CancelRequested || r.error == PauseRequested)
      && Swept(plan, selection, before, status, pending, i)
      && Sailing(machine, start, spent) && Kept() && Counts(machine.progress) && Usable(ready, made)
      && Watched(h0, volume.history, start, Granted(setup, plan, selection, before, |plan|))
      && (r.Ok? ==> spent == Granted(setup, plan, selection, before, i))
      && (r.Ok? ==> Trail(setup, plan, selection, before, status, ws, i) && ws[i] == volume.world)
    }

    /** A turn in a sweep. */
    method TakeTurn(i: nat, machine: Machine, stopped: bool, before: map<OpId, Outcome>, ghost start: World, ghost spent: nat,
                    ghost h0: seq<World>, ghost ws: seq<World>)
      returns (r: Result<Unit>, stop: bool, next: nat, ghost more: seq<World>, ghost cost: nat)
      requires i < |plan| && Planned() && Afloat(machine, Ok(Unit), before, start, spent, h0, ws, i)
      modifies this`status, this`events, this`pending, this`ready, this`admitted, this`withheld, this`made, volume, machine, machine.progress
      ensures Afloat(machine, r, before, start, cost, h0, more, next)
      ensures next == (if r.Ok? then i + 1 else i) && more != [] && more[0] == ws[0]
      ensures old(events) <= events && old(machine.progress.bytesDone) <= machine.progress.bytesDone
    {
      ghost var h, s, log := volume.history, status, admitted;
      ghost var total := Granted(setup, plan, selection, before, |plan|);
      cost := GrantedNext(before, spent, i);
      r, stop := Turn(i, machine, stopped, before, start, spent);
      AllSecuredOn(setup, plan, selection, start, h0, h, volume.history, cost, total, log, admitted);
      more, next := ws, i;
      if r.Ok? {
        TrailGrows(setup, plan, selection, before, s, status, ws, i, volume.world);
        more, next := ws + [volume.world], i + 1;
      }
    }

    lemma GrantedNext(before: map<OpId, Outcome>, spent: nat, i: nat) returns (cost: nat)
      requires i < |plan| && spent == Granted(setup, plan, selection, before, i)
      ensures cost == spent + Toll(setup, plan[i], selection, before) == Granted(setup, plan, selection, before, i + 1)
      ensures cost <= Granted(setup, plan, selection, before, |plan|)
    {
      GrantedMonotone(setup, plan, selection, before, i + 1);
      cost := Granted(setup, plan, selection, before, i + 1);
    }

    /** Every remaining operation gets its turn, unless a stop request ends the sweep. */
    method Sweep(machine: Machine, ghost start: World) returns (r: Result<Unit>, ghost ws: seq<World>)
      requires Planned() && Kept() && Counts(machine.progress) && pending == [] && Usable(ready, made) && Sailing(machine, start, 0)
      modifies this`status, this`events, this`pending, this`ready, this`admitted, this`withheld, this`made, volume, machine, machine.progress
      ensures Sailing(machine, start, Granted(setup, plan, selection, old(status), |plan|)) && Kept() && Counts(machine.progress)
      ensures Watched(old(volume.history), volume.history, start, Granted(setup, plan, selection, old(status), |plan|))
      ensures old(events) <= events && old(machine.progress.bytesDone) <= machine.progress.bytesDone
      ensures Extends(old(status), status) && Awaited(plan, selection, status, pending)
      ensures r.Err? ==> r.error == CancelRequested || r.error == PauseRequested
      ensures NoneErected(plan, old(status), status)
      ensures r.Ok? ==> AllHadTheirTurn(plan, selection, status, pending)
      ensures r.Ok? ==> Trail(setup, plan, selection, old(status), status, ws, |plan|) && ws[0] == old(volume.world) && ws[|plan|] == volume.world
    {
      SweptStart(plan, selection, status);
      ghost var spent;
      r, ws, spent := SweepFrom(machine, start, volume.history, [volume.world]);
      SecuredWider(setup, plan, selection, start, volume.world, spent, Granted(setup, plan, selection, old(status), |plan|), admitted, admitted);
    }

    /** The loop of the sweep. */
    method SweepFrom(machine: Machine, ghost start: World, ghost h0: seq<World>, ghost w0: seq<World>)
      returns (r: Result<Unit>, ghost ws: seq<World>, ghost spent: nat)
      requires Planned() && Afloat(machine, Ok(Unit), status, start, 0, h0, w0, 0)
      modifies this`status, this`events, this`pending, this`ready, this`admitted, this`withheld, this`made, volume, machine, machine.progress
      ensures exists i :: Afloat(machine, r, old(status), start, spent, h0, ws, i) && (r.Ok? ==> i == |plan|)
      ensures ws != [] && ws[0] == w0[0]
      ensures old(events) <= events && old(machine.progress.bytesDone) <= machine.progress.bytesDone
    {
      var before, stop, i := status, false, 0;
      ws, spent, r := w0, 0, Ok(Unit);
      while i < |plan| && r.Ok?
        invariant Afloat(machine, r, before, start, spent, h0, ws, i)
        invariant ws != [] && ws[0] == w0[0]
        invariant old(events) <= events && old(machine.progress.bytesDone) <= machine.progress.bytesDone
        decreases |plan| - i, r.Ok?
      {
        r, stop, i, ws, spent := TakeTurn(i, machine, stop, before, start, spent, h0, ws);
      }
    }

    /** After a cancel request every unsettled selected operation is settled as canceled. */
    method CancelRest(progress: ProgressTracker)
      requires Planned() && Kept() && progress.Valid() && Counts(progress)
      modifies this`status, this`events, progress
      ensures Kept() && progress.Valid() && Counts(progress)
      ensures status.Keys == selection && Extends(old(status), status) && old(events) <= events
      ensures CanceledSince(old(status), status)
    {
      for i := 0 to |plan|
        invariant Kept() && progress.Valid() && Counts(progress)
        invariant Extends(old(status), status) && old(events) <= events
        invariant CanceledSince(old(status), status)
        invariant CanceledUpto(plan, selection, status, i)
      {
        ghost var before := status;
        CancelOne(plan[i], progress);
        ExtendsTransitive(old(status), before, status);
        CanceledNext(plan, selection, before, status, i);
        CanceledJoin(old(status), before, status);
      }
      SweptAll(plan, selection, status, [], status);
    }

    method CancelOne(op: Operation, progress: ProgressTracker)
      requires Kept() && progress.Valid() && Counts(progress)
      modifies this`status, this`events, progress
      ensures Kept() && progress.Valid() && Counts(progress)
      ensures Extends(old(status), status) && CanceledSince(old(status), status) && old(events) <= events
      ensures op.id in selection ==> op.id in status
    {
      if op.id in selection && op.id !in status {
        Settle(op, Canceled, progress);
      }
    }

    /** One executor call.  Every volume state it passes through is secured relative to its start,
        within the space its remaining operations require, and no place changes but on the evidence
        its operation was reviewed on, which held in a state of the call.  Operations are tried only
        with their dependencies met; statuses and outcomes agree and have their reasons; and unless
        the call was paused, every selected operation has been settled.  Directories that were created
        look as intended. */
    method Execute() returns (verdict: Verdict, ghost ws: seq<World>, ghost reports: seq<Snapshot>)
      requires Valid()
      modifies this, volume
      ensures Valid() && pending == [] && begun == old(status)
      ensures Watched(old(volume.history), volume.history, old(volume.world), RequiredBytes(setup, Remaining(plan, selection, old(status))))
      ensures Secured(setup, plan, selection, old(volume.world), volume.world, RequiredBytes(setup, Remaining(plan, selection, old(status))), admitted)
      ensures base == |old(volume.history)| - 1 && Recorded(volume.history, base, admitted, made)
      ensures Decided(plan, selection, status, made, admitted, withheld) && AllGenuine(plan, selection, made)
      ensures Explained(plan, old(status), status, admitted, withheld)
      ensures Extends(old(status), status) && old(events) <= events
      ensures !verdict.RaisedPaused? ==> status.Keys == selection
      ensures verdict == Returned(false) ==> AllWell(status)
      ensures Appointed(old(status), verdict)
      ensures verdict.Returned? ==> Traced(ws, old(status), old(volume.world))
      ensures Climbing(reports, |status|, ContentBytes(plan, selection))
    {
      AllGrantedIsRequired(setup, plan, selection, status);
      var machine := Prepare();
      verdict, ws := SweepAndConclude(machine, volume.world);
      reports := machine.progress.reported;
      ClimbingWider(reports, machine.progress.itemsDone, machine.progress.bytesDone, |status|, ContentBytes(plan, selection));
    }

    /** A fresh machine, no directory pending, and nothing decided yet. */
    method Prepare() returns (machine: Machine)
      requires Valid()
      modifies this`pending, this`ready, this`begun, this`base, this`admitted, this`withheld, this`made
      ensures fresh(machine) && fresh(machine.progress) && pending == [] && Kept() && Usable(ready, made)
      ensures begun == status && base == |volume.history| - 1
      ensures Sailing(machine, volume.world, 0) && Counts(machine.progress)
      ensures machine.progress.bytesTotal == ContentBytes(plan, selection)
    {
      OpenBooks();
      SecuredStart(setup, plan, selection, volume.world, admitted);
      var progress := new ProgressTracker(plan, selection, status);
      machine := new Machine(setup, volume, progress);
    }

    /** Nothing is decided and no directory is pending when a call begins. */
    method OpenBooks()
      requires Valid()
      modifies this`pending, this`ready, this`begun, this`base, this`admitted, this`withheld, this`made
      ensures pending == [] && Kept() && Usable(ready, made)
      ensures begun == status && base == |volume.history| - 1
      ensures Recorded(volume.history, base, admitted, made)
    {
      pending, ready := [], {};
      begun, base, admitted, withheld, made := status, |volume.history| - 1, [], [], [];
    }

    /** Directories that an earlier call created and settled. */
    function Restorable(before: map<OpId, Outcome>): set<OpId> {
      set op | op in plan && op.kind == Mkdir && op.id in before && before[op.id] == Succeeded :: op.id
    }

    method SweepAndConclude(machine: Machine, ghost start: World) returns (verdict: Verdict, ghost ws: seq<World>)
      requires Planned() && Kept() && Counts(machine.progress) && pending == [] && Usable(ready, made) && Sailing(machine, start, 0)
      modifies this`status, this`events, this`pending, this`ready, this`admitted, this`withheld, this`made, volume, machine, machine.progress
      ensures Kept() && pending == [] && Counts(machine.progress)
      ensures Sailing(machine, start, Granted(setup, plan, selection, old(status), |plan|))
      ensures Watched(old(volume.history), volume.history, start, Granted(setup, plan, selection, old(status), |plan|))
      ensures Extends(old(status), status) && old(events) <= events
      ensures !verdict.RaisedPaused? ==> status.Keys == selection
      ensures verdict == Returned(false) ==> AllWell(status)
      ensures Appointed(old(status), verdict)
      ensures verdict.Returned? ==> Traced(ws, old(status), old(volume.world))
    {
      var restore := Restorable(status);
      ghost var total := Granted(setup, plan, selection, status, |plan|);
      var r;
      r, ws := Sweep(machine, start);
      ghost var s, h := status, volume.history;
      verdict := Conclude(machine, r, restore, old(status), start, total);
      WatchedJoin(old(volume.history), h, volume.history, start, total);
      ExtendsTransitive(old(status), s, status);
      if verdict.Returned? {
        TrailLater(setup, plan, selection, old(status), s, status, ws, |plan|);
      }
    }

    /** The volumes between the turns of a call, up to the final touch of directory metadata. */
    ghost predicate Traced(ws: seq<World>, before: map<OpId, Outcome>, first: World)
      reads this, volume
    {
      Trail(setup, plan, selection, before, status, ws, |plan|) && ws[0] == first && Redressed(ws[|plan|], volume.world, Built(plan, selection))
    }

    /** Every directory creation that succeeded since `before` left what was intended, and after a call
        without failure so did those that had succeeded earlier. */
    ghost predicate Appointed(before: map<OpId, Outcome>, verdict: Verdict)
      reads this`status, volume
    {
      && Furnished(setup, plan, selection, Erected(before, status), volume.world)
      && (verdict == Returned(false) ==> Furnished(setup, plan, selection, Standing(plan, selection, before), volume.world))
    }

    /** Every directory created in any call carries the metadata intended for it. */
    ghost predicate Completed()
      reads this`status, volume
    {
      Furnished(setup, plan, selection, Standing(plan, selection, status), volume.world)
    }

    lemma StandingFurnished(before: map<OpId, Outcome>, verdict: Verdict)
      requires Appointed(before, verdict) && Extends(before, status)
      ensures verdict == Returned(false) ==> Completed()
    {
    }

    /** A call ends as it was asked to: canceled, paused, or else it returns. */
    predicate Answers(r: Result<Unit>, verdict: Verdict) {
      && (verdict.RaisedCanceled? <==> r == Err(CancelRequested))
      && (verdict.RaisedPaused? <==> r == Err(PauseRequested))
      && (verdict.Returned? <==> r.Ok?)
    }

    /** The end of a call: pending directories are settled whatever ended the sweep. */
    method Conclude(machine: Machine, r: Result<Unit>, restore: set<OpId>, ghost before: map<OpId, Outcome>, ghost start: World, ghost spent: nat)
      returns (verdict: Verdict)
      requires Planned() && Sailing(machine, start, spent) && Kept() && Counts(machine.progress)
      requires Awaited(plan, selection, status, pending)
      requires r.Err? ==> r.error == CancelRequested || r.error == PauseRequested
      requires r.Ok? ==> AllHadTheirTurn(plan, selection, status, pending)
      requires Extends(before, status) && NoneErected(plan, before, status) && restore == Restorable(before)
      modifies this`status, this`events, this`pending, this`ready, volume, machine.progress
      ensures Sailing(machine, start, spent) && Kept() && pending == [] && Counts(machine.progress)
      ensures Watched(old(volume.history), volume.history, start, spent)
      ensures Extends(old(status), status) && old(events) <= events
      ensures !verdict.RaisedPaused? ==> status.Keys == selection
      ensures verdict == Returned(false) ==> AllWell(status)
      ensures Redressed(old(volume.world), volume.world, Built(plan, selection)) && Answers(r, verdict)
      ensures Appointed(before, verdict)
    {
      ghost var s, p := status, pending;
      FinalizeDirectories(machine, before, start, spent);
      ghost var w, h, t := volume.world, volume.history, status;
      if r.Ok? {
        SweptAll(plan, selection, s, p, status);
      }
      verdict := Finish(machine, r, restore, before, start, spent);
      RedressedTransitive(old(volume.world), w, volume.world, Built(plan, selection));
      WatchedJoin(old(volume.history), h, volume.history, start, spent);
      ExtendsTransitive(s, t, status);
    }

    /** After the directories: cancel what is left, or put metadata back and sum up. */
    method Finish(machine: Machine, r: Result<Unit>, restore: set<OpId>, ghost before: map<OpId, Outcome>, ghost start: World, ghost spent: nat)
      returns (verdict: Verdict)
      requires Planned() && Sailing(machine, start, spent) && Kept() && Counts(machine.progress)
      requires r.Err? ==> r.error == CancelRequested || r.error == PauseRequested
      requires r.Ok? ==> selection <= status.Keys
      requires Furnished(setup, plan, selection, Erected(before, status), volume.world) && restore == Restorable(before)
      modifies this`status, this`events, volume, machine.progress
      ensures Sailing(machine, start, spent) && Kept() && Counts(machine.progress)
      ensures Watched(old(volume.history), volume.history, start, spent)
      ensures Extends(old(status), status) && old(events) <= events
      ensures !verdict.RaisedPaused? ==> status.Keys == selection
      ensures verdict == Returned(false) ==> AllWell(status)
      ensures Redressed(old(volume.world), volume.world, Built(plan, selection)) && Answers(r, verdict)
      ensures Appointed(before, verdict)
    {
      if r == Err(CancelRequested) {
        ghost var s := status;
        CancelRest(machine.progress);
        CanceledErectsNothing(before, s, status);
        return RaisedCanceled;
      }
      verdict := WrapUp(machine, r.Err?, restore, before, start, spent);
    }

    method WrapUp(machine: Machine, paused: bool, restore: set<OpId>, ghost before: map<OpId, Outcome>, ghost start: World, ghost spent: nat)
      returns (verdict: Verdict)
      requires Sailing(machine, start, spent) && UniqueIds(plan) && restore == Restorable(before)
      requires Furnished(setup, plan, selection, Erected(before, status), volume.world)
      modifies volume
      ensures Sailing(machine, start, spent)
      ensures Watched(old(volume.history), volume.history, start, spent)
      ensures verdict.RaisedPaused? == paused && !verdict.RaisedCanceled? && Redressed(old(volume.world), volume.world, Built(plan, selection))
      ensures verdict == Returned(false) ==> AllWell(status)
      ensures Appointed(before, verdict)
    {
      var failed;
      ghost var furnished;
      failed, furnished := RestoreDirectories(machine, restore, Erected(before, status), start, spent);
      if paused {
        return RaisedPaused;
      }
      return Returned(failed || !AllWell(status));
    }

    /** A run: calls repeated while they are paused, at most `resumes` times.  Over the whole chain
        each selected operation is reported at most once, exactly once when the chain ends, and a
        run of sparing operations loses no content in any state. */
    method RunToEnd(resumes: nat) returns (verdict: Verdict, calls: nat)
      requires Valid()
      modifies this, volume
      ensures 1 <= calls <= resumes + 1 && (verdict.RaisedPaused? ==> calls == resumes + 1)
      ensures Valid() && Tallied(selection, status, events) && old(events) <= events
      ensures !verdict.RaisedPaused? ==> status.Keys == selection
      ensures AllSheltered(setup, plan, selection, old(volume.world), old(volume.history), volume.history)
      ensures verdict == Returned(false) ==> Completed()
    {
      ghost var start := volume.world;
      ShelteredStart(setup, plan, selection, start);
      ghost var ws;
      ghost var reports;
      verdict, ws, reports := Execute();
      StandingFurnished(old(status), verdict);
      calls := 1;
      ShelteredTrace(setup, plan, selection, start, start, old(volume.history), volume.history, RequiredBytes(setup, Remaining(plan, selection, old(status))), admitted);
      while verdict.RaisedPaused? && calls <= resumes
        invariant 1 <= calls <= resumes + 1
        invariant Valid() && old(events) <= events
        invariant !verdict.RaisedPaused? ==> status.Keys == selection
        invariant Sheltered(setup, plan, selection, start, volume.world)
        invariant AllSheltered(setup, plan, selection, start, old(volume.history), volume.history)
        invariant verdict == Returned(false) ==> Completed()
        decreases resumes + 1 - calls
      {
        ghost var w, h, s := volume.world, volume.history, status;
        verdict, ws, reports := Execute();
        StandingFurnished(s, verdict);
        ShelteredTrace(setup, plan, selection, start, w, h, volume.history, RequiredBytes(setup, Remaining(plan, selection, s)), admitted);
        AllShelteredJoin(setup, plan, selection, start, old(volume.history), h, volume.history);
        ShelteredStep(setup, plan, selection, start, w, volume.world, RequiredBytes(setup, Remaining(plan, selection, s)), admitted);
        calls := calls + 1;
      }
    }
  }
}
