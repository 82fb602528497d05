/** Run-wide safety: what holds of every volume state of an execution, from its start on. */
module Safety {
  import opened Paths
  import opened Model
  import opened Volume
  import opened Effects
  import opened Steps

  predicate Chosen(plan: seq<Operation>, selection: set<OpId>, op: Operation) {
    op in plan && op.id in selection
  }

  /** Selected operations without a final status, in plan order. */
  function Remaining(plan: seq<Operation>, selection: set<OpId>, status: map<OpId, Outcome>): (r: seq<Operation>)
    ensures forall op :: op in r <==> op in plan && op.id in selection && op.id !in status
  {
    if plan == [] then []
    else
      var n := |plan| - 1;
      var op := plan[n];
      assert plan == plan[..n] + [op];
      Remaining(plan[..n], selection, status) + (if op.id in selection && op.id !in status then [op] else [])
  }

  function RequiredBytes(s: Setup, ops: seq<Operation>): nat {
    if ops == [] then 0
    else RequiredBytes(s, ops[..|ops| - 1]) + Charge(s, ops[|ops| - 1])
  }

  /** The start-of-run space requirement, accumulated operation by operation. */
  method CalculateRequiredBytes(s: Setup, ops: seq<Operation>) returns (required: nat)
    ensures required == RequiredBytes(s, ops)
  {
    required := 0;
    for i := 0 to |ops|
      invariant required == RequiredBytes(s, ops[..i])
    {
      var op := ops[i];
      assert ops[..i + 1][..i] == ops[..i];
      if op.blocked.Some? {
        continue;
      }
      if CopiesContent(op.kind) {
        required := required + op.contentBytes;
      }
      if s.trashOnUpdate && !s.hardlinks && (op.kind == Update || op.kind == MoveUpdate) {
        if op.targetExpected.Some? {
          required := required + op.targetExpected.value.size;
        } else if op.priorExpected.Some? {
          required := required + op.priorExpected.value.size;
        }
      }
    }
    assert ops[..|ops|] == ops;
  }

  /** What an operation's turn may cost, given the statuses a call started with. */
  function Toll(s: Setup, op: Operation, selection: set<OpId>, before: map<OpId, Outcome>): nat {
    if op.id in selection && op.id !in before then Charge(s, op) else 0
  }

  /** Space granted to the first `i` operations of a plan. */
  function Granted(s: Setup, plan: seq<Operation>, selection: set<OpId>, before: map<OpId, Outcome>, i: nat): nat
    requires i <= |plan|
  {
    if i == 0 then 0 else Granted(s, plan, selection, before, i - 1) + Toll(s, plan[i - 1], selection, before)
  }

  lemma {:induction false} GrantedMonotone(s: Setup, plan: seq<Operation>, selection: set<OpId>, before: map<OpId, Outcome>, i: nat)
    requires i <= |plan|
    ensures Granted(s, plan, selection, before, i) <= Granted(s, plan, selection, before, |plan|)
    decreases |plan| - i
  {
    if i < |plan| {
      GrantedMonotone(s, plan, selection, before, i + 1);
    }
  }

  /** All that is granted is what the remaining operations were found to require. */
  lemma {:induction false} GrantedIsRequired(s: Setup, plan: seq<Operation>, selection: set<OpId>, before: map<OpId, Outcome>, i: nat)
    requires i <= |plan|
    ensures Granted(s, plan, selection, before, i) == RequiredBytes(s, Remaining(plan[..i], selection, before))
  {
    if i > 0 {
      GrantedIsRequired(s, plan, selection, before, i - 1);
      assert plan[..i][..i - 1] == plan[..i - 1];
      var r := Remaining(plan[..i - 1], selection, before);
      assert (r + [plan[i - 1]])[..|r|] == r && r + [] == r;
    }
  }

  lemma AllGrantedIsRequired(s: Setup, plan: seq<Operation>, selection: set<OpId>, before: map<OpId, Outcome>)
    ensures Granted(s, plan, selection, before, |plan|) == RequiredBytes(s, Remaining(plan, selection, before))
  {
    GrantedIsRequired(s, plan, selection, before, |plan|);
    assert plan[..|plan|] == plan;
  }

  ghost predicate AllSparing(s: Setup, plan: seq<Operation>, selection: set<OpId>) {
    forall op :: Chosen(plan, selection, op) ==> Sparing(s, op)
  }

  /** Some selected operation may change this place. */
  ghost predicate Exposed(s: Setup, plan: seq<Operation>, selection: set<OpId>, p: Place) {
    exists op :: Chosen(plan, selection, op) && p in Touched(s, op)
  }

  /** No byte of a file that existed at the start has changed. */
  ghost predicate Unaltered(start: World, w: World) {
    && start.nextId <= w.nextId
    && forall id :: id in w.files && id < start.nextId ==> id in start.files && w.files[id].bytes == start.files[id].bytes
  }

  lemma UnalteredTransitive(start: World, w1: World, w: World)
    requires Unaltered(start, w1) && Unaltered(w1, w)
    ensures Unaltered(start, w)
  {
  }

  ghost predicate FramedAt(s: Setup, plan: seq<Operation>, selection: set<OpId>, start: World, w: World, p: Place) {
    Same(start, w, p) || Exposed(s, plan, selection, p)
  }

  /** Only places of selected operations changed. */
  ghost predicate Framed(s: Setup, plan: seq<Operation>, selection: set<OpId>, start: World, w: World) {
    Unaltered(start, w) && forall p :: FramedAt(s, plan, selection, start, w, p)
  }

  /** No selected operation may change a planned path of this file. */
  ghost predicate Secluded(s: Setup, plan: seq<Operation>, selection: set<OpId>, start: World, id: nat) {
    forall p: Place :: p.Live? && p in start.entries && start.entries[p] == File(id) ==> !Exposed(s, plan, selection, p)
  }

  /** The file has no name that it had not at the start. */
  ghost predicate NoNewName(start: World, w: World, id: nat) {
    forall p :: p in w.entries && w.entries[p] == File(id) ==> Same(start, w, p)
  }

  /** The file is wholly as it was: bytes, times and attributes. */
  ghost predicate FileWhole(start: World, w: World, id: nat) {
    NoNewName(start, w, id) && (id in w.files ==> id in start.files && w.files[id] == start.files[id])
  }

  ghost predicate PreservedAt(s: Setup, plan: seq<Operation>, selection: set<OpId>, start: World, w: World, id: nat) {
    id in start.files && id < start.nextId && Secluded(s, plan, selection, start, id) ==> FileWhole(start, w, id)
  }

  /** Files of which no selected operation may change a planned path are wholly as they were. */
  ghost predicate Preserved(s: Setup, plan: seq<Operation>, selection: set<OpId>, start: World, w: World) {
    forall id :: PreservedAt(s, plan, selection, start, w, id)
  }

  lemma SecludedIsNotNamed(s: Setup, plan: seq<Operation>, selection: set<OpId>, start: World, w: World, op: Operation, id: nat)
    requires Chosen(plan, selection, op) && Secluded(s, plan, selection, start, id) && NoNewName(start, w, id)
    ensures !NamedIn(w, Touched(s, op), id)
  {
    forall p | p in Touched(s, op) && p.Live? && p in w.entries
      ensures w.entries[p] != File(id)
    {
      assert Exposed(s, plan, selection, p);
    }
  }

  lemma PreservedByStep(s: Setup, plan: seq<Operation>, selection: set<OpId>, start: World, w1: World, w: World, op: Operation)
    requires Chosen(plan, selection, op) && Preserved(s, plan, selection, start, w1) && start.nextId <= w1.nextId && Steady(w1, w, Touched(s, op))
    ensures Preserved(s, plan, selection, start, w)
  {
    forall id: nat
      ensures PreservedAt(s, plan, selection, start, w, id)
    {
      assert PreservedAt(s, plan, selection, start, w1, id);
      if id in start.files && id < start.nextId && Secluded(s, plan, selection, start, id) {
        SecludedIsNotNamed(s, plan, selection, start, w1, op, id);
        assert ObjectKept(w1, w, Touched(s, op), id);
        forall p | p in w.entries && w.entries[p] == File(id)
          ensures Same(start, w, p)
        {
          assert EntryKept(w1, w, Touched(s, op), p);
        }
      }
    }
  }

  lemma PreservedByRetouch(s: Setup, plan: seq<Operation>, selection: set<OpId>, start: World, w: World, op: Operation,
                           stat: Stat, pc: bool, ro: bool, steps: nat)
    requires Chosen(plan, selection, op) && op.kind == Mkdir && Preserved(s, plan, selection, start, w) && Sound(w) && TargetPlace(op) in w.entries
    ensures Preserved(s, plan, selection, start, Retouched(w, TargetPlace(op), stat, pc, ro, steps))
  {
    var v := Retouched(w, TargetPlace(op), stat, pc, ro, steps);
    forall id: nat
      ensures PreservedAt(s, plan, selection, start, v, id)
    {
      assert PreservedAt(s, plan, selection, start, w, id);
      if id in start.files && id < start.nextId && Secluded(s, plan, selection, start, id) {
        SecludedIsNotNamed(s, plan, selection, start, w, op, id);
        assert TargetPlace(op) in Touched(s, op);
        assert w.entries[TargetPlace(op)] != File(id);
        assert NoNewName(start, v, id);
      }
    }
  }

  /** Preservation carries over from one call to the next. */
  lemma PreservedTwice(s: Setup, plan: seq<Operation>, selection: set<OpId>, start: World, w1: World, w: World)
    requires Preserved(s, plan, selection, start, w1) && Preserved(s, plan, selection, w1, w) && Unaltered(start, w1) && Unaltered(w1, w) && Sound(w)
    ensures Preserved(s, plan, selection, start, w)
  {
    forall id: nat
      ensures PreservedAt(s, plan, selection, start, w, id)
    {
      assert PreservedAt(s, plan, selection, start, w1, id) && PreservedAt(s, plan, selection, w1, w, id);
      if id in start.files && id < start.nextId && Secluded(s, plan, selection, start, id) {
        assert Secluded(s, plan, selection, w1, id);
      }
    }
  }

  /** A directory created by an operation, with the volume before and after. */
  datatype Creation = Creation(op: Operation, before: World, after: World)

  /** An operation the executor decided on, with the statuses, the directories created in this call
      and the volume it had before it then. */
  datatype Admission = Admission(op: Operation, status: map<OpId, Outcome>, made: seq<Creation>, world: World)

  /** The place belongs to an operation that was gone ahead with on the reviewed evidence. */
  ghost predicate Vouched(s: Setup, log: seq<Admission>, p: Place) {
    exists a :: a in log && p in Touched(s, a.op) && Evidenced(s, a.op, a.world)
  }

  /** Why a place may differ from the start: directory metadata, or an operation with its evidence. */
  ghost predicate Accounted(s: Setup, log: seq<Admission>, start: World, w: World, p: Place) {
    || Same(start, w, p)
    || (p in start.entries && start.entries[p].Directory? && p in w.entries && w.entries[p].Directory?)
    || Vouched(s, log, p)
  }

  ghost predicate Evident(s: Setup, log: seq<Admission>, start: World, w: World) {
    forall p :: Accounted(s, log, start, w, p)
  }

  /** Relative to the start of a call: at most `budget` more bytes are in use, no content is lost if
      no selected operation may lose any, only places of selected operations changed, and only on
      the evidence they were reviewed on, and files without such a place are wholly as they were. */
  ghost predicate Secured(s: Setup, plan: seq<Operation>, selection: set<OpId>, start: World, w: World, budget: nat, log: seq<Admission>) {
    && Sound(w)
    && Used(w) <= Used(start) + budget
    && (AllSparing(s, plan, selection) ==> NoLoss(start, w))
    && Framed(s, plan, selection, start, w) && Preserved(s, plan, selection, start, w)
    && Evident(s, log, start, w)
  }

  lemma SecuredStart(s: Setup, plan: seq<Operation>, selection: set<OpId>, start: World, log: seq<Admission>)
    requires Sound(start)
    ensures Secured(s, plan, selection, start, start, 0, log)
  {
  }

  lemma SecuredWider(s: Setup, plan: seq<Operation>, selection: set<OpId>, start: World, w: World, budget: nat, more: nat,
                     log: seq<Admission>, longer: seq<Admission>)
    requires Secured(s, plan, selection, start, w, budget, log) && budget <= more && log <= longer
    ensures Secured(s, plan, selection, start, w, more, longer)
  {
    forall p
      ensures Accounted(s, longer, start, w, p)
    {
      assert Accounted(s, log, start, w, p);
      if Vouched(s, log, p) {
        VouchedLater(s, log, longer, p);
      }
    }
  }

  lemma VouchedLater(s: Setup, log: seq<Admission>, longer: seq<Admission>, p: Place)
    requires Vouched(s, log, p) && log <= longer
    ensures Vouched(s, longer, p)
  {
    var a :| a in log && p in Touched(s, a.op) && Evidenced(s, a.op, a.world);
    assert a in longer;
  }

  lemma FramedByStep(s: Setup, plan: seq<Operation>, selection: set<OpId>, start: World, w1: World, w: World, op: Operation)
    requires Chosen(plan, selection, op) && Framed(s, plan, selection, start, w1) && Calm(w1, w, Touched(s, op))
    ensures Framed(s, plan, selection, start, w)
  {
    UnalteredTransitive(start, w1, w);
    forall p
      ensures FramedAt(s, plan, selection, start, w, p)
    {
      if p in Touched(s, op) {
        assert Exposed(s, plan, selection, p);
      } else {
        assert Same(w1, w, p);
        assert FramedAt(s, plan, selection, start, w1, p);
      }
    }
  }

  ghost predicate Begun(log: seq<Admission>, op: Operation, w: World) {
    exists a :: a in log && a.op == op && a.world == w
  }

  lemma EvidentByOperation(s: Setup, log: seq<Admission>, start: World, w1: World, w: World, op: Operation)
    requires Evident(s, log, start, w1) && During(s, op, w1, w) && Begun(log, op, w1)
    ensures Evident(s, log, start, w)
  {
    DuringIsSteady(s, op, w1, w);
    DuringIsJustified(s, op, w1, w);
    forall p
      ensures Accounted(s, log, start, w, p)
    {
      assert Accounted(s, log, start, w1, p);
      if p !in Touched(s, op) {
        assert Same(w1, w, p);
      } else if w != w1 {
        assert Vouched(s, log, p);
      }
    }
  }

  /** A state of one more selected operation keeps the call secured, at the price of its charge. */
  lemma SecuredByOperation(s: Setup, plan: seq<Operation>, selection: set<OpId>, start: World, w1: World, w: World, op: Operation, budget: nat,
                           log: seq<Admission>)
    requires SourceSound(s) && Shaped(op) && op.blocked.None? && Chosen(plan, selection, op)
    requires Secured(s, plan, selection, start, w1, budget, log) && During(s, op, w1, w) && Begun(log, op, w1)
    ensures Secured(s, plan, selection, start, w, budget + Charge(s, op), log)
  {
    DuringIsSteady(s, op, w1, w);
    OperationStaysWithinCharge(s, op, w1, w);
    if AllSparing(s, plan, selection) {
      OperationLosesNothing(s, op, w1, w);
      NoLossTransitive(start, w1, w);
    }
    FramedByStep(s, plan, selection, start, w1, w, op);
    PreservedByStep(s, plan, selection, start, w1, w, op);
    EvidentByOperation(s, log, start, w1, w, op);
  }

  lemma RetouchIsHarmless(w: World, p: Place, stat: Stat, pc: bool, ro: bool, steps: nat)
    requires Sound(w) && p in w.entries && p.Live?
    ensures var v := Retouched(w, p, stat, pc, ro, steps);
            && Calm(w, v, {p}) && Used(v) <= Used(w) && NoLoss(w, v)
            && p in v.entries && (if w.entries[p].File? then v.entries[p] == w.entries[p] else v.entries[p].Directory?)
  {
    var v := Retouched(w, p, stat, pc, ro, steps);
    RetouchedCalm(w, p, stat, pc, ro, steps);
    UsedGrowsBy(w, v, {p}, -1, -1, 0, 0);
    forall q | Durable(q) && HasFile(w, q)
      ensures Holds(v, BytesAt(w, q))
    {
      assert HasFile(v, q) && BytesAt(v, q) == BytesAt(w, q);
    }
  }

  /** Dressing a directory that a selected operation created, in this call or in an earlier one. */
  lemma SecuredByRetouch(s: Setup, plan: seq<Operation>, selection: set<OpId>, start: World, w: World, v: World, op: Operation,
                         stat: Stat, pc: bool, ro: bool, budget: nat, log: seq<Admission>)
    requires Chosen(plan, selection, op) && op.kind == Mkdir
    requires Secured(s, plan, selection, start, w, budget, log)
    requires v == w || (TargetPlace(op) in w.entries && exists steps: nat :: v == Retouched(w, TargetPlace(op), stat, pc, ro, steps))
    ensures Secured(s, plan, selection, start, v, budget, log)
  {
    if v != w {
      var p := TargetPlace(op);
      var steps: nat :| v == Retouched(w, p, stat, pc, ro, steps);
      RetouchIsHarmless(w, p, stat, pc, ro, steps);
      if AllSparing(s, plan, selection) {
        NoLossTransitive(start, w, v);
      }
      FramedByStep(s, plan, selection, start, w, v, op);
      PreservedByRetouch(s, plan, selection, start, w, op, stat, pc, ro, steps);
      forall q
        ensures Accounted(s, log, start, v, q)
      {
        assert Accounted(s, log, start, w, q);
        assert q == p || Same(w, v, q);
      }
    }
  }

  lemma SecuredByCreation(s: Setup, plan: seq<Operation>, selection: set<OpId>, start: World, w: World, op: Operation, stat: Stat, budget: nat,
                          log: seq<Admission>)
    requires SourceSound(s) && Chosen(plan, selection, op) && op.kind == Mkdir && op.blocked.None? && Begun(log, op, w)
    requires Secured(s, plan, selection, start, w, budget, log) && TargetPlace(op) !in w.entries
    ensures Secured(s, plan, selection, start, WithDirectory(w, TargetPlace(op), stat), budget, log)
    ensures Accomplished(s, op, w, WithDirectory(w, TargetPlace(op), stat))
  {
    WithDirectorySteady(w, TargetPlace(op), stat);
    SecuredByOperation(s, plan, selection, start, w, WithDirectory(w, TargetPlace(op), stat), op, budget, log);
  }

  /** Every state recorded since `h0` is secured. */
  ghost predicate AllSecured(s: Setup, plan: seq<Operation>, selection: set<OpId>, start: World, h0: seq<World>, h: seq<World>, budget: nat,
                             log: seq<Admission>)
  {
    h0 <= h && forall i :: |h0| <= i < |h| ==> Secured(s, plan, selection, start, h[i], budget, log)
  }

  /** Every state of one more selected operation, the last one included. */
  lemma SecuredByTrace(s: Setup, plan: seq<Operation>, selection: set<OpId>, start: World, op: Operation, budget: nat,
                       h0: seq<World>, h: seq<World>, log: seq<Admission>)
    requires SourceSound(s) && Shaped(op) && op.blocked.None? && Chosen(plan, selection, op) && h0 != []
    requires Secured(s, plan, selection, start, h0[|h0| - 1], budget, log) && Begun(log, op, h0[|h0| - 1])
    requires h0 <= h && forall i :: |h0| <= i < |h| ==> During(s, op, h0[|h0| - 1], h[i])
    ensures AllSecured(s, plan, selection, start, h0, h, budget + Charge(s, op), log)
    ensures Secured(s, plan, selection, start, h[|h| - 1], budget + Charge(s, op), log)
  {
    forall i | |h0| <= i < |h|
      ensures Secured(s, plan, selection, start, h[i], budget + Charge(s, op), log)
    {
      SecuredByOperation(s, plan, selection, start, h0[|h0| - 1], h[i], op, budget, log);
    }
    SecuredWider(s, plan, selection, start, h0[|h0| - 1], budget, budget + Charge(s, op), log, log);
  }

  /** States secured so far, and those of one more turn. */
  lemma AllSecuredOn(s: Setup, plan: seq<Operation>, selection: set<OpId>, start: World, h0: seq<World>, h1: seq<World>, h: seq<World>,
                     cost: nat, total: nat, log: seq<Admission>, longer: seq<Admission>)
    requires cost <= total && log <= longer
    requires AllSecured(s, plan, selection, start, h0, h1, total, log) && AllSecured(s, plan, selection, start, h1, h, cost, longer)
    ensures AllSecured(s, plan, selection, start, h0, h, total, longer)
  {
    forall i | |h0| <= i < |h|
      ensures Secured(s, plan, selection, start, h[i], total, longer)
    {
      if i < |h1| {
        assert h[i] == h1[i];
        SecuredWider(s, plan, selection, start, h[i], total, total, log, longer);
      } else {
        SecuredWider(s, plan, selection, start, h[i], cost, total, longer, longer);
      }
    }
  }

  /** The part of safety that carries over from one call to the next. */
  ghost predicate Sheltered(s: Setup, plan: seq<Operation>, selection: set<OpId>, start: World, w: World) {
    && Sound(w)
    && (AllSparing(s, plan, selection) ==> NoLoss(start, w))
    && Framed(s, plan, selection, start, w) && Preserved(s, plan, selection, start, w)
  }

  lemma ShelteredStart(s: Setup, plan: seq<Operation>, selection: set<OpId>, start: World)
    requires Sound(start)
    ensures Sheltered(s, plan, selection, start, start)
  {
  }

  lemma ShelteredStep(s: Setup, plan: seq<Operation>, selection: set<OpId>, start: World, w1: World, w: World, budget: nat, log: seq<Admission>)
    requires Sheltered(s, plan, selection, start, w1) && Secured(s, plan, selection, w1, w, budget, log)
    ensures Sheltered(s, plan, selection, start, w)
  {
    if AllSparing(s, plan, selection) {
      NoLossTransitive(start, w1, w);
    }
    UnalteredTransitive(start, w1, w);
    PreservedTwice(s, plan, selection, start, w1, w);
    forall p
      ensures FramedAt(s, plan, selection, start, w, p)
    {
      assert FramedAt(s, plan, selection, start, w1, p);
      assert FramedAt(s, plan, selection, w1, w, p);
    }
  }

  /** Every state recorded since `h0` keeps what carries over between calls. */
  ghost predicate AllSheltered(s: Setup, plan: seq<Operation>, selection: set<OpId>, start: World, h0: seq<World>, h: seq<World>) {
    h0 <= h && forall i :: |h0| <= i < |h| ==> Sheltered(s, plan, selection, start, h[i])
  }

  lemma AllShelteredJoin(s: Setup, plan: seq<Operation>, selection: set<OpId>, start: World, h0: seq<World>, h1: seq<World>, h: seq<World>)
    requires AllSheltered(s, plan, selection, start, h0, h1) && AllSheltered(s, plan, selection, start, h1, h)
    ensures AllSheltered(s, plan, selection, start, h0, h)
  {
    forall i | |h0| <= i < |h|
      ensures Sheltered(s, plan, selection, start, h[i])
    {
      assert i < |h1| ==> h[i] == h1[i];
    }
  }

  lemma ShelteredTrace(s: Setup, plan: seq<Operation>, selection: set<OpId>, start: World, w1: World, h0: seq<World>, h: seq<World>, budget: nat,
                       log: seq<Admission>)
    requires Sheltered(s, plan, selection, start, w1)
    requires AllSecured(s, plan, selection, w1, h0, h, budget, log)
    ensures AllSheltered(s, plan, selection, start, h0, h)
  {
    forall i | |h0| <= i < |h|
      ensures Sheltered(s, plan, selection, start, h[i])
    {
      ShelteredStep(s, plan, selection, start, w1, h[i], budget, log);
    }
  }

  // -------------------------------------------------------------- what was accomplished

  /** A settled status that does not say that something went wrong. */
  predicate Fulfilled(status: map<OpId, Outcome>, op: Operation) {
    op.id in status ==> status[op.id] !in {Failed, Canceled, Deferred}
  }

  /** From one volume to the next, the operation was carried out and achieved. */
  ghost predicate Accomplished(s: Setup, op: Operation, w: World, v: World) {
    Sound(w) && During(s, op, w, v) && Achieved(s, op, w, v)
  }

  /** Planned paths of the selected directory creations. */
  function Built(plan: seq<Operation>, selection: set<OpId>): set<Place> {
    set op | op in plan && op.id in selection && op.kind == Mkdir :: TargetPlace(op)
  }

  predicate EntryRedressed(e: Entry, f: Entry, open: bool) {
    f == e || (open && e.Directory? && f.Directory?)
  }

  /** Only metadata differs, and only at the given places. */
  ghost predicate Redressed(w: World, v: World, places: set<Place>) {
    && w.entries.Keys == v.entries.Keys && w.newBits == v.newBits
    && (forall p :: p in w.entries ==> EntryRedressed(w.entries[p], v.entries[p], p in places))
    && (forall id :: id in w.files ==> id in v.files && v.files[id].bytes == w.files[id].bytes && (v.files[id] == w.files[id] || NamedIn(w, places, id)))
  }

  lemma RedressedRefl(w: World, places: set<Place>)
    ensures Redressed(w, w, places)
  {
  }

  lemma RedressedTransitive(w: World, v: World, u: World, places: set<Place>)
    requires Redressed(w, v, places) && Redressed(v, u, places)
    ensures Redressed(w, u, places)
  {
    assert w.entries.Keys == u.entries.Keys;
    forall p | p in w.entries
      ensures EntryRedressed(w.entries[p], u.entries[p], p in places)
    {
      assert p in v.entries.Keys;
      assert EntryRedressed(v.entries[p], u.entries[p], p in places);
    }
    forall id | id in w.files
      ensures id in u.files && u.files[id].bytes == w.files[id].bytes && (u.files[id] == w.files[id] || NamedIn(w, places, id))
    {
      if NamedIn(v, places, id) {
        var p :| p in places && p.Live? && p in v.entries && v.entries[p] == File(id);
        assert p in w.entries.Keys;
      }
    }
  }

  lemma RetouchRedresses(w: World, p: Place, stat: Stat, pc: bool, ro: bool, steps: nat, places: set<Place>)
    requires Sound(w) && p in w.entries && p in places && p.Live?
    ensures Redressed(w, Retouched(w, p, stat, pc, ro, steps), places)
  {
  }

  lemma RedressedWider(w: World, v: World, places: set<Place>, more: set<Place>)
    requires Redressed(w, v, places) && places <= more
    ensures Redressed(w, v, more)
  {
    forall p | p in w.entries
      ensures EntryRedressed(w.entries[p], v.entries[p], p in more)
    {
      assert EntryRedressed(w.entries[p], v.entries[p], p in places);
    }
  }

  // ---------------------------------------------------------- finished directories

  /** What a directory is to look like once its contents are done. */
  function IntendedStat(op: Operation): Option<Stat> {
    if op.intended.Some? then op.intended else op.sourceExpected
  }

  predicate DirectoryAt(w: World, p: Place) {
    p in w.entries && w.entries[p].Directory?
  }

  /** The entry at the operation's target carries the intended times and standard attributes. */
  predicate Clad(s: Setup, w: World, op: Operation) {
    IntendedStat(op).Some? && StatAt(w, s.serial, TargetPlace(op)).Some? &&
    var found, intended := StatAt(w, s.serial, TargetPlace(op)).value, IntendedStat(op).value;
    && found.mtime == intended.mtime
    && found.metadata.attributes.readonly == intended.metadata.attributes.readonly
    && found.metadata.attributes.hidden == intended.metadata.attributes.hidden
    && found.metadata.attributes.system == intended.metadata.attributes.system
    && (s.preserveCreated && intended.metadata.created.Some? ==> found.metadata.created == intended.metadata.created)
  }

  /** No other selected operation creates a directory at the same planned path. */
  ghost predicate SoleBuilder(plan: seq<Operation>, selection: set<OpId>, op: Operation) {
    forall o :: o in plan && o.id in selection && o.kind == Mkdir && TargetPlace(o) == TargetPlace(op) ==> o == op
  }

  ghost predicate FurnishedAt(s: Setup, plan: seq<Operation>, selection: set<OpId>, w: World, op: Operation) {
    SoleBuilder(plan, selection, op) && DirectoryAt(w, TargetPlace(op)) ==> Clad(s, w, op)
  }

  /** The directories that these operations create carry the metadata that was intended for them. */
  ghost predicate Furnished(s: Setup, plan: seq<Operation>, selection: set<OpId>, ids: set<OpId>, w: World) {
    forall op :: op in plan && op.kind == Mkdir && op.id in ids ==> FurnishedAt(s, plan, selection, w, op)
  }

  lemma RetouchClads(s: Setup, w: World, op: Operation)
    requires Sound(w) && IntendedStat(op).Some? && TargetPlace(op) in w.entries
    ensures Clad(s, Retouched(w, TargetPlace(op), IntendedStat(op).value, s.preserveCreated, true, 3), op)
  {
  }

  /** Dressing one more directory leaves the others as they were furnished. */
  lemma FurnishedNext(s: Setup, plan: seq<Operation>, selection: set<OpId>, ids: set<OpId>, w: World, v: World, op: Operation, more: set<OpId>)
    requires UniqueIds(plan) && Furnished(s, plan, selection, ids, w) && Redressed(w, v, {TargetPlace(op)})
    requires Chosen(plan, selection, op) && op.kind == Mkdir && more <= ids + {op.id} && (op.id in more ==> Clad(s, v, op))
    ensures Furnished(s, plan, selection, more, v)
  {
    forall o | o in plan && o.kind == Mkdir && o.id in more
      ensures FurnishedAt(s, plan, selection, v, o)
    {
      if o.id == op.id {
        var i, j :| 0 <= i < |plan| && 0 <= j < |plan| && plan[i] == o && plan[j] == op;
        assert o == op;
      } else {
        assert FurnishedAt(s, plan, selection, w, o);
        if SoleBuilder(plan, selection, o) && DirectoryAt(v, TargetPlace(o)) {
          assert TargetPlace(o) in w.entries.Keys;
          assert EntryRedressed(w.entries[TargetPlace(o)], v.entries[TargetPlace(o)], false);
        }
      }
    }
  }

  /** The volumes before, between and after the turns of a plan's operations. */
  ghost predicate TrailAt(s: Setup, plan: seq<Operation>, selection: set<OpId>, before: map<OpId, Outcome>, status: map<OpId, Outcome>,
                          ws: seq<World>, i: nat)
    requires i < |plan| && i + 1 < |ws|
  {
    if plan[i].id in selection && plan[i].id !in before
    then Fulfilled(status, plan[i]) ==> Accomplished(s, plan[i], ws[i], ws[i + 1])
    else ws[i + 1] == ws[i]
  }

  ghost predicate Trail(s: Setup, plan: seq<Operation>, selection: set<OpId>, before: map<OpId, Outcome>, status: map<OpId, Outcome>,
                        ws: seq<World>, n: nat) {
    |ws| == n + 1 && n <= |plan| && forall i :: 0 <= i < n ==> TrailAt(s, plan, selection, before, status, ws, i)
  }

  /** What is settled later does not take back what was accomplished. */
  lemma TrailLater(s: Setup, plan: seq<Operation>, selection: set<OpId>, before: map<OpId, Outcome>, status: map<OpId, Outcome>,
                   later: map<OpId, Outcome>, ws: seq<World>, n: nat)
    requires Trail(s, plan, selection, before, status, ws, n)
    requires forall id :: id in status ==> id in later && later[id] == status[id]
    ensures Trail(s, plan, selection, before, later, ws, n)
  {
    forall i | 0 <= i < n
      ensures TrailAt(s, plan, selection, before, later, ws, i)
    {
      assert TrailAt(s, plan, selection, before, status, ws, i);
    }
  }

  lemma TrailNext(s: Setup, plan: seq<Operation>, selection: set<OpId>, before: map<OpId, Outcome>, status: map<OpId, Outcome>,
                  ws: seq<World>, n: nat, v: World)
    requires Trail(s, plan, selection, before, status, ws, n) && n < |plan|
    requires TrailAt(s, plan, selection, before, status, ws + [v], n)
    ensures Trail(s, plan, selection, before, status, ws + [v], n + 1)
  {
    var more := ws + [v];
    forall i | 0 <= i < n + 1
      ensures TrailAt(s, plan, selection, before, status, more, i)
    {
      if i < n {
        assert TrailAt(s, plan, selection, before, status, ws, i);
      }
    }
  }
}
