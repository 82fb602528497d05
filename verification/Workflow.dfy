/** The execution workflow: judge the execution set afresh, clear other runs' leftovers, and execute. */
module Workflow {
  import opened Paths
  import opened Model
  import opened Scans
  import opened Planner
  import opened PlanBuilder
  import opened Constructible
  import opened Mirror
  import opened Convergence
  import opened MirrorTheorem
  import opened Volume
  import opened Effects
  import opened Steps
  import opened Progress
  import opened Safety
  import opened Selection
  import opened Quarantine
  import opened Preflight
  import opened Clearance
  import opened Run
  import opened Refinement
  import opened Replan
  import opened Pipeline

  // -------------------------------------------------------------------------- leftovers

  /** An owned temporary of another run. */
  predicate Leftover(run: RunId, p: Place) {
    p.TempOf? && p.run != run
  }

  ghost predicate ClearedAt(run: RunId, w0: World, w: World, p: Place) {
    Same(w0, w, p) || (Leftover(run, p) && Gone(w, p))
  }

  /** Some leftovers are gone, and nothing else happened. */
  ghost predicate Cleared(run: RunId, w0: World, w: World) {
    && Sound(w) && w.nextId == w0.nextId && w.newBits == w0.newBits
    && (forall p :: ClearedAt(run, w0, w, p))
    && (forall id :: id in w.files ==> id in w0.files && w.files[id] == w0.files[id])
  }

  lemma ClearedRefl(run: RunId, w: World)
    requires Sound(w)
    ensures Cleared(run, w, w)
  {
  }

  lemma ClearedNext(run: RunId, w0: World, w: World, p: Place)
    requires Cleared(run, w0, w) && Leftover(run, p)
    ensures Cleared(run, w0, Unlinked(w, p))
  {
    UnlinkedSteady(w, p);
    forall q
      ensures ClearedAt(run, w0, Unlinked(w, p), q)
    {
      assert ClearedAt(run, w0, w, q);
    }
  }

  ghost predicate AllCleared(run: RunId, w0: World, h0: seq<World>, h: seq<World>) {
    h0 <= h && forall i :: |h0| <= i < |h| ==> Cleared(run, w0, h[i])
  }

  /** Bytes of the listed leftovers. */
  function LeftoverBytes(w: World, run: RunId, places: seq<Place>): nat {
    if places == [] then 0
    else
      var p := places[|places| - 1];
      LeftoverBytes(w, run, places[..|places| - 1]) + (if Leftover(run, p) && HasFile(w, p) then |BytesAt(w, p)| else 0)
  }

  /** No other place has the file at `p`. */
  ghost predicate Alone(w: World, p: Place)
    requires p in w.entries
  {
    forall q :: q in w.entries && q != p ==> w.entries[q] != w.entries[p]
  }

  /** Each leftover is listed once and is the only name of its file. */
  ghost predicate EachAlone(w: World, run: RunId, places: seq<Place>) {
    && (forall i, j :: 0 <= i < j < |places| ==> places[i] != places[j])
    && (forall i :: 0 <= i < |places| && Leftover(run, places[i]) && HasFile(w, places[i]) ==> Alone(w, places[i]))
  }

  /** Removing the only name of a file frees its bytes. */
  lemma UnlinkedFrees(w: World, p: Place)
    requires Sound(w) && HasFile(w, p) && Alone(w, p)
    ensures Used(w) == Used(Unlinked(w, p)) + |BytesAt(w, p)|
  {
    var v, id := Unlinked(w, p), w.entries[p].id;
    forall i | i in w.files && i != id
      ensures i in v.files
    {
      assert i in LinkedIds(w.entries);
      var q :| q in w.entries && w.entries[q].File? && w.entries[q].id == i;
      assert q in v.entries && v.entries[q] == w.entries[q];
    }
    assert id !in LinkedIds(v.entries);
    assert v.files == w.files - {id};
    TotalWithout(w.files, id, w.nextId);
  }

  /** The first `n` leftovers are gone and their bytes are free; the rest is still there. */
  ghost predicate FreedUpto(run: RunId, w0: World, w: World, places: seq<Place>, n: nat)
    requires n <= |places|
  {
    EachAlone(w0, run, places) ==>
      && Used(w) + LeftoverBytes(w0, run, places[..n]) == Used(w0)
      && (forall j :: n <= j < |places| ==> Same(w0, w, places[j]))
  }

  lemma FreedNext(run: RunId, w0: World, w: World, v: World, places: seq<Place>, n: nat)
    requires n < |places| && Sound(w0) && Cleared(run, w0, w) && FreedUpto(run, w0, w, places, n)
    requires v == if Leftover(run, places[n]) && HasFile(w, places[n]) then Unlinked(w, places[n]) else w
    ensures FreedUpto(run, w0, v, places, n + 1)
  {
    if EachAlone(w0, run, places) {
      var p := places[n];
      assert places[..n + 1][..n] == places[..n];
      assert Same(w0, w, p);
      if Leftover(run, p) && HasFile(w, p) {
        assert Alone(w, p) by {
          forall q | q in w.entries && q != p
            ensures w.entries[q] != w.entries[p]
          {
            assert ClearedAt(run, w0, w, q);
          }
        }
        UnlinkedFrees(w, p);
        assert |BytesAt(w, p)| == |BytesAt(w0, p)|;
      }
    }
  }

  /** Remove other runs' owned temporaries, one by one, until one cannot be removed. */
  method ClearLeftovers(volume: TargetVolume, run: RunId, leftovers: seq<Place>) returns (r: Result<Unit>)
    requires Sound(volume.world) && volume.Logged()
    modifies volume
    ensures volume.Logged() && Cleared(run, old(volume.world), volume.world)
    ensures AllCleared(run, old(volume.world), old(volume.history), volume.history)
    ensures r.Ok? ==> forall p :: p in leftovers && Leftover(run, p) && HasFile(old(volume.world), p) ==> Gone(volume.world, p)
    ensures r.Ok? && EachAlone(old(volume.world), run, leftovers) ==>
              Used(volume.world) + LeftoverBytes(old(volume.world), run, leftovers) == Used(old(volume.world))
  {
    ghost var w0 := volume.world;
    ClearedRefl(run, w0);
    for i := 0 to |leftovers|
      invariant volume.Logged() && Cleared(run, w0, volume.world) && FreedUpto(run, w0, volume.world, leftovers, i)
      invariant AllCleared(run, w0, old(volume.history), volume.history)
      invariant forall j :: 0 <= j < i && Leftover(run, leftovers[j]) && HasFile(w0, leftovers[j]) ==> Gone(volume.world, leftovers[j])
    {
      var p := leftovers[i];
      ghost var w := volume.world;
      assert ClearedAt(run, w0, w, p);
      if Leftover(run, p) && p in volume.world.entries && volume.world.entries[p].File? {
        var removed := volume.RemoveOwnedTemp(p);
        if volume.world != w {
          ClearedNext(run, w0, w, p);
        }
        if removed.Err? {
          return removed;
        }
      }
      FreedNext(run, w0, w, volume.world, leftovers, i);
    }
    assert leftovers[..|leftovers|] == leftovers;
    return Ok(Unit);
  }

  lemma ClearedKeepsFile(run: RunId, w0: World, w: World, p: Place)
    requires Cleared(run, w0, w) && !Leftover(run, p)
    ensures Same(w0, w, p) && (HasFile(w0, p) ==> HasFile(w, p) && w.files[w.entries[p].id] == w0.files[w0.entries[p].id])
  {
    assert ClearedAt(run, w0, w, p);
  }

  lemma ClearedUsesNoMore(run: RunId, w0: World, w: World)
    requires Cleared(run, w0, w)
    ensures Used(w) <= Used(w0)
  {
    TotalShrinks(w.files, w0.files, w.nextId);
  }

  // ------------------------------------------------------- what no session of a run may harm

  /** Places in doubt are left alone, but for other runs' leftovers. */
  ghost predicate DoubtsKept(p: Reviewed, s: Setup, start: World, w: World) {
    forall place :: LiveKey(place).Some? && !Leftover(s.run, place) && InDoubt(p.ops, LiveKey(place).value) ==>
      LeftAlone(start, w, place) && (!SharesExposed(s, p.ops, Selected(p), start, place) ==> LeftWhole(start, w, place))
  }

  /** No content is lost that the selected operations may not lose, files of which they may change no planned
      path are wholly as they were, and places in doubt are kept. */
  ghost predicate Unharmed(p: Reviewed, s: Setup, start: World, w: World) {
    && Sound(w) && Unaltered(start, w)
    && (AllSparing(s, p.ops, Selected(p)) ==> NoLoss(start, w))
    && Preserved(s, p.ops, Selected(p), start, w)
    && DoubtsKept(p, s, start, w)
  }

  ghost predicate AllUnharmed(p: Reviewed, s: Setup, start: World, h0: seq<World>, h: seq<World>) {
    h0 <= h && forall i :: |h0| <= i < |h| ==> Unharmed(p, s, start, h[i])
  }

  lemma UnharmedStart(p: Reviewed, s: Setup, start: World)
    requires Sound(start)
    ensures Unharmed(p, s, start, start)
  {
  }

  /** What is left alone is left whole, unless its file has a planned path that may be changed. */
  lemma DoubtKept(p: Reviewed, s: Setup, start: World, w: World, place: Place)
    requires Sound(start) && LeftAlone(start, w, place) && Preserved(s, p.ops, Selected(p), start, w)
    ensures !SharesExposed(s, p.ops, Selected(p), start, place) ==> LeftWhole(start, w, place)
  {
    if HasFile(start, place) {
      assert PreservedAt(s, p.ops, Selected(p), start, w, start.entries[place].id);
    }
  }

  lemma ClearingIsHarmless(p: Reviewed, s: Setup, w0: World, w: World)
    requires Sound(w0) && Cleared(s.run, w0, w)
    ensures Unharmed(p, s, w0, w)
  {
    forall place | Durable(place) && HasFile(w0, place)
      ensures Holds(w, BytesAt(w0, place))
    {
      ClearedKeepsFile(s.run, w0, w, place);
    }
    forall id: nat
      ensures PreservedAt(s, p.ops, Selected(p), w0, w, id)
    {
      forall place | place in w.entries && w.entries[place] == File(id)
        ensures Same(w0, w, place)
      {
        assert ClearedAt(s.run, w0, w, place);
      }
    }
    forall place | LiveKey(place).Some? && !Leftover(s.run, place) && InDoubt(p.ops, LiveKey(place).value)
      ensures LeftAlone(w0, w, place) && LeftWhole(w0, w, place)
    {
      ClearedKeepsFile(s.run, w0, w, place);
    }
  }

  lemma CallIsHarmless(p: Reviewed, s: Setup, w0: World, w: World, budget: nat, log: seq<Admission>)
    requires Ordered(p) && ValidPaths(p.ops) && Sound(w0) && Secured(s, p.ops, Selected(p), w0, w, budget, log)
    ensures Unharmed(p, s, w0, w)
  {
    QuarantineFrame(p, s, Selected(p), w0, w);
  }

  lemma UnharmedTwice(p: Reviewed, s: Setup, start: World, w1: World, w: World)
    requires Sound(start) && Unharmed(p, s, start, w1) && Unharmed(p, s, w1, w)
    ensures Unharmed(p, s, start, w)
  {
    if AllSparing(s, p.ops, Selected(p)) {
      NoLossTransitive(start, w1, w);
    }
    UnalteredTransitive(start, w1, w);
    PreservedTwice(s, p.ops, Selected(p), start, w1, w);
    forall place | LiveKey(place).Some? && !Leftover(s.run, place) && InDoubt(p.ops, LiveKey(place).value)
      ensures LeftAlone(start, w, place) && (!SharesExposed(s, p.ops, Selected(p), start, place) ==> LeftWhole(start, w, place))
    {
      assert LeftAlone(start, w1, place) && LeftAlone(w1, w, place);
      DoubtKept(p, s, start, w, place);
    }
  }

  lemma UnharmedByClearing(p: Reviewed, s: Setup, start: World, w1: World, w: World)
    requires Sound(start) && Unharmed(p, s, start, w1) && Cleared(s.run, w1, w)
    ensures Unharmed(p, s, start, w)
  {
    ClearingIsHarmless(p, s, w1, w);
    UnharmedTwice(p, s, start, w1, w);
  }

  lemma UnharmedByCall(p: Reviewed, s: Setup, start: World, w1: World, w: World, budget: nat, log: seq<Admission>)
    requires Ordered(p) && ValidPaths(p.ops) && Sound(start) && Unharmed(p, s, start, w1)
    requires Secured(s, p.ops, Selected(p), w1, w, budget, log)
    ensures Unharmed(p, s, start, w)
  {
    CallIsHarmless(p, s, w1, w, budget, log);
    UnharmedTwice(p, s, start, w1, w);
  }

  lemma AllUnharmedByClearing(p: Reviewed, s: Setup, start: World, w1: World, h0: seq<World>, h: seq<World>)
    requires Sound(start) && Unharmed(p, s, start, w1) && AllCleared(s.run, w1, h0, h)
    ensures AllUnharmed(p, s, start, h0, h)
  {
    forall i | |h0| <= i < |h|
      ensures Unharmed(p, s, start, h[i])
    {
      UnharmedByClearing(p, s, start, w1, h[i]);
    }
  }

  lemma AllUnharmedByCall(p: Reviewed, s: Setup, start: World, w1: World, h0: seq<World>, h: seq<World>, budget: nat, log: seq<Admission>)
    requires Ordered(p) && ValidPaths(p.ops) && Sound(start) && Unharmed(p, s, start, w1)
    requires AllSecured(s, p.ops, Selected(p), w1, h0, h, budget, log)
    ensures AllUnharmed(p, s, start, h0, h)
  {
    forall i | |h0| <= i < |h|
      ensures Unharmed(p, s, start, h[i])
    {
      UnharmedByCall(p, s, start, w1, h[i], budget, log);
    }
  }

  lemma AllUnharmedJoin(p: Reviewed, s: Setup, start: World, h0: seq<World>, h1: seq<World>, h: seq<World>)
    requires AllUnharmed(p, s, start, h0, h1) && AllUnharmed(p, s, start, h1, h)
    ensures AllUnharmed(p, s, start, h0, h)
  {
    forall i | |h0| <= i < |h|
      ensures Unharmed(p, s, start, h[i])
    {
      assert i < |h1| ==> h[i] == h1[i];
    }
  }

  // ------------------------------------------------------------------------------- space

  /** In every state recorded since `h0` at most `limit` bytes are in use. */
  ghost predicate AllWithin(h0: seq<World>, h: seq<World>, limit: nat) {
    h0 <= h && forall i :: |h0| <= i < |h| ==> Used(h[i]) <= limit
  }

  lemma AllWithinWider(h0: seq<World>, h: seq<World>, limit: nat, more: nat)
    requires AllWithin(h0, h, limit) && limit <= more
    ensures AllWithin(h0, h, more)
  {
  }

  lemma RoomSuffices(h0: seq<World>, h: seq<World>, before: nat, cleared: nat, required: nat, free: nat, reclaimable: nat)
    requires AllWithin(h0, h, Max(before, cleared + required)) && required <= free + reclaimable
    ensures AllWithin(h0, h, Max(before, cleared + free + reclaimable))
    ensures reclaimable <= before - cleared ==> AllWithin(h0, h, before + free)
  {
    AllWithinWider(h0, h, Max(before, cleared + required), Max(before, cleared + free + reclaimable));
    if reclaimable <= before - cleared {
      AllWithinWider(h0, h, Max(before, cleared + required), before + free);
    }
  }

  /** While leftovers are cleared the bytes in use only go down; then the run may use its requirement. */
  lemma SessionWithin(run: RunId, s: Setup, plan: seq<Operation>, selection: set<OpId>, w0: World, w1: World,
                      h0: seq<World>, h1: seq<World>, h: seq<World>, budget: nat, log: seq<Admission>)
    requires AllCleared(run, w0, h0, h1) && AllSecured(s, plan, selection, w1, h1, h, budget, log)
    ensures AllWithin(h0, h, Max(Used(w0), Used(w1) + budget))
  {
    forall i | |h0| <= i < |h|
      ensures Used(h[i]) <= Max(Used(w0), Used(w1) + budget)
    {
      if i < |h1| {
        assert h[i] == h1[i];
        ClearedUsesNoMore(run, w0, h1[i]);
      }
    }
  }

  // ---------------------------------------------------------------------------- a session

  /** How a session ends: refused by the judge, aborted before the executor ran, or as the executor says. */
  datatype Ending = Declined(refusals: set<Refusal>) | Aborted | Ended(verdict: Verdict)

  /** The execution set is about this run as it stands. */
  ghost predicate Describes(x: ExecutionSet, run: Execution)
    reads run
  {
    && x.plan.ops == run.plan && x.setup == run.setup && x.status == run.status
    && x.selection == run.selection && x.selection == Selected(x.plan)
    && Ordered(x.plan) && ValidPaths(x.plan.ops)
  }

  /** One session.  It is declined unless everything is in order, and then volume and statuses stay as they
      were.  Otherwise in no state are more bytes in use than there were plus what was free, provided that
      clearing the leftovers has freed what was counted as reclaimable. */
  method RunExecution(x: ExecutionSet, run: Execution, observed: ObservedWorld, leftovers: seq<Place>)
    returns (ending: Ending, ghost cleared: World, ghost ws: seq<World>)
    requires run.Valid() && Describes(x, run)
    modifies run, run.volume
    ensures run.Valid() && Extends(x.status, run.status) && old(run.events) <= run.events
    ensures ending.Declined? <==> !AllClear(x, observed)
    ensures ending.Declined? ==>
              && (forall r :: r in ending.refusals <==> Refused(x, observed, r))
              && run.status == x.status && run.events == old(run.events)
              && run.volume.world == old(run.volume.world) && run.volume.history == old(run.volume.history)
    ensures AllUnharmed(x.plan, x.setup, old(run.volume.world), old(run.volume.history), run.volume.history)
    ensures Unharmed(x.plan, x.setup, old(run.volume.world), run.volume.world)
    ensures !ending.Declined? ==> Fitting(x, observed, old(run.volume.world), cleared, old(run.volume.history), run.volume.history)
    ensures ending.Ended? && EachAlone(old(run.volume.world), x.setup.run, leftovers) ==>
              Used(old(run.volume.world)) - Used(cleared) == LeftoverBytes(old(run.volume.world), x.setup.run, leftovers)
    ensures ending.Ended? && !ending.verdict.RaisedPaused? ==> run.status.Keys == run.selection
    ensures ending == Ended(Returned(false)) ==> AllWell(run.status)
    ensures ending.Ended? ==> run.Appointed(x.status, ending.verdict)
    ensures ending.Ended? && ending.verdict.Returned? ==> run.Traced(ws, x.status, cleared)
  {
    UnharmedStart(x.plan, x.setup, run.volume.world);
    var ok, refusals := Judge(x, observed);
    OkIsClear(x, observed, refusals);
    if ok {
      ending, cleared, ws := RunPassed(x, run, observed, leftovers);
    } else {
      ending, cleared, ws := Declined(refusals), run.volume.world, [];
    }
  }

  /** A session cleared the leftovers and kept within the space there was. */
  ghost predicate Fitting(x: ExecutionSet, observed: ObservedWorld, w0: World, cleared: World, h0: seq<World>, h: seq<World>) {
    && observed.freeSpace.Some? && Cleared(x.setup.run, w0, cleared)
    && AllWithin(h0, h, Max(Used(w0), Used(cleared) + observed.freeSpace.value + observed.reclaimable))
    && (observed.reclaimable <= Used(w0) - Used(cleared) ==> AllWithin(h0, h, Used(w0) + observed.freeSpace.value))
  }

  lemma OkIsClear(x: ExecutionSet, observed: ObservedWorld, refusals: set<Refusal>)
    requires SetInOrder(x) && forall r :: r in refusals <==> Refused(x, observed, r)
    ensures refusals == {} <==> AllClear(x, observed)
    ensures refusals == {} ==> observed.freeSpace.Some? && RequiredBytes(x.setup, Left(x)) <= observed.freeSpace.value + observed.reclaimable
  {
    ClearExactly(x, observed);
    if refusals != {} {
      var r :| r in refusals;
    }
  }

  /** A session whose execution set was passed. */
  method RunPassed(x: ExecutionSet, run: Execution, observed: ObservedWorld, leftovers: seq<Place>)
    returns (ending: Ending, ghost cleared: World, ghost ws: seq<World>)
    requires run.Valid() && Describes(x, run)
    requires observed.freeSpace.Some? && RequiredBytes(x.setup, Left(x)) <= observed.freeSpace.value + observed.reclaimable
    modifies run, run.volume
    ensures run.Valid() && Extends(x.status, run.status) && old(run.events) <= run.events && !ending.Declined?
    ensures AllUnharmed(x.plan, x.setup, old(run.volume.world), old(run.volume.history), run.volume.history)
    ensures Unharmed(x.plan, x.setup, old(run.volume.world), run.volume.world)
    ensures Fitting(x, observed, old(run.volume.world), cleared, old(run.volume.history), run.volume.history)
    ensures ending.Ended? && EachAlone(old(run.volume.world), x.setup.run, leftovers) ==>
              Used(old(run.volume.world)) - Used(cleared) == LeftoverBytes(old(run.volume.world), x.setup.run, leftovers)
    ensures ending.Ended? && !ending.verdict.RaisedPaused? ==> run.status.Keys == run.selection
    ensures ending == Ended(Returned(false)) ==> AllWell(run.status)
    ensures ending.Ended? ==> run.Appointed(x.status, ending.verdict)
    ensures ending.Ended? && ending.verdict.Returned? ==> run.Traced(ws, x.status, cleared)
  {
    ghost var w0, h0 := run.volume.world, run.volume.history;
    var removed := Tidy(x, run, leftovers);
    cleared, ws := run.volume.world, [];
    ghost var h1 := run.volume.history;
    ending := Aborted;
    if removed.Ok? {
      var verdict;
      ghost var reports;
      verdict, ws, reports := run.Execute();
      ending := Ended(verdict);
    }
    ConcludeSession(x, run, observed, w0, cleared, h0, h1, removed.Ok?);
  }

  /** The first half of a session: other runs' leftovers go. */
  method Tidy(x: ExecutionSet, run: Execution, leftovers: seq<Place>) returns (removed: Result<Unit>)
    requires run.Valid() && Describes(x, run)
    modifies run.volume
    ensures run.Valid() && Describes(x, run)
    ensures Tidied(x, old(run.volume.world), run.volume.world, old(run.volume.history), run.volume.history)
    ensures removed.Ok? && EachAlone(old(run.volume.world), x.setup.run, leftovers) ==>
              Used(old(run.volume.world)) - Used(run.volume.world) == LeftoverBytes(old(run.volume.world), x.setup.run, leftovers)
  {
    ghost var w0, h0 := run.volume.world, run.volume.history;
    UnharmedStart(x.plan, x.setup, w0);
    removed := ClearLeftovers(run.volume, x.setup.run, leftovers);
    UnharmedByClearing(x.plan, x.setup, w0, w0, run.volume.world);
    AllUnharmedByClearing(x.plan, x.setup, w0, w0, h0, run.volume.history);
  }

  ghost predicate Tidied(x: ExecutionSet, w0: World, w1: World, h0: seq<World>, h1: seq<World>) {
    && AllCleared(x.setup.run, w0, h0, h1) && Cleared(x.setup.run, w0, w1)
    && AllUnharmed(x.plan, x.setup, w0, h0, h1) && Unharmed(x.plan, x.setup, w0, w1)
  }

  /** The two halves of a session put together. */
  lemma ConcludeSession(x: ExecutionSet, run: Execution, observed: ObservedWorld, w0: World, w1: World, h0: seq<World>, h1: seq<World>, ran: bool)
    requires Ordered(x.plan) && ValidPaths(x.plan.ops) && Sound(w0) && Sound(w1)
    requires Tidied(x, w0, w1, h0, h1)
    requires if ran
             then && AllSecured(x.setup, x.plan.ops, Selected(x.plan), w1, h1, run.volume.history, RequiredBytes(x.setup, Left(x)), run.admitted)
                  && Secured(x.setup, x.plan.ops, Selected(x.plan), w1, run.volume.world, RequiredBytes(x.setup, Left(x)), run.admitted)
             else run.volume.history == h1 && run.volume.world == w1
    ensures AllUnharmed(x.plan, x.setup, w0, h0, run.volume.history) && Unharmed(x.plan, x.setup, w0, run.volume.world)
    requires observed.freeSpace.Some? && RequiredBytes(x.setup, Left(x)) <= observed.freeSpace.value + observed.reclaimable
    ensures Fitting(x, observed, w0, w1, h0, run.volume.history)
  {
    SessionIsUnharmed(x, run, w0, w1, h0, h1, ran);
    RoomSuffices(h0, run.volume.history, Used(w0), Used(w1), RequiredBytes(x.setup, Left(x)), observed.freeSpace.value, observed.reclaimable);
  }

  lemma SessionIsUnharmed(x: ExecutionSet, run: Execution, w0: World, w1: World, h0: seq<World>, h1: seq<World>, ran: bool)
    requires Ordered(x.plan) && ValidPaths(x.plan.ops) && Sound(w0) && Sound(w1)
    requires Tidied(x, w0, w1, h0, h1)
    requires if ran
             then && AllSecured(x.setup, x.plan.ops, Selected(x.plan), w1, h1, run.volume.history, RequiredBytes(x.setup, Left(x)), run.admitted)
                  && Secured(x.setup, x.plan.ops, Selected(x.plan), w1, run.volume.world, RequiredBytes(x.setup, Left(x)), run.admitted)
             else run.volume.history == h1 && run.volume.world == w1
    ensures AllUnharmed(x.plan, x.setup, w0, h0, run.volume.history) && Unharmed(x.plan, x.setup, w0, run.volume.world)
    ensures AllWithin(h0, run.volume.history, Max(Used(w0), Used(w1) + RequiredBytes(x.setup, Left(x))))
  {
    if ran {
      AllUnharmedByCall(x.plan, x.setup, w0, w1, h1, run.volume.history, RequiredBytes(x.setup, Left(x)), run.admitted);
      UnharmedByCall(x.plan, x.setup, w0, w1, run.volume.world, RequiredBytes(x.setup, Left(x)), run.admitted);
      AllUnharmedJoin(x.plan, x.setup, w0, h0, h1, run.volume.history);
      SessionWithin(x.setup.run, x.setup, x.plan.ops, Selected(x.plan), w0, w1, h0, h1, run.volume.history, RequiredBytes(x.setup, Left(x)), run.admitted);
    } else {
      forall i | |h0| <= i < |h1|
        ensures Used(h1[i]) <= Used(w0)
      {
        ClearedUsesNoMore(x.setup.run, w0, h1[i]);
      }
    }
  }

  // --------------------------------------------------------------------------- end to end

  /** What the plan was made under, and what each session finds before it runs. */
  datatype Terms = Terms(sourceVolume: Option<VolumeId>, targetVolume: Option<VolumeId>, sourceGranularity: nat, targetGranularity: nat)

  datatype Session = Session(observed: ObservedWorld, leftovers: seq<Place>)

  function SetFor(p: Reviewed, run: Execution, terms: Terms): ExecutionSet
    reads run
  {
    ExecutionSet(p, run.selection, run.status, run.setup, terms.sourceVolume, terms.targetVolume, terms.sourceGranularity, terms.targetGranularity)
  }

  predicate Interrupted(ending: Ending) {
    ending.Ended? && ending.verdict.RaisedPaused?
  }

  /** Plan, select, and run sessions until one is not paused.  Through every refusal, fault, retry,
      pause and cancellation: entries in doubt are left alone, each selected operation gets one outcome,
      and, unless the policy deletes or updates bypass the trash, no content that was on the target
      is ever lost. */
  method Synchronize(c: Inputs, sourceComplete: bool, targetComplete: bool, setup: Setup, terms: Terms, volume: TargetVolume, maxRetries: nat,
                     sessions: seq<Session>)
    returns (p: Reviewed, run: Execution, ending: Ending, used: nat)
    requires Named(c) && DistinctPaths(c.source) && DistinctPaths(c.target) && ValidInputs(c) && sessions != []
    requires SourceSound(setup) && Sound(volume.world) && volume.Logged() && setup.serial == volume.serial
    modifies volume
    ensures p == Reviewed(Plan(c), sourceComplete, targetComplete) && AllUnharmed(p, setup, old(volume.world), old(volume.history), volume.history)
    ensures c.options.deletion != Scans.Mirror && setup.trashOnUpdate ==> AllSparing(setup, p.ops, Selected(p))
    ensures Tallied(Selected(p), run.status, run.events)
    ensures ending.Ended? && !ending.verdict.RaisedPaused? ==> run.status.Keys == Selected(p)
    ensures ending == Ended(Returned(false)) ==> run.Completed()
    ensures 1 <= used <= |sessions| && (Interrupted(ending) ==> used == |sessions|)
    ensures ending.Declined? && used == 1 ==> run.status == map[] && volume.world == old(volume.world) && volume.history == old(volume.history)
  {
    var ops := BuildPlan(c);
    p := Reviewed(ops, sourceComplete, targetComplete);
    PlanIsExecutable(c, setup, Selected(p));
    PlanIsValid(c);
    var selection, exclusions := DeriveSelection(p);
    run := new Execution(setup, ops, selection, volume, maxRetries);
    ending, used := RunSessions(p, run, terms, sessions);
  }

  /** Sessions of one run, until one is not paused. */
  method RunSessions(p: Reviewed, run: Execution, terms: Terms, sessions: seq<Session>) returns (ending: Ending, used: nat)
    requires run.Valid() && Describes(SetFor(p, run, terms), run) && sessions != []
    modifies run, run.volume
    ensures run.Valid()
    ensures AllUnharmed(p, run.setup, old(run.volume.world), old(run.volume.history), run.volume.history)
    ensures ending.Ended? && !ending.verdict.RaisedPaused? ==> run.status.Keys == run.selection
    ensures ending == Ended(Returned(false)) ==> run.Completed()
    ensures 1 <= used <= |sessions| && (Interrupted(ending) ==> used == |sessions|)
    ensures ending.Declined? && used == 1 ==>
              run.status == old(run.status) && run.volume.world == old(run.volume.world) && run.volume.history == old(run.volume.history)
  {
    ghost var start, h0 := run.volume.world, run.volume.history;
    ghost var cleared, ws;
    ghost var before := run.status;
    ending, cleared, ws := RunExecution(SetFor(p, run, terms), run, sessions[0].observed, sessions[0].leftovers);
    CompletedIfWell(run, before, ending);
    used := 1;
    while Interrupted(ending) && used < |sessions|
      invariant 1 <= used <= |sessions| && run.Valid()
      invariant AllUnharmed(p, run.setup, start, h0, run.volume.history) && Unharmed(p, run.setup, start, run.volume.world)
      invariant ending.Ended? && !ending.verdict.RaisedPaused? ==> run.status.Keys == run.selection
      invariant ending == Ended(Returned(false)) ==> run.Completed()
      invariant ending.Declined? && used == 1 ==> run.status == old(run.status) && run.volume.world == start && run.volume.history == h0
      decreases |sessions| - used
    {
      ending := RunNext(p, run, terms, sessions[used], start, h0);
      used := used + 1;
    }
  }

  /** One more session, after those since `start`. */
  method RunNext(p: Reviewed, run: Execution, terms: Terms, session: Session, ghost start: World, ghost h0: seq<World>) returns (ending: Ending)
    requires run.Valid() && Describes(SetFor(p, run, terms), run) && Sound(start)
    requires AllUnharmed(p, run.setup, start, h0, run.volume.history) && Unharmed(p, run.setup, start, run.volume.world)
    modifies run, run.volume
    ensures run.Valid() && AllUnharmed(p, run.setup, start, h0, run.volume.history) && Unharmed(p, run.setup, start, run.volume.world)
    ensures ending.Ended? && !ending.verdict.RaisedPaused? ==> run.status.Keys == run.selection
    ensures ending == Ended(Returned(false)) ==> run.Completed()
  {
    ghost var w, h, before := run.volume.world, run.volume.history, run.status;
    ghost var cleared, ws;
    ending, cleared, ws := RunExecution(SetFor(p, run, terms), run, session.observed, session.leftovers);
    CompletedIfWell(run, before, ending);
    UnharmedAcross(p, run.setup, start, w, h0, h, run.volume.history, run.volume.world);
  }

  lemma CompletedIfWell(run: Execution, before: map<OpId, Outcome>, ending: Ending)
    requires Extends(before, run.status) && (ending.Ended? ==> run.Appointed(before, ending.verdict))
    ensures ending == Ended(Returned(false)) ==> run.Completed()
  {
    if ending == Ended(Returned(false)) {
      run.StandingFurnished(before, ending.verdict);
    }
  }

  /** A session after others. */
  lemma UnharmedAcross(p: Reviewed, s: Setup, start: World, w1: World, h0: seq<World>, h1: seq<World>, h: seq<World>, w: World)
    requires Sound(start) && AllUnharmed(p, s, start, h0, h1) && Unharmed(p, s, start, w1) && AllUnharmed(p, s, w1, h1, h) && Unharmed(p, s, w1, w)
    ensures AllUnharmed(p, s, start, h0, h) && Unharmed(p, s, start, w)
  {
    UnharmedTwice(p, s, start, w1, w);
    forall i | |h1| <= i < |h|
      ensures Unharmed(p, s, start, h[i])
    {
      UnharmedTwice(p, s, start, w1, h[i]);
    }
    AllUnharmedJoin(p, s, start, h0, h1, h);
  }

  // ----------------------------------------------------------------------------- mirroring

  /** Clearing leftovers changes nothing at planned paths. */
  lemma ClearedLooksTheSame(run: RunId, w0: World, w: World, t: Tree)
    requires Cleared(run, w0, w) && Depicted(w0, t, {}, true)
    ensures Depicted(w, t, {}, true)
  {
    forall key
      ensures ShowsAt(w, key, Lookup(t, key), key in {}, true)
    {
      assert ShowsAt(w0, key, Lookup(t, key), key in {}, true);
      ClearedKeepsFile(run, w0, w, Live(key));
    }
  }

  lemma {:induction false} CarriedKeepsBits(s: Setup, ops: seq<Operation>, ws: seq<World>)
    requires Carried(s, ops, ws)
    ensures ws[|ops|].newBits == ws[0].newBits
  {
    if ops != [] {
      var n := |ops| - 1;
      CarriedFront(s, ops, ws);
      CarriedKeepsBits(s, ops[..n], ws[..n + 1]);
      assert Step(s, ops, ws, n);
      DuringIsSteady(s, ops[n], ws[n], ws[n + 1]);
    }
  }

  /** The volume after a call in which nothing went wrong. */
  lemma CleanRunMirrors(c: Inputs, s: Setup, selection: set<OpId>, status: map<OpId, Outcome>, ws: seq<World>, w: World)
    requires Clean(c) && AllOpen(Plan(c)) && SourceSound(s) && AllWell(status)
    requires forall i :: 0 <= i < |Plan(c)| ==> Plan(c)[i].id in selection
    requires Trail(s, Plan(c), selection, map[], status, ws, |Plan(c)|) && Depicted(ws[0], TreeOf(c.target), {}, true)
    requires Redressed(ws[|Plan(c)|], w, Built(Plan(c), selection))
    ensures MirrorsKeys(c.source, w) && Realized(c, w, AllHarmless(s, Plan(c))) && w.newBits == ws[0].newBits
    ensures forall op :: op in Plan(c) && CopiesContent(op.kind) ==> Carries(s, op, w)
  {
    TrailIsCarried(s, Plan(c), selection, status, ws);
    AchievedPlanMirrors(c, s, ws);
    CarriedKeepsBits(s, Plan(c), ws);
    RedressedKeepsRealized(c, selection, ws[|Plan(c)|], w, AllHarmless(s, Plan(c)));
    RealizedMirrors(c, w, AllHarmless(s, Plan(c)));
    forall op | op in Plan(c) && CopiesContent(op.kind)
      ensures Carries(s, op, w)
    {
      RedressedKeepsContent(s, op, ws[|Plan(c)|], w, Built(Plan(c), selection));
    }
  }

  /** Every directory that such a run created carries the metadata intended for it. */
  lemma CreatedIsFurnished(c: Inputs, s: Setup, selection: set<OpId>, status: map<OpId, Outcome>, w: World)
    requires Clean(c) && AllOpen(Plan(c)) && AllWell(status) && status.Keys == selection && MirrorsKeys(c.source, w)
    requires forall i :: 0 <= i < |Plan(c)| ==> Plan(c)[i].id in selection
    requires Furnished(s, Plan(c), selection, Erected(map[], status), w)
    ensures forall op :: op in Plan(c) && op.kind == Mkdir ==> Clad(s, w, op)
  {
    forall op | op in Plan(c) && op.kind == Mkdir
      ensures Clad(s, w, op)
    {
      MkdirMakesSourceDir(c, op);
      PlanBuildsOnce(c, selection, op);
      assert FurnishedAt(s, Plan(c), selection, w, op);
    }
  }

  lemma CleanSessionMirrors(c: Inputs, s: Setup, selection: set<OpId>, status: map<OpId, Outcome>, w0: World, cleared: World, ws: seq<World>, w: World)
    requires Clean(c) && AllOpen(Plan(c)) && SourceSound(s) && AllWell(status) && status.Keys == selection
    requires forall i :: 0 <= i < |Plan(c)| ==> Plan(c)[i].id in selection
    requires Depicted(w0, TreeOf(c.target), {}, true) && Cleared(s.run, w0, cleared)
    requires Trail(s, Plan(c), selection, map[], status, ws, |Plan(c)|) && ws[0] == cleared && Redressed(ws[|Plan(c)|], w, Built(Plan(c), selection))
    requires Furnished(s, Plan(c), selection, Erected(map[], status), w)
    ensures MirrorsKeys(c.source, w) && Realized(c, w, AllHarmless(s, Plan(c))) && w.newBits == w0.newBits
    ensures forall op :: op in Plan(c) && CopiesContent(op.kind) ==> Carries(s, op, w)
    ensures forall op :: op in Plan(c) && op.kind == Mkdir ==> Clad(s, w, op)
  {
    ClearedLooksTheSame(s.run, w0, cleared, TreeOf(c.target));
    CleanRunMirrors(c, s, selection, status, ws, w);
    CreatedIsFurnished(c, s, selection, status, w);
  }

  /** Plan, select, judge and execute once.  If the scans were well-formed and complete, the plan had
      nothing blocked, the volume was as scanned, and the session reports no failure, then the volume is
      the mirror: directories and files exactly at the source's keys, files as the plan intended but for
      the other attribute bits of copied ones, the source's bytes in every file that was to be copied, and
      every directory that was to be created with its intended time and attributes. */
  method MirrorOnce(c: Inputs, setup: Setup, terms: Terms, volume: TargetVolume, maxRetries: nat, session: Session) returns (ending: Ending)
    requires Clean(c) && AllOpen(Plan(c)) && ValidInputs(c) && SourceSound(setup) && setup.serial == volume.serial
    requires Sound(volume.world) && volume.Logged() && Depicted(volume.world, TreeOf(c.target), {}, true)
    modifies volume
    ensures ending.Declined? ==> volume.world == old(volume.world) && volume.history == old(volume.history)
    ensures ending == Ended(Returned(false)) ==>
              MirrorsKeys(c.source, volume.world) && Realized(c, volume.world, AllHarmless(setup, Plan(c))) && volume.world.newBits == old(volume.world).newBits
    ensures ending == Ended(Returned(false)) ==> forall op :: op in Plan(c) && CopiesContent(op.kind) ==> Carries(setup, op, volume.world)
    ensures ending == Ended(Returned(false)) ==> forall op :: op in Plan(c) && op.kind == Mkdir ==> Clad(setup, volume.world, op)
  {
    var ops := BuildPlan(c);
    var p := Reviewed(ops, true, true);
    PrepareMirror(c, setup, p);
    var selection, exclusions := DeriveSelection(p);
    var run := new Execution(setup, ops, selection, volume, maxRetries);
    ghost var cleared, ws;
    ending, cleared, ws := RunExecution(SetFor(p, run, terms), run, session.observed, session.leftovers);
    if ending == Ended(Returned(false)) {
      CleanSessionMirrors(c, setup, selection, run.status, old(volume.world), cleared, ws, volume.world);
    }
  }

  lemma PrepareMirror(c: Inputs, s: Setup, p: Reviewed)
    requires Clean(c) && AllOpen(Plan(c)) && ValidInputs(c) && p == Reviewed(Plan(c), true, true)
    ensures Acceptable(p.ops) && AllShaped(p.ops) && ValidPaths(p.ops) && Ordered(p)
    ensures forall i :: 0 <= i < |p.ops| ==> p.ops[i].id in Selected(p)
  {
    WellFormedIsDistinct(c.source);
    WellFormedIsDistinct(c.target);
    PlanIsExecutable(c, s, Selected(p));
    PlanIsValid(c);
    EverythingSelected(p);
  }

  /** Any later scan has the next plan update a file. */
  ghost predicate UpdatesAgain(c: Inputs, w: World, rescan: Scan, mapping: Mapping)
    requires Clean(c) && AllOpen(Plan(c))
  {
    Rescanned(rescan, w, ResultTree(c)) && rescan.profile.granularity == c.target.profile.granularity ==>
      Named(Again(c, rescan, mapping)) && exists op :: op in Plan(Again(c, rescan, mapping)) && op.kind == Update && op.blocked.None?
  }

  /** A run at such an input: one file with other attribute bits than the volume gives to new files, and an
      empty target.  Though nothing fails, the file is planned to be updated again. */
  method MirrorLoneFile(bits: nat, terms: Terms, volume: TargetVolume, maxRetries: nat, session: Session) returns (c: Inputs, ending: Ending)
    requires Sound(volume.world) && volume.Logged() && volume.world.entries == map[] && volume.world.newBits != bits
    modifies volume
    ensures c == LoneInputs(LoneFile(bits)) && Clean(c) && AllOpen(Plan(c))
    ensures ending == Ended(Returned(false)) ==> forall rescan, mapping :: UpdatesAgain(c, volume.world, rescan, mapping)
  {
    c := LoneInputs(LoneFile(bits));
    LonePlan(c, LoneFile(bits));
    LoneValid(bits);
    ending := MirrorLone(c, LoneFile(bits), terms, volume, maxRetries, session);
  }

  lemma LoneValid(bits: nat)
    ensures ValidInputs(LoneInputs(LoneFile(bits)))
  {
  }

  method MirrorLone(c: Inputs, f: FileRecord, terms: Terms, volume: TargetVolume, maxRetries: nat, session: Session) returns (ending: Ending)
    requires LonePlanned(c, f) && ValidInputs(c) && |f.path| == 1 && f.size == 1
    requires Sound(volume.world) && volume.Logged() && volume.world.entries == map[] && volume.world.newBits != f.metadata.attributes.others
    modifies volume
    ensures ending == Ended(Returned(false)) ==> forall rescan, mapping :: UpdatesAgain(c, volume.world, rescan, mapping)
  {
    EmptyDepicted(volume.world);
    LoneHarmless(LoneSetup(f).(serial := volume.serial), Plan(c), f);
    ending := MirrorOnce(c, LoneSetup(f).(serial := volume.serial), terms, volume, maxRetries, session);
    if ending == Ended(Returned(false)) {
      UpdatedAfterAll(c, f, volume.world);
    }
  }

  lemma UpdatedAfterAll(c: Inputs, f: FileRecord, w: World)
    requires LonePlanned(c, f) && |f.path| == 1 && Realized(c, w, true) && f.metadata.attributes.others != w.newBits
    ensures forall rescan, mapping :: UpdatesAgain(c, w, rescan, mapping)
  {
    forall rescan, mapping
      ensures UpdatesAgain(c, w, rescan, mapping)
    {
      if Rescanned(rescan, w, ResultTree(c)) && rescan.profile.granularity == c.target.profile.granularity {
        var op := LoneAgain(c, f, w, rescan, mapping);
      }
    }
  }
}
