/** One pass of the scheduler over the queue of pending sessions. */
module Scheduling {
  import opened Lifecycle

  type SessionId = string
  type Resource = nat

  datatype Entry = Entry(state: SessionState, resources: set<Resource>)

  predicate Disjoint(a: set<Resource>, b: set<Resource>) {
    a !! b
  }

  /** A queued session competes for its resources only while it is pending; any other entry is
      taken off the queue at once. */
  predicate Contends(records: map<SessionId, Entry>, id: SessionId) {
    id in records && records[id].state == Pending
  }

  function Needs(records: map<SessionId, Entry>, id: SessionId): set<Resource> {
    if Contends(records, id) then records[id].resources else {}
  }

  /** Everything the chosen ones among the first `n` need. */
  function Taken(queue: seq<SessionId>, records: map<SessionId, Entry>, chosen: seq<bool>, n: nat): set<Resource>
    requires n <= |queue| && n <= |chosen|
  {
    if n == 0 then {} else Taken(queue, records, chosen, n - 1) + (if chosen[n - 1] then Needs(records, queue[n - 1]) else {})
  }

  /** Everything those left waiting among the first `n` need. */
  function Awaited(queue: seq<SessionId>, records: map<SessionId, Entry>, chosen: seq<bool>, n: nat): set<Resource>
    requires n <= |queue| && n <= |chosen|
  {
    if n == 0 then {} else Awaited(queue, records, chosen, n - 1) + (if chosen[n - 1] then {} else Needs(records, queue[n - 1]))
  }

  lemma {:induction false} TakenHolds(queue: seq<SessionId>, records: map<SessionId, Entry>, chosen: seq<bool>, n: nat)
    requires n <= |queue| && n <= |chosen|
    ensures forall r :: r in Taken(queue, records, chosen, n) <==> exists i :: 0 <= i < n && chosen[i] && r in Needs(records, queue[i])
    ensures forall r :: r in Awaited(queue, records, chosen, n) <==> exists i :: 0 <= i < n && !chosen[i] && r in Needs(records, queue[i])
  {
    if n > 0 {
      TakenHolds(queue, records, chosen, n - 1);
    }
  }

  lemma {:induction false} TakenPrefix(queue: seq<SessionId>, records: map<SessionId, Entry>, chosen: seq<bool>, more: seq<bool>, n: nat)
    requires n <= |queue| && n <= |chosen| && chosen <= more
    ensures Taken(queue, records, more, n) == Taken(queue, records, chosen, n)
    ensures Awaited(queue, records, more, n) == Awaited(queue, records, chosen, n)
  {
    if n > 0 {
      TakenPrefix(queue, records, chosen, more, n - 1);
    }
  }

  /** Decisions for the first `n` queued sessions, each from those before it. */
  ghost predicate Decided(queue: seq<SessionId>, records: map<SessionId, Entry>, reserved: set<Resource>, chosen: seq<bool>, n: nat) {
    && n == |chosen| <= |queue|
    && forall i :: 0 <= i < n ==> chosen[i] == Admissible(queue, records, reserved, chosen, i)
  }

  predicate Admissible(queue: seq<SessionId>, records: map<SessionId, Entry>, reserved: set<Resource>, chosen: seq<bool>, i: nat)
    requires i < |queue| && i <= |chosen|
  {
    Disjoint(Needs(records, queue[i]), reserved + Taken(queue, records, chosen, i) + Awaited(queue, records, chosen, i))
  }

  lemma DecidedNext(queue: seq<SessionId>, records: map<SessionId, Entry>, reserved: set<Resource>, chosen: seq<bool>, n: nat)
    requires Decided(queue, records, reserved, chosen, n) && n < |queue|
    ensures Decided(queue, records, reserved, chosen + [Admissible(queue, records, reserved, chosen, n)], n + 1)
  {
    var more := chosen + [Admissible(queue, records, reserved, chosen, n)];
    forall i | 0 <= i <= n
      ensures Admissible(queue, records, reserved, more, i) == Admissible(queue, records, reserved, chosen, i)
    {
      TakenPrefix(queue, records, chosen, more, i);
    }
  }

  lemma PassStep(queue: seq<SessionId>, records: map<SessionId, Entry>, reserved: set<Resource>, chosen: seq<bool>, n: nat)
    requires Decided(queue, records, reserved, chosen, n) && n < |queue|
    ensures var b := Admissible(queue, records, reserved, chosen, n);
            var more := chosen + [b];
            && Decided(queue, records, reserved, more, n + 1)
            && Picked(queue, more, n + 1) == Picked(queue, chosen, n) + (if b then [queue[n]] else [])
            && Taken(queue, records, more, n + 1) == Taken(queue, records, chosen, n) + (if b then Needs(records, queue[n]) else {})
            && Awaited(queue, records, more, n + 1) == Awaited(queue, records, chosen, n) + (if b then {} else Needs(records, queue[n]))
  {
    var more := chosen + [Admissible(queue, records, reserved, chosen, n)];
    DecidedNext(queue, records, reserved, chosen, n);
    TakenPrefix(queue, records, chosen, more, n);
    PickedPrefix(queue, chosen, more, n);
  }

  /** The pass so far: decisions, those selected, what is reserved and what is waited for. */
  ghost predicate Passed(queue: seq<SessionId>, records: map<SessionId, Entry>, reserved: set<Resource>, n: nat,
                         chosen: seq<bool>, selected: seq<SessionId>, after: set<Resource>, waiting: set<Resource>) {
    && Decided(queue, records, reserved, chosen, n)
    && selected == Picked(queue, chosen, n)
    && after == reserved + Taken(queue, records, chosen, n)
    && waiting == Awaited(queue, records, chosen, n)
  }

  lemma PassedNext(queue: seq<SessionId>, records: map<SessionId, Entry>, reserved: set<Resource>, n: nat,
                   chosen: seq<bool>, selected: seq<SessionId>, after: set<Resource>, waiting: set<Resource>, b: bool)
    requires n < |queue| && Passed(queue, records, reserved, n, chosen, selected, after, waiting)
    requires b == Disjoint(Needs(records, queue[n]), after + waiting)
    ensures Passed(queue, records, reserved, n + 1, chosen + [b],
                   if b then selected + [queue[n]] else selected,
                   if b then after + Needs(records, queue[n]) else after,
                   if b then waiting else waiting + Needs(records, queue[n]))
  {
    assert reserved + Taken(queue, records, chosen, n) + Awaited(queue, records, chosen, n) == after + waiting;
    PassStep(queue, records, reserved, chosen, n);
  }

  /** The scheduling pass, in queue order. */
  method Pass(queue: seq<SessionId>, records: map<SessionId, Entry>, reserved: set<Resource>)
    returns (chosen: seq<bool>, selected: seq<SessionId>, after: set<Resource>)
    ensures Decided(queue, records, reserved, chosen, |queue|)
    ensures selected == Picked(queue, chosen, |queue|)
    ensures after == reserved + Taken(queue, records, chosen, |queue|)
  {
    chosen, selected, after := [], [], reserved;
    var waiting: set<Resource> := {};
    for i := 0 to |queue|
      invariant Passed(queue, records, reserved, i, chosen, selected, after, waiting)
    {
      var id := queue[i];
      var needs := Needs(records, id);
      var free := Free(needs, after, waiting);
      PassedNext(queue, records, reserved, i, chosen, selected, after, waiting, free);
      chosen := chosen + [free];
      if free {
        selected, after := selected + [id], after + needs;
      } else {
        waiting := waiting + needs;
      }
    }
  }

  /** None of the needed resources is reserved or waited for. */
  method Free(needs: set<Resource>, reserved: set<Resource>, waiting: set<Resource>) returns (free: bool)
    ensures free == Disjoint(needs, reserved + waiting)
  {
    free := !(exists r :: r in needs && (r in reserved || r in waiting));
  }

  function Picked(queue: seq<SessionId>, chosen: seq<bool>, n: nat): seq<SessionId>
    requires n <= |queue| && n <= |chosen|
  {
    if n == 0 then [] else Picked(queue, chosen, n - 1) + (if chosen[n - 1] then [queue[n - 1]] else [])
  }

  lemma {:induction false} PickedPrefix(queue: seq<SessionId>, chosen: seq<bool>, more: seq<bool>, n: nat)
    requires n <= |queue| && n <= |chosen| && chosen <= more
    ensures Picked(queue, more, n) == Picked(queue, chosen, n)
  {
    if n > 0 {
      PickedPrefix(queue, chosen, more, n - 1);
    }
  }

  /** Fair and safe: chosen sessions need disjoint resources, none that were reserved, and none that
      a session queued before them is left waiting for. */
  lemma PassIsFair(queue: seq<SessionId>, records: map<SessionId, Entry>, reserved: set<Resource>, chosen: seq<bool>)
    requires Decided(queue, records, reserved, chosen, |queue|)
    ensures forall i :: 0 <= i < |queue| && chosen[i] ==> Disjoint(Needs(records, queue[i]), reserved)
    ensures forall i, j :: 0 <= i < j < |queue| && chosen[j] ==> Disjoint(Needs(records, queue[i]), Needs(records, queue[j]))
  {
    forall i, j | 0 <= i < j < |queue| && chosen[j]
      ensures Disjoint(Needs(records, queue[i]), Needs(records, queue[j]))
    {
      TakenHolds(queue, records, chosen, j);
      forall r | r in Needs(records, queue[i])
        ensures r !in Needs(records, queue[j])
      {
        assert r in Taken(queue, records, chosen, j) || r in Awaited(queue, records, chosen, j);
      }
    }
  }

  /** Nothing waits without a reason: a waiting session needs something that is reserved, or that an
      earlier queued session takes or waits for. */
  lemma WaitingIsForced(queue: seq<SessionId>, records: map<SessionId, Entry>, reserved: set<Resource>, chosen: seq<bool>, j: nat)
    requires Decided(queue, records, reserved, chosen, |queue|) && j < |queue| && !chosen[j]
    ensures Contends(records, queue[j])
    ensures || !Disjoint(Needs(records, queue[j]), reserved)
            || exists i :: 0 <= i < j && !Disjoint(Needs(records, queue[i]), Needs(records, queue[j]))
  {
    TakenHolds(queue, records, chosen, j);
    var r :| r in Needs(records, queue[j]) && r in reserved + Taken(queue, records, chosen, j) + Awaited(queue, records, chosen, j);
    if r !in reserved {
      var i :| 0 <= i < j && r in Needs(records, queue[i]);
      assert r in Needs(records, queue[i]) && r in Needs(records, queue[j]);
    }
  }

  /** Whoever is not pending any more leaves the queue at once and reserves nothing; what the pass reserves is
      exactly what the chosen pending sessions declare. */
  lemma PassReserves(queue: seq<SessionId>, records: map<SessionId, Entry>, reserved: set<Resource>, chosen: seq<bool>)
    requires Decided(queue, records, reserved, chosen, |queue|)
    ensures forall i :: 0 <= i < |queue| && (queue[i] !in records || records[queue[i]].state != Pending) ==> chosen[i]
    ensures forall r :: r in Taken(queue, records, chosen, |queue|) <==>
              exists i :: 0 <= i < |queue| && chosen[i] && queue[i] in records && records[queue[i]].state == Pending && r in records[queue[i]].resources
  {
    forall i | 0 <= i < |queue| && (queue[i] !in records || records[queue[i]].state != Pending)
      ensures chosen[i]
    {
      assert Needs(records, queue[i]) == {};
    }
    TakenHolds(queue, records, chosen, |queue|);
    forall r
      ensures r in Taken(queue, records, chosen, |queue|) <==>
                exists i :: 0 <= i < |queue| && chosen[i] && queue[i] in records && records[queue[i]].state == Pending && r in records[queue[i]].resources
    {
      if r in Taken(queue, records, chosen, |queue|) {
        var i :| 0 <= i < |queue| && chosen[i] && r in Needs(records, queue[i]);
      }
      if i :| 0 <= i < |queue| && chosen[i] && queue[i] in records && records[queue[i]].state == Pending && r in records[queue[i]].resources {
        assert r in Needs(records, queue[i]);
      }
    }
  }

  /** With nothing reserved the head of the queue is always chosen. */
  lemma PassIsLive(queue: seq<SessionId>, records: map<SessionId, Entry>, chosen: seq<bool>)
    requires Decided(queue, records, {}, chosen, |queue|) && queue != []
    ensures chosen[0] && Picked(queue, chosen, |queue|) != []
  {
    assert Admissible(queue, records, {}, chosen, 0);
    HeadPicked(queue, chosen, |queue|);
  }

  lemma {:induction false} HeadPicked(queue: seq<SessionId>, chosen: seq<bool>, n: nat)
    requires 1 <= n <= |queue| && n <= |chosen| && chosen[0]
    ensures Picked(queue, chosen, n) != [] && Picked(queue, chosen, n)[0] == queue[0]
  {
    if n > 1 {
      HeadPicked(queue, chosen, n - 1);
    }
  }

  function Unpicked(queue: seq<SessionId>, selected: set<SessionId>): (r: seq<SessionId>)
    ensures forall id :: id in r <==> id in queue && id !in selected
  {
    if queue == [] then []
    else
      var n := |queue| - 1;
      assert queue == queue[..n] + [queue[n]];
      Unpicked(queue[..n], selected) + (if queue[n] in selected then [] else [queue[n]])
  }

  lemma {:induction false} UnpickedKeepsOrder(queue: seq<SessionId>, selected: set<SessionId>, i: nat, j: nat)
    requires i < j < |Unpicked(queue, selected)|
    ensures exists a, b :: 0 <= a < b < |queue| && queue[a] == Unpicked(queue, selected)[i] && queue[b] == Unpicked(queue, selected)[j]
  {
    var n := |queue| - 1;
    var front := Unpicked(queue[..n], selected);
    if j < |front| {
      UnpickedKeepsOrder(queue[..n], selected, i, j);
      var a, b :| 0 <= a < b < n && queue[..n][a] == front[i] && queue[..n][b] == front[j];
      assert queue[a] == front[i] && queue[b] == front[j];
    } else {
      assert front[i] in front;
      var a :| 0 <= a < n && queue[..n][a] == front[i];
      assert queue[a] == front[i] && queue[n] == Unpicked(queue, selected)[j];
    }
  }

  method Remove(queue: seq<SessionId>, gone: set<SessionId>) returns (left: seq<SessionId>)
    ensures left == Unpicked(queue, gone)
  {
    left := [];
    for i := 0 to |queue|
      invariant left == Unpicked(queue[..i], gone)
    {
      assert queue[..i + 1][..i] == queue[..i];
      if queue[i] !in gone {
        left := left + [queue[i]];
      }
    }
    assert queue[..|queue|] == queue;
  }

  /** The scheduler's part of the dispatcher. */
  class Scheduler {
    var pending: seq<SessionId>
    var reserved: set<Resource>
    var records: map<SessionId, Entry>

    constructor ()
      ensures pending == [] && reserved == {} && records == map[]
    {
      pending, reserved, records := [], {}, map[];
    }

    /** Selected sessions leave the queue, the rest keep their order, and what the selected ones need is reserved. */
    method Schedule() returns (selected: seq<SessionId>)
      modifies this`pending, this`reserved
      ensures exists chosen ::
                && Decided(old(pending), records, old(reserved), chosen, |old(pending)|)
                && selected == Picked(old(pending), chosen, |old(pending)|)
                && reserved == old(reserved) + Taken(old(pending), records, chosen, |old(pending)|)
      ensures pending == Unpicked(old(pending), set id | id in selected)
    {
      var chosen, picked, after := Pass(pending, records, reserved);
      selected := picked;
      var gone := set id | id in selected;
      var left := Remove(pending, gone);
      reserved, pending := after, left;
    }
  }
}
