/** Event sequencing, bounded replay and bounded subscriber streams. */
module EventBus {
  import opened Paths
  import opened Lifecycle

  datatype Body =
    | StateChanged(state: SessionState)
    | Notice(text: string)
    | Terminal
    | Progress(done: nat)
    | Gap(first: nat)

  datatype Envelope = Envelope(number: nat, body: Body)

  predicate Lossy(e: Envelope) {
    e.body.Progress?
  }

  // ------------------------------------------------------------------------- sequences

  /** Numbers strictly increase. */
  ghost predicate Rising(xs: seq<Envelope>) {
    forall i, j :: 0 <= i < j < |xs| ==> xs[i].number < xs[j].number
  }

  /** The unbounded log the buffers stand in for: numbers count from one, no gaps, no Gap bodies. */
  ghost predicate IsLog(log: seq<Envelope>) {
    forall i :: 0 <= i < |log| ==> log[i].number == i + 1 && !log[i].body.Gap?
  }

  /** The event with this number in the log. */
  predicate Logged(log: seq<Envelope>, x: Envelope) {
    1 <= x.number <= |log| && log[x.number - 1] == x
  }

  lemma LogGrows(log: seq<Envelope>, e: Envelope)
    requires IsLog(log) && e.number == |log| + 1 && !e.body.Gap?
    ensures IsLog(log + [e])
  {
  }

  lemma LoggedGrows(log: seq<Envelope>, e: Envelope)
    requires e.number == |log| + 1
    ensures forall x :: Logged(log + [e], x) <==> Logged(log, x) || x == e
  {
  }

  ghost predicate OneProgress(xs: seq<Envelope>) {
    forall i, j :: 0 <= i < j < |xs| ==> !(Lossy(xs[i]) && Lossy(xs[j]))
  }

  /** Without the last Progress. */
  function Coalesced(xs: seq<Envelope>): seq<Envelope> {
    if xs == [] then []
    else
      var n := |xs| - 1;
      if Lossy(xs[n]) then xs[..n] else Coalesced(xs[..n]) + [xs[n]]
  }

  lemma {:induction false} CoalescedMembers(xs: seq<Envelope>)
    ensures |Coalesced(xs)| <= |xs|
    ensures forall x :: x in Coalesced(xs) ==> x in xs
    ensures forall x :: x in xs && !Lossy(x) ==> x in Coalesced(xs)
  {
    if xs != [] {
      var n := |xs| - 1;
      assert xs == xs[..n] + [xs[n]];
      CoalescedMembers(xs[..n]);
    }
  }

  lemma {:induction false} CoalescedRises(xs: seq<Envelope>)
    requires Rising(xs)
    ensures Rising(Coalesced(xs))
  {
    if xs != [] && !Lossy(xs[|xs| - 1]) {
      var n := |xs| - 1;
      var front := Coalesced(xs[..n]);
      CoalescedRises(xs[..n]);
      CoalescedMembers(xs[..n]);
      forall i | 0 <= i < |front|
        ensures front[i] in xs[..n]
      {
        assert front[i] in front;
      }
    }
  }

  lemma {:induction false} CoalescedIsReliable(xs: seq<Envelope>)
    requires OneProgress(xs)
    ensures forall x :: x in Coalesced(xs) ==> !Lossy(x)
  {
    if xs != [] {
      var n := |xs| - 1;
      assert xs == xs[..n] + [xs[n]];
      CoalescedIsReliable(xs[..n]);
    }
  }

  lemma CoalescedFacts(xs: seq<Envelope>)
    ensures |Coalesced(xs)| <= |xs|
    ensures forall x :: x in Coalesced(xs) ==> x in xs
    ensures forall x :: x in xs && !Lossy(x) ==> x in Coalesced(xs)
    ensures Rising(xs) ==> Rising(Coalesced(xs))
    ensures OneProgress(xs) ==> forall x :: x in Coalesced(xs) ==> !Lossy(x)
  {
    CoalescedMembers(xs);
    if Rising(xs) {
      CoalescedRises(xs);
    }
    if OneProgress(xs) {
      CoalescedIsReliable(xs);
    }
  }

  /** Removing the last Progress step by step from the right, as the loops do. */
  method RemoveLastProgress(xs: seq<Envelope>) returns (ys: seq<Envelope>)
    ensures ys == Coalesced(xs)
  {
    var i := |xs|;
    ys := xs;
    assert xs[..i] == xs;
    while i > 0
      invariant 0 <= i <= |xs| && ys == xs
      invariant Coalesced(xs) == Coalesced(xs[..i]) + xs[i..]
    {
      i := i - 1;
      assert xs[..i + 1][..i] == xs[..i];
      if Lossy(xs[i]) {
        ys := xs[..i] + xs[i + 1..];
        return;
      }
      assert [xs[i]] + xs[i + 1..] == xs[i..];
    }
  }

  /** The lowest number that a set of pending envelopes stands for, or a given one. */
  function LowestMissed(xs: seq<Envelope>, number: nat): (r: nat)
    ensures r <= number
    ensures forall x :: x in xs ==> r <= (if x.body.Gap? then x.body.first else x.number)
  {
    if xs == [] then number
    else
      var n := |xs| - 1;
      assert xs == xs[..n] + [xs[n]];
      var r := LowestMissed(xs[..n], number);
      var m := if xs[n].body.Gap? then xs[n].body.first else xs[n].number;
      if m < r then m else r
  }

  // --------------------------------------------------------------------------- streams

  /** A subscriber stream, with what its owner asked for, the number from which nothing was missing when
      it subscribed, and what it has read so far.  `detached` says that the owner, or the closing of the
      whole hub, closed it. */
  datatype View = View(capacity: nat, items: seq<Envelope>, closed: bool, ejected: bool, state: SessionState,
                       requested: nat, retained: nat, taken: seq<Envelope>, detached: bool)

  function Offered(v: View, e: Envelope): View {
    if v.closed then v
    else if Lossy(e) then
      var kept := Coalesced(v.items);
      v.(items := if |kept| >= v.capacity then kept else kept + [e])
    else if |v.items| >= v.capacity then
      v.(items := [Envelope(e.number, Gap(LowestMissed(v.items, e.number)))], ejected := true, closed := true)
    else
      v.(items := v.items + [e], state := if e.body.StateChanged? then e.body.state else v.state)
  }

  /** A reliable event is appended as long as there is room.  A stream is ejected only when it is full, and is
      then left with a Gap from the earliest event it had not read.  A Progress takes the place of an older
      one and is dropped only when reliable events fill the queue. */
  lemma OfferExactly(v: View, e: Envelope)
    ensures var next := Offered(v, e);
            && (v.closed ==> next == v)
            && (!v.closed && !Lossy(e) && |v.items| < v.capacity ==> next.items == v.items + [e] && !next.closed && next.ejected == v.ejected)
            && (!v.closed && !Lossy(e) && |v.items| >= v.capacity ==>
                  && next.ejected && next.closed && |next.items| == 1 && next.items[0].number == e.number && next.items[0].body.Gap?
                  && EarliestUnread(v.items, e.number, next.items[0].body.first))
            && (!v.closed && Lossy(e) ==>
                  && next.items == Coalesced(v.items) + (if |Coalesced(v.items)| < v.capacity then [e] else [])
                  && !next.closed && next.ejected == v.ejected)
            && (next.state != v.state ==> e.body.StateChanged? && next.state == e.body.state)
  {
    LowestIsEarliest(v.items, e.number);
  }

  /** The earliest number that an unread envelope stands for, or that of the event that found no room. */
  ghost predicate EarliestUnread(items: seq<Envelope>, number: nat, first: nat) {
    && first <= number && (forall x :: x in items ==> first <= Start(x))
    && (first == number || exists x :: x in items && first == Start(x))
  }

  lemma {:induction false} LowestIsEarliest(items: seq<Envelope>, number: nat)
    ensures EarliestUnread(items, number, LowestMissed(items, number))
  {
    if items != [] {
      var n := |items| - 1;
      LowestIsEarliest(items[..n], number);
      assert items == items[..n] + [items[n]] && items[n] in items;
    }
  }

  /** The first number that an envelope stands for. */
  function Start(x: Envelope): nat {
    if x.body.Gap? then x.body.first else x.number
  }

  function Delivery(v: View): seq<Envelope> {
    v.taken + v.items
  }

  /** A Gap says that everything from some number on may be missing. */
  ghost predicate Excused(xs: seq<Envelope>, number: nat) {
    exists g :: g in xs && g.body.Gap? && g.body.first <= number
  }

  ghost predicate Accounted(xs: seq<Envelope>, e: Envelope) {
    e in xs || Excused(xs, e.number)
  }

  /** Every reliable event asked for is there, in what was read or what waits, or excused by a Gap. */
  ghost predicate Complete(v: View, log: seq<Envelope>) {
    forall x :: Logged(log, x) && !Lossy(x) && x.number >= v.requested ==> Accounted(Delivery(v), x)
  }

  /** Until it is ejected, a stream has every reliable event from the first retained one on. */
  ghost predicate Unbroken(v: View, log: seq<Envelope>) {
    !v.ejected && !v.detached ==> forall x :: Logged(log, x) && !Lossy(x) && x.number >= v.retained ==> x in Delivery(v)
  }

  /** An envelope is a logged event, or a Gap about events already logged. */
  ghost predicate Genuine(v: View, log: seq<Envelope>, x: Envelope) {
    && 1 <= x.number <= |log|
    && (if x.body.Gap? then x.body.first <= x.number else Logged(log, x))
  }

  ghost predicate AllGenuine(v: View, log: seq<Envelope>) {
    forall x :: x in Delivery(v) ==> Genuine(v, log, x)
  }

  /** What holds of a stream at every moment. */
  ghost predicate Honest(v: View, log: seq<Envelope>) {
    && AllGenuine(v, log) && Rising(Delivery(v))
    && (!v.detached ==> Complete(v, log)) && Unbroken(v, log)
    && OneProgress(v.items) && |v.items| <= v.capacity + 1 && v.capacity >= 1
    && (v.closed && !v.detached ==> v.ejected)
    && (v.ejected ==> v.closed && exists g :: g in Delivery(v) && g.body.Gap?)
  }

  lemma GenuineLater(v: View, u: View, log: seq<Envelope>, e: Envelope, x: Envelope)
    requires Genuine(v, log, x) && e.number == |log| + 1
    ensures Genuine(u, log + [e], x)
  {
    LoggedGrows(log, e);
  }

  lemma ExcusedMonotone(xs: seq<Envelope>, ys: seq<Envelope>, number: nat)
    requires Excused(xs, number) && forall x :: x in xs && x.body.Gap? ==> x in ys
    ensures Excused(ys, number)
  {
    var g :| g in xs && g.body.Gap? && g.body.first <= number;
    assert g in ys;
  }

  /** Nothing reliable disappears between two versions of a stream, except what a Gap excuses. */
  ghost predicate Keeps(xs: seq<Envelope>, ys: seq<Envelope>) {
    forall x :: x in xs && !Lossy(x) ==> x in ys
  }

  lemma CompleteKept(v: View, u: View, log: seq<Envelope>, e: Envelope)
    requires Complete(v, log) && u.requested == v.requested && Keeps(Delivery(v), Delivery(u)) && e.number == |log| + 1
    requires Lossy(e) || Accounted(Delivery(u), e)
    ensures Complete(u, log + [e])
  {
    LoggedGrows(log, e);
    forall x | Logged(log + [e], x) && !Lossy(x) && x.number >= u.requested
      ensures Accounted(Delivery(u), x)
    {
      if x != e {
        assert Accounted(Delivery(v), x);
        if x !in Delivery(v) {
          ExcusedMonotone(Delivery(v), Delivery(u), x.number);
        }
      }
    }
  }

  lemma UnbrokenKept(v: View, u: View, log: seq<Envelope>, e: Envelope)
    requires Unbroken(v, log) && !v.ejected && u.retained == v.retained && u.detached == v.detached && e.number == |log| + 1
    requires Keeps(Delivery(v), Delivery(u)) && (Lossy(e) || e in Delivery(u))
    ensures Unbroken(u, log + [e])
  {
    LoggedGrows(log, e);
  }

  lemma RisingSnoc(xs: seq<Envelope>, e: Envelope)
    requires Rising(xs) && forall x :: x in xs ==> x.number < e.number
    ensures Rising(xs + [e])
  {
    var ys := xs + [e];
    forall i, j | 0 <= i < j < |ys|
      ensures ys[i].number < ys[j].number
    {
      assert i < |xs| ==> xs[i] in xs;
    }
  }

  lemma RisingParts(a: seq<Envelope>, b: seq<Envelope>, c: seq<Envelope>)
    requires Rising(a + b) && Rising(c) && forall x :: x in c ==> x in b
    ensures Rising(a + c)
  {
    var ab, ac := a + b, a + c;
    forall i, j | 0 <= i < j < |ac|
      ensures ac[i].number < ac[j].number
    {
      if i < |a| && |a| <= j {
        assert ac[j] in c;
        var k :| 0 <= k < |b| && b[k] == ac[j];
        assert ab[|a| + k] == ac[j] && ab[i] == ac[i];
      } else if j < |a| {
        assert ab[i] == ac[i] && ab[j] == ac[j];
      } else {
        assert ac[i] == c[i - |a|] && ac[j] == c[j - |a|];
      }
    }
  }

  lemma RisingSuffix(a: seq<Envelope>, b: seq<Envelope>)
    requires Rising(a + b)
    ensures Rising(b) && Rising(a)
  {
    var ab := a + b;
    forall i, j | 0 <= i < j < |b|
      ensures b[i].number < b[j].number
    {
      assert ab[|a| + i] == b[i] && ab[|a| + j] == b[j];
    }
    forall i, j | 0 <= i < j < |a|
      ensures a[i].number < a[j].number
    {
      assert ab[i] == a[i] && ab[j] == a[j];
    }
  }

  lemma GenuineAll(v: View, u: View, log: seq<Envelope>, e: Envelope)
    requires AllGenuine(v, log) && e.number == |log| + 1
    requires forall x :: x in Delivery(u) ==> x in Delivery(v) || Genuine(u, log + [e], x)
    ensures AllGenuine(u, log + [e])
  {
    forall x | x in Delivery(u)
      ensures Genuine(u, log + [e], x)
    {
      if x in Delivery(v) {
        GenuineLater(v, u, log, e, x);
      }
    }
  }

  lemma OfferedProgress(v: View, log: seq<Envelope>, e: Envelope)
    requires IsLog(log + [e]) && e.number == |log| + 1 && Honest(v, log) && !v.closed && Lossy(e)
    ensures Honest(Offered(v, e), log + [e])
  {
    var kept, u := Coalesced(v.items), Offered(v, e);
    assert (log + [e])[|log|] == e;
    CoalescedFacts(v.items);
    RisingSuffix(v.taken, v.items);
    RisingParts(v.taken, v.items, kept);
    assert forall x :: x in v.taken + kept ==> x in Delivery(v);
    assert Keeps(Delivery(v), v.taken + kept);
    if |kept| < v.capacity {
      RisingSnoc(v.taken + kept, e);
      assert v.taken + (kept + [e]) == v.taken + kept + [e];
    }
    GenuineAll(v, u, log, e);
    UnbrokenKept(v, u, log, e);
    if !v.detached {
      CompleteKept(v, u, log, e);
    }
  }

  lemma OfferedReliable(v: View, log: seq<Envelope>, e: Envelope)
    requires IsLog(log + [e]) && e.number == |log| + 1 && Honest(v, log) && !v.closed && !Lossy(e) && |v.items| < v.capacity
    ensures Honest(Offered(v, e), log + [e])
  {
    var u := Offered(v, e);
    assert (log + [e])[|log|] == e;
    RisingSnoc(Delivery(v), e);
    assert Delivery(u) == Delivery(v) + [e];
    GenuineAll(v, u, log, e);
    UnbrokenKept(v, u, log, e);
    if !v.detached {
      CompleteKept(v, u, log, e);
    }
  }

  lemma OfferedEjects(v: View, log: seq<Envelope>, e: Envelope)
    requires IsLog(log + [e]) && e.number == |log| + 1 && Honest(v, log) && !v.closed && !Lossy(e) && |v.items| >= v.capacity
    ensures Honest(Offered(v, e), log + [e])
  {
    var u := Offered(v, e);
    var low := LowestMissed(v.items, e.number);
    var gap := Envelope(e.number, Gap(low));
    assert (log + [e])[|log|] == e;
    RisingSuffix(v.taken, v.items);
    assert forall x :: x in v.taken ==> x in Delivery(v) && Genuine(v, log, x);
    RisingSnoc(v.taken, gap);
    assert Delivery(u) == v.taken + [gap];
    assert gap in Delivery(u);
    GenuineAll(v, u, log, e);
    if !v.detached {
      EjectedComplete(v, u, log, e, gap);
    }
  }

  lemma EjectedComplete(v: View, u: View, log: seq<Envelope>, e: Envelope, gap: Envelope)
    requires IsLog(log + [e]) && e.number == |log| + 1 && Complete(v, log) && u.requested == v.requested && Delivery(u) == v.taken + [gap]
    requires gap.body == Gap(LowestMissed(v.items, e.number))
    ensures Complete(u, log + [e])
  {
    assert gap in Delivery(u);
    LoggedGrows(log, e);
    forall x | Logged(log + [e], x) && !Lossy(x) && x.number >= u.requested
      ensures Accounted(Delivery(u), x)
    {
      if x == e {
        assert gap.body.first <= x.number;
      } else {
        assert Accounted(Delivery(v), x);
        assert log[x.number - 1] == x && (log + [e])[x.number - 1] == x;
        StillAccounted(v, Delivery(u), gap, e.number, x);
      }
    }
  }

  lemma StillAccounted(v: View, ys: seq<Envelope>, gap: Envelope, number: nat, x: Envelope)
    requires Accounted(Delivery(v), x) && !x.body.Gap?
    requires gap.body == Gap(LowestMissed(v.items, number)) && ys == v.taken + [gap]
    ensures Accounted(ys, x)
  {
    assert gap in ys;
    if x in v.taken {
      assert x in ys;
    } else if x !in v.items {
      var g :| g in Delivery(v) && g.body.Gap? && g.body.first <= x.number;
      if g in v.taken {
        assert g in ys;
      }
    }
  }

  /** Whatever is offered, an honest stream stays honest about the longer log. */
  lemma OfferKeepsHonest(v: View, log: seq<Envelope>, e: Envelope)
    requires IsLog(log + [e]) && e.number == |log| + 1 && Honest(v, log)
    ensures Honest(Offered(v, e), log + [e])
  {
    if v.closed {
      ClosedKeepsHonest(v, log, e);
    } else if Lossy(e) {
      OfferedProgress(v, log, e);
    } else if |v.items| < v.capacity {
      OfferedReliable(v, log, e);
    } else {
      OfferedEjects(v, log, e);
    }
  }

  /** A stream that is offered nothing any more stays honest: its Gap excuses whatever comes. */
  lemma ClosedKeepsHonest(v: View, log: seq<Envelope>, e: Envelope)
    requires IsLog(log + [e]) && e.number == |log| + 1 && Honest(v, log) && v.closed
    ensures Honest(v, log + [e])
  {
    assert (log + [e])[|log|] == e;
    GenuineAll(v, v, log, e);
    if !v.detached {
      var g :| g in Delivery(v) && g.body.Gap?;
      assert Genuine(v, log, g);
      assert g.body.first <= e.number;
      CompleteKept(v, v, log, e);
    }
  }

  function Next(v: View): View
    requires v.items != []
  {
    v.(items := v.items[1..], taken := v.taken + [v.items[0]])
  }

  lemma NextKeepsHonest(v: View, log: seq<Envelope>)
    requires Honest(v, log) && v.items != []
    ensures Honest(Next(v), log)
  {
    assert Delivery(Next(v)) == Delivery(v);
  }

  lemma DetachKeepsHonest(v: View, log: seq<Envelope>)
    requires Honest(v, log)
    ensures Honest(v.(closed := true, detached := true), log)
  {
    assert Delivery(v.(closed := true, detached := true)) == Delivery(v);
  }

  // --------------------------------------------------------------------------- replay

  /** The bounded replay: everything reliable after `evicted` is still there. */
  ghost predicate Replays(replay: seq<Envelope>, log: seq<Envelope>, evicted: nat, capacity: nat) {
    && Rising(replay) && OneProgress(replay) && |replay| <= capacity
    && (forall x :: x in replay ==> evicted < x.number && Logged(log, x))
    && (forall x :: Logged(log, x) && x.number > evicted && !Lossy(x) ==> x in replay)
  }

  function Recorded(replay: seq<Envelope>, e: Envelope, capacity: nat): seq<Envelope> {
    var kept := if Lossy(e) then Coalesced(replay) else replay;
    var grown := kept + [e];
    if |grown| > capacity then grown[1..] else grown
  }

  lemma CoalescedReplays(replay: seq<Envelope>, log: seq<Envelope>, evicted: nat, capacity: nat)
    requires Replays(replay, log, evicted, capacity)
    ensures Replays(Coalesced(replay), log, evicted, capacity)
    ensures forall x :: x in Coalesced(replay) ==> !Lossy(x)
  {
    CoalescedFacts(replay);
    var kept := Coalesced(replay);
    forall i | 0 <= i < |kept|
      ensures !Lossy(kept[i])
    {
      assert kept[i] in kept;
    }
  }

  lemma OneProgressSnoc(xs: seq<Envelope>, e: Envelope)
    requires OneProgress(xs) && (Lossy(e) ==> forall x :: x in xs ==> !Lossy(x))
    ensures OneProgress(xs + [e])
  {
    var ys := xs + [e];
    forall i, j | 0 <= i < j < |ys|
      ensures !(Lossy(ys[i]) && Lossy(ys[j]))
    {
      assert xs[i] in xs;
    }
  }

  lemma GrownReplays(kept: seq<Envelope>, log: seq<Envelope>, evicted: nat, capacity: nat, e: Envelope)
    requires Replays(kept, log, evicted, capacity) && e.number == |log| + 1 && evicted <= |log|
    requires Lossy(e) ==> forall x :: x in kept ==> !Lossy(x)
    ensures Replays(kept + [e], log + [e], evicted, capacity + 1)
  {
    LoggedGrows(log, e);
    assert forall x :: x in kept ==> Logged(log, x);
    RisingSnoc(kept, e);
    OneProgressSnoc(kept, e);
  }

  /** Recording an event keeps the replay true to the longer log. */
  lemma RecordKeepsReplay(replay: seq<Envelope>, log: seq<Envelope>, evicted: nat, capacity: nat, e: Envelope) returns (next: nat)
    requires Replays(replay, log, evicted, capacity) && e.number == |log| + 1 && evicted <= |log| && capacity >= 1
    ensures Replays(Recorded(replay, e, capacity), log + [e], next, capacity) && next <= |log|
  {
    CoalescedReplays(replay, log, evicted, capacity);
    var kept := if Lossy(e) then Coalesced(replay) else replay;
    GrownReplays(kept, log, evicted, capacity, e);
    next := evicted;
    if |kept + [e]| > capacity {
      next := (kept + [e])[0].number;
      assert (kept + [e])[0] in kept;
      EvictedFacts(kept + [e], log + [e], evicted, capacity);
    }
  }

  /** The replay takes the new event and lets go of no more than it must: an older Progress for a newer one,
      and of the rest only the oldest, when it is full. */
  lemma ReplayIsFullest(replay: seq<Envelope>, e: Envelope, capacity: nat, x: Envelope)
    requires capacity >= 1 && |replay| <= capacity && Rising(replay) && OneProgress(replay) && (forall y :: y in replay ==> y.number < e.number)
    ensures var next := Recorded(replay, e, capacity);
            && next != [] && next[|next| - 1] == e && |next| <= capacity
            && (x in replay && x !in next ==>
                  (Lossy(x) && Lossy(e)) || (|next| == capacity && forall y :: y in next ==> x.number < y.number))
  {
    CoalescedFacts(replay);
    var kept := if Lossy(e) then Coalesced(replay) else replay;
    var grown, next := kept + [e], Recorded(replay, e, capacity);
    if x in kept {
      var i :| 0 <= i < |kept| && kept[i] == x;
      assert grown[i] == x;
      if i > 0 || next == grown {
        assert x in next;
      } else {
        forall y | y in next
          ensures x.number < y.number
        {
          var j :| 0 <= j < |next| && next[j] == y;
          assert grown[j + 1] == y;
        }
      }
    }
  }

  lemma EvictedFacts(grown: seq<Envelope>, log: seq<Envelope>, evicted: nat, capacity: nat)
    requires Replays(grown, log, evicted, capacity + 1) && grown != []
    ensures Replays(grown[1..], log, grown[0].number, capacity)
  {
    forall x | x in grown[1..]
      ensures grown[0].number < x.number
    {
      var i :| 0 <= i < |grown[1..]| && grown[1..][i] == x;
      assert grown[i + 1] == x;
    }
    forall x | x in grown && x.number > grown[0].number
      ensures x in grown[1..]
    {
      var i :| 0 <= i < |grown| && grown[i] == x;
      assert i > 0 && grown[1..][i - 1] == x;
    }
  }

  /** Envelopes from a requested number on. */
  function Since(xs: seq<Envelope>, requested: nat): (r: seq<Envelope>)
    ensures forall x :: x in r <==> x in xs && x.number >= requested
    ensures |r| <= |xs|
  {
    if xs == [] then []
    else
      var n := |xs| - 1;
      assert xs == xs[..n] + [xs[n]];
      Since(xs[..n], requested) + (if xs[n].number >= requested then [xs[n]] else [])
  }

  lemma {:induction false} SinceRising(xs: seq<Envelope>, requested: nat)
    requires Rising(xs) && OneProgress(xs)
    ensures Rising(Since(xs, requested)) && OneProgress(Since(xs, requested))
  {
    if xs != [] {
      var n := |xs| - 1;
      SinceRising(xs[..n], requested);
      BelowLast(xs);
      OnlyLastProgress(xs);
      RisingSnoc(Since(xs[..n], requested), xs[n]);
      OneProgressSnoc(Since(xs[..n], requested), xs[n]);
    }
  }

  lemma OnlyLastProgress(xs: seq<Envelope>)
    requires OneProgress(xs) && xs != []
    ensures Lossy(xs[|xs| - 1]) ==> forall x :: x in xs[..|xs| - 1] ==> !Lossy(x)
  {
  }

  /** Events a subscriber asked for are no longer in the replay. */
  predicate Gapped(selected: seq<Envelope>, count: nat, requested: nat) {
    count >= requested && (selected == [] || selected[0].number > requested)
  }

  /** How many of the selected events do not fit. */
  function Excess(selected: seq<Envelope>, count: nat, requested: nat, capacity: nat): nat
    requires capacity >= 1
  {
    var allowance := if Gapped(selected, count, requested) then capacity - 1 else capacity;
    if |selected| > allowance then |selected| - allowance else 0
  }

  function Prefaced(gap: bool, requested: nat, tail: seq<Envelope>): seq<Envelope> {
    if gap then [Envelope(requested, Gap(requested))] + tail else tail
  }

  /** What a new subscriber starts with: the last events that fit, and a Gap if any are missing. */
  function Initial(replay: seq<Envelope>, count: nat, requested: nat, capacity: nat): seq<Envelope>
    requires capacity >= 1
  {
    var selected := Since(replay, requested);
    var k := Excess(selected, count, requested, capacity);
    Prefaced(Gapped(selected, count, requested) || k > 0, requested, selected[k..])
  }

  /** From which number on a new subscriber misses nothing. */
  function Retained(replay: seq<Envelope>, count: nat, requested: nat, capacity: nat): nat
    requires capacity >= 1
  {
    var selected := Since(replay, requested);
    var k := Excess(selected, count, requested, capacity);
    if !Gapped(selected, count, requested) && k == 0 then requested
    else if k < |selected| then selected[k].number
    else count + 1
  }

  function Opened(replay: seq<Envelope>, count: nat, requested: nat, capacity: nat, state: SessionState): View
    requires capacity >= 1
  {
    View(capacity, Initial(replay, count, requested, capacity), false, false, state, requested, Retained(replay, count, requested, capacity), [], false)
  }

  lemma RisingDrop(xs: seq<Envelope>, k: nat)
    requires Rising(xs) && OneProgress(xs) && k <= |xs|
    ensures Rising(xs[k..]) && OneProgress(xs[k..])
  {
  }

  lemma RisingCons(e: Envelope, xs: seq<Envelope>)
    requires Rising(xs) && OneProgress(xs) && !Lossy(e) && forall x :: x in xs ==> e.number < x.number
    ensures Rising([e] + xs) && OneProgress([e] + xs)
  {
    var ys := [e] + xs;
    forall i, j | 0 <= i < j < |ys|
      ensures ys[i].number < ys[j].number && !(Lossy(ys[i]) && Lossy(ys[j]))
    {
      assert xs[j - 1] in xs;
    }
  }

  /** Without a Gap at the start, nothing reliable is missing. */
  lemma UngappedIsComplete(replay: seq<Envelope>, log: seq<Envelope>, evicted: nat, capacity: nat, requested: nat)
    requires IsLog(log) && Replays(replay, log, evicted, capacity)
    requires !Gapped(Since(replay, requested), |log|, requested)
    ensures forall x :: Logged(log, x) && !Lossy(x) && x.number >= requested ==> x in Since(replay, requested)
  {
    var selected := Since(replay, requested);
    forall x | Logged(log, x) && !Lossy(x) && x.number >= requested
      ensures x in selected
    {
      assert selected[0] in selected;
      assert evicted < requested;
    }
  }

  ghost predicate Trimmed(tail: seq<Envelope>, log: seq<Envelope>, requested: nat, capacity: nat) {
    && |tail| <= capacity && Rising(tail) && OneProgress(tail)
    && forall x :: x in tail ==> requested <= x.number && Logged(log, x)
  }

  lemma TrimmedFacts(selected: seq<Envelope>, log: seq<Envelope>, requested: nat, capacity: nat)
    requires Trimmed(selected, log, requested, |selected|) && capacity >= 1
    ensures var k := Excess(selected, |log|, requested, capacity);
            && Trimmed(selected[k..], log, requested, capacity)
            && (Gapped(selected, |log|, requested) || k > 0 ==> (forall x :: x in selected[k..] ==> requested < x.number))
            && (k > 0 ==> requested <= |log|)
  {
    var k := Excess(selected, |log|, requested, capacity);
    RisingDrop(selected, k);
    assert k > 0 ==> selected[0] in selected;
    forall x | x in selected[k..]
      ensures x in selected && (selected[0].number > requested || k > 0 ==> requested < x.number)
    {
      var i :| 0 <= i < |selected[k..]| && selected[k..][i] == x;
      assert selected[k + i] == x && selected[0] in selected;
    }
  }

  lemma SelectedFacts(replay: seq<Envelope>, log: seq<Envelope>, evicted: nat, kept: nat, requested: nat)
    requires Replays(replay, log, evicted, kept)
    ensures Trimmed(Since(replay, requested), log, requested, |Since(replay, requested)|)
  {
    SinceRising(replay, requested);
  }

  /** From the first event that was kept on, none is missing. */
  lemma TailIsUnbroken(replay: seq<Envelope>, log: seq<Envelope>, evicted: nat, kept: nat, requested: nat, k: nat)
    requires Replays(replay, log, evicted, kept) && k <= |Since(replay, requested)|
    ensures var selected := Since(replay, requested);
            forall x :: Logged(log, x) && !Lossy(x) && x.number >= (if k < |selected| then selected[k].number else |log| + 1) ==> x in selected[k..]
  {
    var selected := Since(replay, requested);
    SinceRising(replay, requested);
    forall x | Logged(log, x) && !Lossy(x) && k < |selected| && x.number >= selected[k].number
      ensures x in selected[k..]
    {
      assert selected[k] in selected;
      assert x in selected;
      var i :| 0 <= i < |selected| && selected[i] == x;
      assert selected[k..][i - k] == x;
    }
  }

  lemma GappedIsHonest(v: View, log: seq<Envelope>, tail: seq<Envelope>)
    requires IsLog(log) && v.items == Prefaced(true, v.requested, tail) && v.taken == [] && !v.closed && !v.ejected && v.capacity >= 1
    requires |tail| <= v.capacity && Rising(tail) && OneProgress(tail) && 1 <= v.requested <= |log|
    requires forall x :: x in tail ==> v.requested < x.number && Logged(log, x)
    requires forall x :: Logged(log, x) && !Lossy(x) && x.number >= v.retained ==> x in tail
    ensures Honest(v, log)
  {
    var gap := v.items[0];
    assert Delivery(v) == v.items;
    RisingCons(gap, tail);
    assert gap in Delivery(v);
    forall x | Logged(log, x) && !Lossy(x) && x.number >= v.requested
      ensures Accounted(Delivery(v), x)
    {
      assert Excused(Delivery(v), x.number);
    }
  }

  lemma UngappedIsHonest(v: View, log: seq<Envelope>)
    requires v.taken == [] && !v.closed && !v.ejected && v.capacity >= 1
    requires |v.items| <= v.capacity && Rising(v.items) && OneProgress(v.items)
    requires forall x :: x in v.items ==> Logged(log, x)
    requires v.retained == v.requested && forall x :: Logged(log, x) && !Lossy(x) && x.number >= v.requested ==> x in v.items
    requires IsLog(log)
    ensures Honest(v, log)
  {
    assert Delivery(v) == v.items;
  }

  /** A new stream starts with as many of the events asked for as fit, the latest ones, after a Gap if any
      are missing. */
  lemma OpenedIsFullest(replay: seq<Envelope>, count: nat, requested: nat, capacity: nat, state: SessionState) returns (k: nat)
    requires capacity >= 1
    ensures var wanted := Since(replay, requested);
            var missing := count >= requested && (wanted == [] || wanted[0].number > requested);
            var room := if missing then capacity - 1 else capacity;
            && k <= |wanted| && (if |wanted| <= room then k == 0 else |wanted| - k == room)
            && Opened(replay, count, requested, capacity, state).items ==
               (if missing || k > 0 then [Envelope(requested, Gap(requested))] else []) + wanted[k..]
  {
    k := Excess(Since(replay, requested), count, requested, capacity);
  }

  /** A new stream is honest from the start. */
  lemma OpenedIsHonest(replay: seq<Envelope>, log: seq<Envelope>, evicted: nat, kept: nat, requested: nat, capacity: nat, state: SessionState)
    requires IsLog(log) && Replays(replay, log, evicted, kept) && capacity >= 1 && requested >= 1
    ensures Honest(Opened(replay, |log|, requested, capacity, state), log)
  {
    var v := Opened(replay, |log|, requested, capacity, state);
    var selected := Since(replay, requested);
    var k := Excess(selected, |log|, requested, capacity);
    SelectedFacts(replay, log, evicted, kept, requested);
    TrimmedFacts(selected, log, requested, capacity);
    if Gapped(selected, |log|, requested) || k > 0 {
      TailIsUnbroken(replay, log, evicted, kept, requested, k);
      GappedIsHonest(v, log, selected[k..]);
    } else {
      assert selected[0..] == selected;
      UngappedIsComplete(replay, log, evicted, kept, requested);
      UngappedIsHonest(v, log);
    }
  }

  // ------------------------------------------------------- agreement with the unbounded log

  /** The reliable events from a requested number on. */
  function Reliable(xs: seq<Envelope>, requested: nat): (r: seq<Envelope>)
    ensures forall x :: x in r <==> x in xs && x.number >= requested && !Lossy(x) && !x.body.Gap?
  {
    if xs == [] then []
    else
      var n := |xs| - 1;
      assert xs == xs[..n] + [xs[n]];
      Reliable(xs[..n], requested) + (if xs[n].number >= requested && !Lossy(xs[n]) && !xs[n].body.Gap? then [xs[n]] else [])
  }

  lemma BelowLast(xs: seq<Envelope>)
    requires Rising(xs) && xs != []
    ensures Rising(xs[..|xs| - 1]) && forall x :: x in xs[..|xs| - 1] ==> x.number < xs[|xs| - 1].number
  {
    forall x | x in xs[..|xs| - 1]
      ensures x.number < xs[|xs| - 1].number
    {
      var i :| 0 <= i < |xs| - 1 && xs[i] == x;
    }
  }

  lemma {:induction false} ReliableRising(xs: seq<Envelope>, requested: nat)
    requires Rising(xs)
    ensures Rising(Reliable(xs, requested))
  {
    if xs != [] {
      var n := |xs| - 1;
      assert xs == xs[..n] + [xs[n]];
      ReliableRising(xs[..n], requested);
      BelowLast(xs);
      RisingSnoc(Reliable(xs[..n], requested), xs[n]);
    }
  }

  lemma LastIsGreatest(xs: seq<Envelope>, x: Envelope)
    requires Rising(xs) && x in xs
    ensures xs != [] && x.number <= xs[|xs| - 1].number && (x.number == xs[|xs| - 1].number ==> x == xs[|xs| - 1])
  {
  }

  lemma WithoutLast(xs: seq<Envelope>, x: Envelope)
    requires Rising(xs) && xs != []
    ensures x in xs[..|xs| - 1] <==> x in xs && x != xs[|xs| - 1]
  {
    assert xs == xs[..|xs| - 1] + [xs[|xs| - 1]];
  }

  lemma NoMembers(xs: seq<Envelope>)
    ensures xs == [] || exists x :: x in xs
  {
    if xs != [] {
      assert xs[0] in xs;
    }
  }

  /** Rising sequences with the same members are equal. */
  lemma {:induction false} RisingUnique(xs: seq<Envelope>, ys: seq<Envelope>)
    requires Rising(xs) && Rising(ys) && forall x :: x in xs <==> x in ys
    ensures xs == ys
  {
    NoMembers(ys);
    if xs != [] {
      var a := xs[|xs| - 1];
      assert a in xs;
      LastIsGreatest(ys, a);
      var b := ys[|ys| - 1];
      assert b in ys;
      LastIsGreatest(xs, b);
      var front, rest := xs[..|xs| - 1], ys[..|ys| - 1];
      forall x: Envelope
        ensures x in front <==> x in rest
      {
        WithoutLast(xs, x);
        WithoutLast(ys, x);
      }
      RisingUnique(front, rest);
      assert xs == front + [a] && ys == rest + [b];
    }
  }

  lemma LogRises(log: seq<Envelope>)
    requires IsLog(log)
    ensures Rising(log)
  {
  }

  lemma SameReliable(v: View, log: seq<Envelope>, x: Envelope)
    requires IsLog(log) && Honest(v, log) && !v.detached && forall y :: y in Delivery(v) ==> !y.body.Gap?
    ensures x in Reliable(Delivery(v), v.requested) <==> x in Reliable(log, v.requested)
  {
    if x in Reliable(log, v.requested) {
      var i :| 0 <= i < |log| && log[i] == x;
      assert Logged(log, x);
      assert Accounted(Delivery(v), x);
    }
    if x in Reliable(Delivery(v), v.requested) {
      assert Genuine(v, log, x);
    }
  }

  /** A subscriber that has seen no Gap has, together with what still waits for it, exactly the
      reliable events of the unbounded log from its requested number on, in order. */
  lemma StreamIsTheLog(v: View, log: seq<Envelope>)
    requires IsLog(log) && Honest(v, log) && !v.detached && forall x :: x in Delivery(v) ==> !x.body.Gap?
    ensures Reliable(Delivery(v), v.requested) == Reliable(log, v.requested)
  {
    LogRises(log);
    ReliableRising(log, v.requested);
    ReliableRising(Delivery(v), v.requested);
    forall x
      ensures x in Reliable(Delivery(v), v.requested) <==> x in Reliable(log, v.requested)
    {
      SameReliable(v, log, x);
    }
    RisingUnique(Reliable(Delivery(v), v.requested), Reliable(log, v.requested));
  }

  // --------------------------------------------------------- subscribing from a future number

  /** What happens to a stream: an event is emitted, or its owner reads. */
  datatype Moment = Emitted(body: Body) | Taken

  function CountAfter(count: nat, moments: seq<Moment>): (n: nat)
    ensures n >= count
  {
    if moments == [] then count
    else CountAfter(count, moments[..|moments| - 1]) + (if moments[|moments| - 1].Emitted? then 1 else 0)
  }

  /** A stream after any sequence of offers and reads, with events numbered on from `count`. */
  function Evolved(v: View, count: nat, moments: seq<Moment>): View {
    if moments == [] then v
    else
      var front := moments[..|moments| - 1];
      var u := Evolved(v, count, front);
      match moments[|moments| - 1]
      case Emitted(body) => Offered(u, Envelope(CountAfter(count, front) + 1, body))
      case Taken => if u.items == [] then u else Next(u)
  }

  /** An envelope is about nothing below the requested number. */
  predicate AtOrAbove(x: Envelope, requested: nat) {
    x.number >= requested && (x.body.Gap? ==> x.body.first >= requested)
  }

  ghost predicate AllAtOrAbove(xs: seq<Envelope>, requested: nat) {
    forall x :: x in xs ==> AtOrAbove(x, requested)
  }

  lemma {:induction false} MissedAtOrAbove(xs: seq<Envelope>, number: nat, requested: nat)
    requires AllAtOrAbove(xs, requested) && number >= requested
    ensures LowestMissed(xs, number) >= requested
  {
    if xs != [] {
      var n := |xs| - 1;
      assert xs[n] in xs;
      MissedAtOrAbove(xs[..n], number, requested);
    }
  }

  lemma OfferedAtOrAbove(v: View, e: Envelope, requested: nat)
    requires AllAtOrAbove(Delivery(v), requested) && AtOrAbove(e, requested)
    ensures AllAtOrAbove(Delivery(Offered(v, e)), requested)
  {
    CoalescedFacts(v.items);
    MissedAtOrAbove(v.items, e.number, requested);
  }

  /** Emitted events carry no Gap. */
  ghost predicate Genuinely(moments: seq<Moment>) {
    forall m :: m in moments && m.Emitted? ==> !m.body.Gap?
  }

  lemma {:induction false} EvolvedAtOrAbove(v: View, count: nat, moments: seq<Moment>, requested: nat)
    requires AllAtOrAbove(Delivery(v), requested) && requested <= count + 1 && Genuinely(moments)
    ensures AllAtOrAbove(Delivery(Evolved(v, count, moments)), requested)
  {
    if moments != [] {
      var n := |moments| - 1;
      var u := Evolved(v, count, moments[..n]);
      EvolvedAtOrAbove(v, count, moments[..n], requested);
      assert moments[n] in moments;
      if moments[n].Emitted? {
        OfferedAtOrAbove(u, Envelope(CountAfter(count, moments[..n]) + 1, moments[n].body), requested);
      } else if u.items != [] {
        assert Delivery(Next(u)) == Delivery(u);
      }
    }
  }

  /** Whatever is emitted and read later, the stream is about nothing below the requested number. */
  ghost predicate Filters(v: View, count: nat) {
    forall moments :: Genuinely(moments) ==> AllAtOrAbove(Delivery(Evolved(v, count, moments)), v.requested)
  }

  lemma OpenedAtOrAbove(replay: seq<Envelope>, count: nat, requested: nat, capacity: nat, state: SessionState)
    requires capacity >= 1 && forall x :: x in replay ==> !x.body.Gap?
    ensures AllAtOrAbove(Delivery(Opened(replay, count, requested, capacity, state)), requested)
  {
  }

  /** A stream subscribed from beyond the next number starts empty and takes whatever comes. */
  lemma FutureIsLeaked(replay: seq<Envelope>, log: seq<Envelope>, evicted: nat, kept: nat, requested: nat, capacity: nat, state: SessionState)
    requires IsLog(log) && Replays(replay, log, evicted, kept) && capacity >= 1 && requested > |log| + 1
    ensures !Filters(Opened(replay, |log|, requested, capacity, state), |log|)
  {
    var v := Opened(replay, |log|, requested, capacity, state);
    NoMembers(Since(replay, requested));
    assert v.items == [];
    var e, moments := Envelope(|log| + 1, Terminal), [Emitted(Terminal)];
    assert moments[..0] == [];
    assert Evolved(v, |log|, moments) == Offered(v, e);
    assert Delivery(Offered(v, e)) == [e];
    assert e in Delivery(Evolved(v, |log|, moments));
    assert Genuinely(moments);
  }

  /** A subscription keeps to the requested number, over everything that may be emitted and read later, if
      and only if that number is not beyond the next one. */
  lemma SubscriptionFiltersExactly(replay: seq<Envelope>, log: seq<Envelope>, evicted: nat, kept: nat, requested: nat, capacity: nat,
                                   state: SessionState)
    requires IsLog(log) && Replays(replay, log, evicted, kept) && capacity >= 1 && requested >= 1
    ensures Filters(Opened(replay, |log|, requested, capacity, state), |log|) <==> requested <= |log| + 1
  {
    var v := Opened(replay, |log|, requested, capacity, state);
    if requested <= |log| + 1 {
      OpenedAtOrAbove(replay, |log|, requested, capacity, state);
      forall moments | Genuinely(moments)
        ensures AllAtOrAbove(Delivery(Evolved(v, |log|, moments)), requested)
      {
        EvolvedAtOrAbove(v, |log|, moments, requested);
      }
    } else {
      FutureIsLeaked(replay, log, evicted, kept, requested, capacity, state);
    }
  }

  /** Asked for from number five on while nothing was emitted yet: event one is delivered. */
  lemma FirstEventReachesFifth(capacity: nat, state: SessionState)
    requires capacity >= 1
    ensures Envelope(1, Terminal) in Delivery(Evolved(Opened([], 0, 5, capacity, state), 0, [Emitted(Terminal)]))
  {
    var v := Opened([], 0, 5, capacity, state);
    var moments := [Emitted(Terminal)];
    assert moments[..0] == [];
    assert Evolved(v, 0, moments) == Offered(v, Envelope(1, Terminal));
  }

  // --------------------------------------------------------------------------- classes

  class EventStream {
    const capacity: nat
    var items: seq<Envelope>
    var closed: bool
    var ejected: bool
    var state: SessionState
    ghost const requested: nat
    ghost const retained: nat
    ghost var taken: seq<Envelope>
    ghost var detached: bool

    ghost function Shown(): View
      reads this
    {
      View(capacity, items, closed, ejected, state, requested, retained, taken, detached)
    }

    constructor (capacity: nat, state: SessionState, initial: seq<Envelope>, ghost requested: nat, ghost retained: nat)
      requires capacity >= 1
      ensures Shown() == View(capacity, initial, false, false, state, requested, retained, [], false)
    {
      this.capacity, this.items, this.state, this.requested, this.retained := capacity, initial, state, requested, retained;
      closed, ejected, taken, detached := false, false, [], false;
    }

    method Offer(e: Envelope)
      modifies this
      ensures Shown() == Offered(old(Shown()), e)
    {
      if closed {
        return;
      }
      if Lossy(e) {
        items := RemoveLastProgress(items);
        if |items| >= capacity {
          return;
        }
        items := items + [e];
        return;
      }
      if |items| >= capacity {
        var low := e.number;
        for i := 0 to |items|
          invariant low == LowestMissed(items[..i], e.number)
        {
          assert items[..i + 1][..i] == items[..i];
          var m := if items[i].body.Gap? then items[i].body.first else items[i].number;
          if m < low {
            low := m;
          }
        }
        assert items[..|items|] == items;
        items, ejected, closed := [Envelope(e.number, Gap(low))], true, true;
        return;
      }
      items := items + [e];
      if e.body.StateChanged? {
        state := e.body.state;
      }
    }

    /** Read the next envelope, if one waits. */
    method Read() returns (e: Option<Envelope>)
      modifies this
      ensures e.None? <==> old(items) == []
      ensures e.None? ==> Shown() == old(Shown())
      ensures e.Some? ==> e.value == old(items)[0] && Shown() == Next(old(Shown()))
    {
      if items == [] {
        return None;
      }
      e := Some(items[0]);
      taken, items := taken + [items[0]], items[1..];
    }

    method Close()
      modifies this
      ensures Shown() == old(Shown()).(closed := true, detached := true)
    {
      closed, detached := true, true;
    }
  }

  class EventHub {
    const replayCapacity: nat
    const subscriberCapacity: nat
    var replay: seq<Envelope>
    var subscribers: seq<EventStream>
    var count: nat
    var state: SessionState
    ghost var log: seq<Envelope>
    ghost var evicted: nat
    ghost var streams: set<EventStream>

    ghost predicate Sequenced()
      reads this
    {
      && IsLog(log) && count == |log| && evicted <= count
      && replayCapacity >= 1 && subscriberCapacity >= 1
      && Replays(replay, log, evicted, replayCapacity)
    }

    /** Every stream ever handed out is honest; those not offered to any more are closed. */
    ghost predicate Valid()
      reads this, streams
    {
      Sequenced() && Tended(subscribers, streams, log)
    }

    static ghost predicate Tended(subscribers: seq<EventStream>, streams: set<EventStream>, log: seq<Envelope>)
      reads streams
    {
      && (forall i, j :: 0 <= i < j < |subscribers| ==> subscribers[i] != subscribers[j])
      && (forall s :: s in subscribers ==> s in streams)
      && (forall s :: s in streams ==> Honest(s.Shown(), log) && (s in subscribers || s.closed))
    }

    constructor (state: SessionState, replayCapacity: nat, subscriberCapacity: nat)
      requires replayCapacity >= 1 && subscriberCapacity >= 1
      ensures Valid() && log == [] && streams == {}
    {
      this.state, this.replayCapacity, this.subscriberCapacity := state, replayCapacity, subscriberCapacity;
      replay, subscribers, count, log, evicted, streams := [], [], 0, [], 0, {};
    }

    method Emit(body: Body) returns (e: Envelope)
      requires Valid() && !body.Gap?
      modifies this, streams
      ensures Valid() && streams == old(streams)
      ensures e == Envelope(old(count) + 1, body) && log == old(log) + [e]
      ensures state == if body.StateChanged? then body.state else old(state)
      ensures forall s :: s in streams ==> s.Shown() == if s in old(subscribers) then Offered(old(s.Shown()), e) else old(s.Shown())
    {
      ghost var before := log;
      e := Sequence(body);
      FanOut(e, before);
    }

    /** Number an event, log it and keep it for replay. */
    method Sequence(body: Body) returns (e: Envelope)
      requires Sequenced() && !body.Gap?
      modifies this`count, this`state, this`replay, this`evicted, this`log
      ensures Sequenced() && e == Envelope(old(count) + 1, body) && log == old(log) + [e]
      ensures state == if body.StateChanged? then body.state else old(state)
    {
      count := count + 1;
      e := Envelope(count, body);
      LogGrows(log, e);
      if body.StateChanged? {
        state := body.state;
      }
      Record(e);
      log := log + [e];
    }

    /** Append to the bounded replay. */
    method Record(e: Envelope)
      requires replayCapacity >= 1 && Replays(replay, log, evicted, replayCapacity) && e.number == |log| + 1 && evicted <= |log|
      modifies this`replay, this`evicted
      ensures replay == Recorded(old(replay), e, replayCapacity)
      ensures Replays(replay, log + [e], evicted, replayCapacity) && evicted <= |log|
    {
      evicted := RecordKeepsReplay(replay, log, evicted, replayCapacity, e);
      if Lossy(e) {
        replay := RemoveLastProgress(replay);
      }
      replay := replay + [e];
      if |replay| > replayCapacity {
        replay := replay[1..];
      }
    }

    /** Offer to every subscriber and drop the ejected ones. */
    method FanOut(e: Envelope, ghost before: seq<Envelope>)
      requires IsLog(before + [e]) && e.number == |before| + 1 && Tended(subscribers, streams, before)
      modifies this`subscribers, streams
      ensures Tended(subscribers, streams, before + [e])
      ensures forall s :: s in streams ==> s.Shown() == if s in old(subscribers) then Offered(old(s.Shown()), e) else old(s.Shown())
    {
      var all := subscribers;
      var live: seq<EventStream> := [];
      for k := 0 to |all|
        invariant forall s :: s in live ==> s in all[..k]
        invariant forall i, j :: 0 <= i < j < |live| ==> live[i] != live[j]
        invariant forall s :: s in streams ==> s.Shown() == if s in all[..k] then Offered(old(s.Shown()), e) else old(s.Shown())
        invariant forall s :: s in all[..k] ==> s in live || s.closed
      {
        var s := all[k];
        assert all[..k + 1] == all[..k] + [s] && s !in all[..k];
        s.Offer(e);
        if !s.ejected {
          live := live + [s];
        }
      }
      assert all[..|all|] == all;
      subscribers := live;
      forall s | s in streams
        ensures Honest(s.Shown(), before + [e]) && (s in subscribers || s.closed)
      {
        if s in all {
          OfferKeepsHonest(old(s.Shown()), before, e);
        } else {
          ClosedKeepsHonest(old(s.Shown()), before, e);
        }
      }
    }

    method Subscribe(from: nat) returns (s: EventStream)
      requires Valid() && from >= 1
      modifies this`subscribers, this`streams
      ensures Valid() && fresh(s) && streams == old(streams) + {s} && s in subscribers
      ensures s.Shown() == Opened(replay, count, from, subscriberCapacity, state)
    {
      var initial := Initial(replay, count, from, subscriberCapacity);
      s := new EventStream(subscriberCapacity, state, initial, from, Retained(replay, count, from, subscriberCapacity));
      OpenedIsHonest(replay, log, evicted, replayCapacity, from, subscriberCapacity, state);
      subscribers, streams := subscribers + [s], streams + {s};
    }

    /** A subscriber reads from its stream. */
    method ReadFrom(s: EventStream) returns (e: Option<Envelope>)
      requires Valid() && s in streams
      modifies s
      ensures Valid() && (e.Some? ==> old(s.items) != [] && e.value == old(s.items)[0] && s.Shown() == Next(old(s.Shown())))
      ensures e.None? ==> s.Shown() == old(s.Shown()) && s.items == []
    {
      if s.items != [] {
        NextKeepsHonest(s.Shown(), log);
      }
      e := s.Read();
    }

    /** A subscriber closes its stream. */
    method Leave(s: EventStream)
      requires Valid() && s in streams
      modifies s
      ensures Valid() && s.Shown() == old(s.Shown()).(closed := true, detached := true)
    {
      DetachKeepsHonest(s.Shown(), log);
      s.Close();
    }
  }
}
