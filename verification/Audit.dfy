/** The audit pump: a bounded queue between the event hub and a recording observer, with the hub, the
    finalizing worker, a closer and the pump's own thread taking steps in any order. */
module Audit {
  import opened Paths
  import opened EventBus

  datatype Command = Event(e: Envelope) | Finalize | Stop

  /** The pump's thread: waiting, holding a command, calling the observer, or gone. */
  datatype Consumer = Idle | Got(c: Command) | Calling(c: Command) | Exited

  /** The worker that finalizes. */
  datatype Caller = NotCalled | Queueing | Waiting | Answered(ok: bool)

  /** `received`, `finalized` and `closed` are what the observer accepted without error; `returned` are
      all events whose offer has returned; `due` are those returned when the finalize command was queued. */
  datatype Pump = Pump(
    capacity: nat,
    queue: seq<Command>,
    degraded: bool,
    consumer: Consumer,
    caller: Caller,
    offering: Option<Envelope>,
    succeeded: bool,
    complete: bool,
    received: seq<Envelope>,
    finalized: bool,
    closed: bool,
    returned: seq<Envelope>,
    due: Option<seq<Envelope>>)

  function Started(capacity: nat): Pump {
    Pump(capacity, [], false, Idle, NotCalled, None, false, false, [], false, false, [], None)
  }

  datatype Action =
    | OfferStart(e: Envelope) | OfferPut | OfferFull
    | FinalizeStart | FinalizePut | FinalizeFull | FinalizeTimeout | FinalizeAnswer
    | StopPut | StopFull
    | Get | Look(closes: bool) | Deliver(ok: bool) | Conclude(ok: bool)

  predicate HasRoom(p: Pump) {
    |p.queue| < p.capacity
  }

  /** One atomic step; a step that is not possible leaves the pump as it is. */
  function Step(p: Pump, a: Action): Pump {
    match a
    case OfferStart(e) =>
      if p.offering.Some? then p
      else if p.degraded then p.(returned := p.returned + [e])
      else p.(offering := Some(e))
    case OfferPut =>
      if p.offering.None? || !HasRoom(p) then p
      else p.(queue := p.queue + [Event(p.offering.value)], offering := None, returned := p.returned + [p.offering.value])
    case OfferFull =>
      if p.offering.None? || HasRoom(p) then p
      else p.(degraded := true, offering := None, returned := p.returned + [p.offering.value])
    case FinalizeStart =>
      if p.caller != NotCalled then p
      else if p.degraded then p.(queue := if HasRoom(p) then p.queue + [Stop] else p.queue, caller := Answered(false))
      else p.(caller := Queueing)
    case FinalizePut =>
      if p.caller != Queueing || !HasRoom(p) then p
      else p.(queue := p.queue + [Finalize], due := Some(p.returned), caller := Waiting)
    case FinalizeFull =>
      if p.caller != Queueing || HasRoom(p) then p else p.(degraded := true, caller := Answered(false))
    case FinalizeTimeout =>
      if p.caller != Waiting then p else p.(degraded := true, caller := Answered(false))
    case FinalizeAnswer =>
      if p.caller != Waiting || !p.complete then p else p.(caller := Answered(p.succeeded && !p.degraded))
    case StopPut => if HasRoom(p) then p.(queue := p.queue + [Stop]) else p
    case StopFull => if HasRoom(p) then p else p.(degraded := true)
    case Get =>
      if p.consumer != Idle || p.queue == [] then p else p.(consumer := Got(p.queue[0]), queue := p.queue[1..])
    case Look(closes) => Looked(p, closes)
    case Deliver(ok) =>
      if !p.consumer.Calling? || !p.consumer.c.Event? then p
      else if ok then p.(received := p.received + [p.consumer.c.e], consumer := Idle)
      else p.(degraded := true, consumer := Idle)
    case Conclude(ok) =>
      if p.consumer != Calling(Finalize) then p
      else if ok then p.(finalized := true, closed := true, succeeded := true, complete := true, consumer := Exited)
      else p.(degraded := true, complete := true, consumer := Exited)
  }

  /** The thread looks at the command it took, and at whether recording is degraded. */
  function Looked(p: Pump, closes: bool): Pump {
    if !p.consumer.Got? then p
    else match p.consumer.c
      case Stop => if closes then p.(closed := true, consumer := Exited) else p.(degraded := true, consumer := Exited)
      case Finalize => if p.degraded then p.(complete := true, consumer := Exited) else p.(consumer := Calling(Finalize))
      case Event(_) => if p.degraded then p.(consumer := Idle) else p.(consumer := Calling(p.consumer.c))
  }

  function Run(p: Pump, actions: seq<Action>): Pump {
    if actions == [] then p else Step(Run(p, actions[..|actions| - 1]), actions[|actions| - 1])
  }

  // -------------------------------------------------------------------------- invariant

  /** The events queued ahead of the finalize command. */
  function Ahead(queue: seq<Command>): seq<Envelope> {
    if queue == [] || queue[0] == Finalize then []
    else (if queue[0].Event? then [queue[0].e] else []) + Ahead(queue[1..])
  }

  function InHand(c: Consumer): seq<Envelope> {
    if (c.Got? || c.Calling?) && c.c.Event? then [c.c.e] else []
  }

  predicate AtFinalize(c: Consumer) {
    (c.Got? || c.Calling?) && c.c == Finalize
  }

  /** What the observer has, is about to get and will get before it is finalized. */
  function Course(p: Pump): seq<Envelope> {
    p.received + InHand(p.consumer) + Ahead(p.queue)
  }

  function Owed(p: Pump): seq<Envelope> {
    if p.due.Some? then p.due.value else p.returned
  }

  predicate Sound(p: Pump) {
    && (p.due.None? ==> Finalize !in p.queue && !AtFinalize(p.consumer) && p.caller in {NotCalled, Queueing, Answered(false)})
    && (p.due.Some? ==> (Finalize in p.queue || AtFinalize(p.consumer) || p.consumer == Exited) && !p.caller.NotCalled? && !p.caller.Queueing?)
    && (Finalize in p.queue ==> !AtFinalize(p.consumer))
    && (!p.degraded && !AtFinalize(p.consumer) && p.consumer != Exited ==> Course(p) == Owed(p))
    && (p.consumer == Got(Finalize) && !p.degraded ==> p.due == Some(p.received))
    && (p.consumer == Calling(Finalize) ==> p.due == Some(p.received))
    && (p.succeeded ==> p.consumer == Exited && p.due == Some(p.received) && p.finalized && p.closed)
    && (p.caller == Answered(true) ==> p.succeeded)
    && (p.consumer.Calling? ==> !p.consumer.c.Stop?)
    && SingleFinalize(p.queue)
  }

  predicate SingleFinalize(queue: seq<Command>) {
    forall i, j :: 0 <= i < j < |queue| ==> !(queue[i] == Finalize && queue[j] == Finalize)
  }

  lemma {:induction false} AheadSnoc(queue: seq<Command>, c: Command)
    ensures Ahead(queue + [c]) == if Finalize in queue || !c.Event? then Ahead(queue) else Ahead(queue) + [c.e]
  {
    if queue != [] && queue[0] != Finalize {
      assert (queue + [c])[1..] == queue[1..] + [c];
      assert queue == [queue[0]] + queue[1..];
      AheadSnoc(queue[1..], c);
    }
  }

  lemma SingleSnoc(queue: seq<Command>, c: Command)
    requires SingleFinalize(queue) && (c == Finalize ==> Finalize !in queue)
    ensures SingleFinalize(queue + [c])
  {
  }

  lemma QueuedKeepsSound(p: Pump, c: Command)
    requires Sound(p) && c != Finalize
    ensures c == Stop ==> Sound(p.(queue := p.queue + [c]))
    ensures c.Event? ==> Sound(p.(queue := p.queue + [c], offering := None, returned := p.returned + [c.e]))
  {
    AheadSnoc(p.queue, c);
    SingleSnoc(p.queue, c);
    var q := p.queue + [c];
    assert Finalize in q <==> Finalize in p.queue;
    if c.Event? {
      assert p.received + InHand(p.consumer) + (Ahead(p.queue) + [c.e]) == Course(p) + [c.e];
    }
  }

  lemma FinalizeQueuedKeepsSound(p: Pump)
    requires Sound(p) && p.caller == Queueing
    ensures Sound(p.(queue := p.queue + [Finalize], due := Some(p.returned), caller := Waiting))
  {
    AheadSnoc(p.queue, Finalize);
    SingleSnoc(p.queue, Finalize);
    assert Finalize in p.queue + [Finalize];
  }

  lemma FirstFinalize(queue: seq<Command>)
    requires SingleFinalize(queue) && queue != []
    ensures SingleFinalize(queue[1..])
    ensures queue[0] == Finalize ==> Finalize !in queue[1..]
    ensures queue[0] != Finalize ==> (Finalize in queue <==> Finalize in queue[1..])
  {
    var rest := queue[1..];
    assert queue == [queue[0]] + rest;
    assert forall i :: 0 <= i < |rest| ==> rest[i] == queue[i + 1];
  }

  lemma TakenCourse(received: seq<Envelope>, queue: seq<Command>)
    requires queue != []
    ensures received + InHand(Idle) + Ahead(queue) ==
            received + InHand(Got(queue[0])) + (if queue[0] == Finalize then [] else Ahead(queue[1..]))
  {
  }

  lemma GetKeepsSound(p: Pump)
    requires Sound(p) && p.consumer == Idle && p.queue != []
    ensures Sound(p.(consumer := Got(p.queue[0]), queue := p.queue[1..]))
  {
    FirstFinalize(p.queue);
    TakenCourse(p.received, p.queue);
    assert p.received + [] + [] == p.received;
    assert p.queue[0] in p.queue;
  }

  lemma ProducerKeepsSound(p: Pump, a: Action)
    requires Sound(p) && (a.OfferStart? || a.OfferPut? || a.OfferFull? || a.StopPut? || a.StopFull?)
    ensures Sound(Step(p, a))
  {
    if a.OfferPut? && p.offering.Some? && HasRoom(p) {
      QueuedKeepsSound(p, Event(p.offering.value));
    }
    if a.StopPut? && HasRoom(p) {
      QueuedKeepsSound(p, Stop);
    }
  }

  lemma FinalizerKeepsSound(p: Pump, a: Action)
    requires Sound(p) && (a.FinalizeStart? || a.FinalizePut? || a.FinalizeFull? || a.FinalizeTimeout? || a.FinalizeAnswer?)
    ensures Sound(Step(p, a))
  {
    if a.FinalizeStart? && p.caller == NotCalled && p.degraded && HasRoom(p) {
      QueuedKeepsSound(p, Stop);
    }
    if a.FinalizePut? && p.caller == Queueing && HasRoom(p) {
      FinalizeQueuedKeepsSound(p);
    }
  }

  lemma LookKeepsSound(p: Pump, closes: bool)
    requires Sound(p)
    ensures Sound(Looked(p, closes))
  {
  }

  lemma DeliverKeepsSound(p: Pump, ok: bool)
    requires Sound(p)
    ensures Sound(Step(p, Deliver(ok)))
  {
    if p.consumer.Calling? && p.consumer.c.Event? {
      var e := p.consumer.c.e;
      assert (p.received + [e]) + [] + Ahead(p.queue) == Course(p);
    }
  }

  lemma ConcludeKeepsSound(p: Pump, ok: bool)
    requires Sound(p)
    ensures Sound(Step(p, Conclude(ok)))
  {
  }

  /** Every step keeps the pump's bookkeeping sound. */
  lemma StepKeepsSound(p: Pump, a: Action)
    requires Sound(p)
    ensures Sound(Step(p, a))
  {
    if a.OfferStart? || a.OfferPut? || a.OfferFull? || a.StopPut? || a.StopFull? {
      ProducerKeepsSound(p, a);
    } else if a.Look? {
      LookKeepsSound(p, a.closes);
    } else if a.Deliver? {
      DeliverKeepsSound(p, a.ok);
    } else if a.Conclude? {
      ConcludeKeepsSound(p, a.ok);
    } else if a.Get? {
      if p.consumer == Idle && p.queue != [] {
        GetKeepsSound(p);
      }
    } else {
      FinalizerKeepsSound(p, a);
    }
  }

  lemma {:induction false} RunIsSound(capacity: nat, actions: seq<Action>)
    ensures Sound(Run(Started(capacity), actions))
  {
    if actions != [] {
      RunIsSound(capacity, actions[..|actions| - 1]);
      StepKeepsSound(Run(Started(capacity), actions[..|actions| - 1]), actions[|actions| - 1]);
    }
  }

  /** In every interleaving: if finalizing answers OK, the observer had accepted, in order and without
      error, exactly the events whose offer had returned when the command was queued, and then
      accepted finalization and closing. */
  lemma OkIsHonest(capacity: nat, actions: seq<Action>)
    requires Run(Started(capacity), actions).caller == Answered(true)
    ensures var p := Run(Started(capacity), actions); p.due == Some(p.received) && p.finalized && p.closed
  {
    RunIsSound(capacity, actions);
  }

  // --------------------------------------------------------------------------- blame

  /** A step with which recording goes wrong: no room for an event, a finalize or a stop command in time, no
      answer in time, or an observer that fails. */
  predicate Fault(p: Pump, a: Action) {
    match a
    case OfferFull => p.offering.Some? && !HasRoom(p)
    case FinalizeFull => p.caller == Queueing && !HasRoom(p)
    case FinalizeTimeout => p.caller == Waiting
    case StopFull => !HasRoom(p)
    case Look(closes) => p.consumer == Got(Stop) && !closes
    case Deliver(ok) => p.consumer.Calling? && p.consumer.c.Event? && !ok
    case Conclude(ok) => p.consumer == Calling(Finalize) && !ok
    case _ => false
  }

  lemma StepBlames(p: Pump, a: Action)
    ensures Step(p, a).degraded <==> p.degraded || Fault(p, a)
  {
    if a.Look? {
      LookBlames(p, a.closes);
    }
  }

  lemma LookBlames(p: Pump, closes: bool)
    ensures Looked(p, closes).degraded <==> p.degraded || (p.consumer == Got(Stop) && !closes)
  {
  }

  ghost predicate FaultAt(p: Pump, actions: seq<Action>, i: nat)
    requires i < |actions|
  {
    Fault(Run(p, actions[..i]), actions[i])
  }

  /** Something has gone wrong on the way. */
  ghost predicate Faulty(p: Pump, actions: seq<Action>) {
    exists i :: 0 <= i < |actions| && FaultAt(p, actions, i)
  }

  lemma FaultyNext(p: Pump, actions: seq<Action>, a: Action)
    ensures Faulty(p, actions + [a]) <==> Faulty(p, actions) || Fault(Run(p, actions), a)
  {
    var n, more := |actions|, actions + [a];
    forall i | 0 <= i < n
      ensures FaultAt(p, more, i) == FaultAt(p, actions, i)
    {
      assert more[..i] == actions[..i];
    }
    assert more[..n] == actions;
    assert FaultAt(p, more, n) == Fault(Run(p, actions), a);
  }

  /** Recording is degraded exactly when something has gone wrong. */
  lemma {:induction false} DegradedExactly(capacity: nat, actions: seq<Action>)
    ensures Run(Started(capacity), actions).degraded <==> Faulty(Started(capacity), actions)
  {
    if actions != [] {
      var n := |actions| - 1;
      DegradedExactly(capacity, actions[..n]);
      StepBlames(Run(Started(capacity), actions[..n]), actions[n]);
      FaultyNext(Started(capacity), actions[..n], actions[n]);
      assert actions[..n] + [actions[n]] == actions;
    }
  }

  predicate Blamed(p: Pump) {
    && (p.complete ==> p.succeeded || p.degraded)
    && (p.caller == Answered(false) ==> p.degraded)
  }

  lemma {:induction false} RunIsBlamed(capacity: nat, actions: seq<Action>)
    ensures Blamed(Run(Started(capacity), actions))
  {
    if actions != [] {
      var n := |actions| - 1;
      RunIsBlamed(capacity, actions[..n]);
      StepKeepsBlamed(Run(Started(capacity), actions[..n]), actions[n]);
    }
  }

  lemma StepKeepsBlamed(p: Pump, a: Action)
    requires Blamed(p)
    ensures Blamed(Step(p, a))
  {
  }

  /** Finalizing never answers other than OK unless something has gone wrong. */
  lemma RefusalIsDue(capacity: nat, actions: seq<Action>)
    requires Run(Started(capacity), actions).caller == Answered(false)
    ensures Faulty(Started(capacity), actions)
  {
    RunIsBlamed(capacity, actions);
    DegradedExactly(capacity, actions);
  }

  // ------------------------------------------------------------------ left to run to its end

  lemma {:induction false} RunJoin(p: Pump, a: seq<Action>, b: seq<Action>)
    ensures Run(p, a + b) == Run(Run(p, a), b)
    decreases |b|
  {
    if b == [] {
      assert a + b == a;
    } else {
      var n := |b| - 1;
      RunJoin(p, a, b[..n]);
      assert (a + b)[..|a + b| - 1] == a + b[..n];
    }
  }

  lemma ThreeSteps(p: Pump, a: Action, b: Action, c: Action)
    ensures Run(p, [a, b, c]) == Step(Step(Step(p, a), b), c)
  {
    assert [a, b, c][..2] == [a, b] && [a, b][..1] == [a] && [a][..0] == [];
    assert Run(p, [a]) == Step(Run(p, []), a);
  }

  /** The events waiting in a queue that holds nothing else. */
  function Unread(queue: seq<Command>): seq<Envelope> {
    if queue == [] then [] else (if queue[0].Event? then [queue[0].e] else []) + Unread(queue[1..])
  }

  lemma OneIsHandedOn(p: Pump)
    requires p.consumer == Idle && !p.degraded && p.queue != [] && p.queue[0].Event?
    ensures Run(p, [Get, Look(true), Deliver(true)]) == p.(queue := p.queue[1..], received := p.received + [p.queue[0].e])
  {
    ThreeSteps(p, Get, Look(true), Deliver(true));
  }

  predicate AllEvents(queue: seq<Command>) {
    forall i :: 0 <= i < |queue| ==> queue[i].Event?
  }

  lemma UnreadHead(received: seq<Envelope>, queue: seq<Command>)
    requires queue != [] && queue[0].Event?
    ensures received + Unread(queue) == received + [queue[0].e] + Unread(queue[1..])
  {
  }

  /** An undisturbed consumer hands every queued event on, in order. */
  lemma {:induction false} QueueDrains(p: Pump) returns (actions: seq<Action>)
    requires p.consumer == Idle && !p.degraded && AllEvents(p.queue)
    ensures Run(p, actions) == p.(queue := [], received := p.received + Unread(p.queue))
    decreases |p.queue|
  {
    if p.queue == [] {
      actions := [];
      assert p.received + [] == p.received;
    } else {
      var next := p.(queue := p.queue[1..], received := p.received + [p.queue[0].e]);
      var rest := QueueDrains(next);
      OneIsHandedOn(p);
      actions := [Get, Look(true), Deliver(true)] + rest;
      RunJoin(p, [Get, Look(true), Deliver(true)], rest);
      UnreadHead(p.received, p.queue);
    }
  }

  /** From any moment at which nothing has gone wrong and no command but events waits, an undisturbed finalize is
      answered OK, and by then the observer has received every waiting event. */
  lemma FinalizeSucceeds(p: Pump) returns (actions: seq<Action>)
    requires p.capacity >= 1 && p.consumer == Idle && !p.degraded && p.caller == NotCalled && !p.succeeded && !p.complete
    requires AllEvents(p.queue)
    ensures var t := Run(p, actions); t.caller == Answered(true) && t.received == p.received + Unread(p.queue) && t.finalized && t.closed
  {
    var drain := QueueDrains(p);
    var q := p.(queue := [], received := p.received + Unread(p.queue));
    var rest := EmptyPumpAnswers(q);
    actions := drain + rest;
    RunJoin(p, drain, rest);
  }

  lemma EmptyPumpAnswers(q: Pump) returns (actions: seq<Action>)
    requires q.capacity >= 1 && q.consumer == Idle && !q.degraded && q.caller == NotCalled && q.queue == []
    ensures var t := Run(q, actions); t.caller == Answered(true) && t.received == q.received && t.finalized && t.closed
  {
    var a, b := [FinalizeStart, FinalizePut, Get], [Look(true), Conclude(true), FinalizeAnswer];
    FinalizeIsTaken(q);
    FinalizeIsAnswered(q.(caller := Waiting, due := Some(q.returned), consumer := Got(Finalize)));
    actions := a + b;
    RunJoin(q, a, b);
  }

  lemma FinalizeIsTaken(q: Pump)
    requires q.capacity >= 1 && q.consumer == Idle && !q.degraded && q.caller == NotCalled && q.queue == []
    ensures Run(q, [FinalizeStart, FinalizePut, Get]) == q.(caller := Waiting, due := Some(q.returned), consumer := Got(Finalize))
  {
    ThreeSteps(q, FinalizeStart, FinalizePut, Get);
  }

  lemma FinalizeIsAnswered(r: Pump)
    requires r.consumer == Got(Finalize) && !r.degraded && r.caller == Waiting
    ensures var t := Run(r, [Look(true), Conclude(true), FinalizeAnswer]);
            t.caller == Answered(true) && t.received == r.received && t.finalized && t.closed
  {
    ThreeSteps(r, Look(true), Conclude(true), FinalizeAnswer);
  }
}
