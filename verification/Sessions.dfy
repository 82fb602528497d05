/** One session under any number of workers and any control requests, step by atomic step. */
module Sessions {
  import opened Paths
  import opened Lifecycle

  datatype OperationResult = OperationResult(status: SessionState, audited: bool, detail: nat)

  /** What a worker's run can do: run its invocation, give up as canceled, or fail. */
  datatype Ability = Runs | Aborts | Fails

  datatype Ending = EndPaused | EndCanceled(detail: nat) | EndFailed(detail: nat) | EndReturned(result: OperationResult)

  /** Where a worker is between two atomic steps. */
  datatype Phase =
    | Launched | Acquiring | Holding | Opening | Entering
    | Working(ability: Ability)
    | Settling(state: SessionState, outcome: Option<OperationResult>)
    | Finalizing(r: OperationResult) | Publishing(r: OperationResult) | Announcing(r: OperationResult)
    | Leaving | Gone

  /** `trail` lists every stored state, `audits` counts audit finalizations, `terminals` are the
      Terminal events emitted, `endings` says how each worker's run ended, and `author` which worker
      stored the result. */
  datatype Session = Session(
    state: SessionState,
    result: Option<OperationResult>,
    started: bool,
    cancel: bool,
    pause: bool,
    pausable: bool,
    workers: map<nat, Phase>,
    trail: seq<SessionState>,
    audits: nat,
    terminals: seq<OperationResult>,
    endings: map<nat, Ending>,
    author: Option<nat>)

  function Admitted(pausable: bool): Session {
    Session(Pending, None, false, false, false, pausable, map[], [Pending], 0, [], map[], None)
  }

  function Recovered(pausable: bool, started: bool): Session {
    Session(Interrupted, None, started, false, false, pausable, map[], [Interrupted], 0, [], map[], None)
  }

  datatype Custody = Granted | Withdrawn | Broken

  datatype Action =
    | PauseRequest | ResumeRequest | CancelRequest
    | Launch(w: nat) | Look(w: nat) | Acquire(w: nat, custody: Custody) | Check(w: nat) | Open(w: nat, ok: bool) | Enter(w: nat)
    | Finish(w: nat, ending: Ending) | Settle(w: nat) | FinalizeAudit(w: nat, ok: bool) | Publish(w: nat) | Announce(w: nat) | Leave(w: nat)

  /** A stored transition; the stored result is always dropped with it. */
  function Moved(s: Session, to: SessionState): Session {
    s.(state := to, result := None, started := s.started || to == Running, trail := s.trail + [to])
  }

  function Controlled(s: Session, a: Action): Session
    requires a.PauseRequest? || a.ResumeRequest? || a.CancelRequest?
  {
    match a
    case PauseRequest => if s.pausable && s.state == Running then Moved(s.(pause := true), Pausing) else s
    case ResumeRequest => if s.state in {Paused, Interrupted} then Moved(s.(pause := false, cancel := false), Pending) else s
    case CancelRequest =>
      if IsTerminal(s.state) || s.state == Canceling then s
      else if s.state == Pausing then s.(cancel := true)
      else Moved(s.(cancel := true), Canceling)
  }

  function At(s: Session, w: nat, phase: Phase): Session {
    s.(workers := s.workers[w := phase])
  }

  function Concluded(ending: Ending): Phase {
    match ending
    case EndPaused => Settling(Paused, None)
    case EndCanceled(d) => Settling(Canceled, Some(OperationResult(Canceled, true, d)))
    case EndFailed(d) => Settling(Failed, Some(OperationResult(Failed, true, d)))
    case EndReturned(r) => Settling(r.status, Some(r))
  }

  predicate Possible(ability: Ability, ending: Ending) {
    ending.EndReturned? ==> ability == Runs && IsTerminal(ending.result.status)
  }

  /** The worker's next step in each phase. */
  function Worked(s: Session, a: Action): Session {
    match a
    case Launch(w) => if w in s.workers then s else At(s, w, Launched)
    case Look(w) =>
      if w !in s.workers || s.workers[w] != Launched then s
      else At(s, w, if s.state == Canceling then Working(Aborts) else Acquiring)
    case Acquire(w, custody) =>
      if w !in s.workers || s.workers[w] != Acquiring then s
      else At(s, w, match custody case Granted => Holding case Withdrawn => Working(Aborts) case Broken => Working(Fails))
    case Check(w) =>
      if w !in s.workers || s.workers[w] != Holding then s
      else At(s, w, if s.state == Canceling then Working(Aborts) else Opening)
    case Open(w, ok) =>
      if w !in s.workers || s.workers[w] != Opening then s else At(s, w, if ok then Entering else Working(Fails))
    case Enter(w) =>
      if w !in s.workers || s.workers[w] != Entering then s
      else if s.state == Canceling then At(s, w, Working(Aborts))
      else if Legal(s.state, Running) then At(Moved(s, Running), w, Working(Runs))
      else At(s, w, Leaving)
    case Finish(w, ending) =>
      if w !in s.workers || !s.workers[w].Working? || !Possible(s.workers[w].ability, ending) then s
      else At(s.(endings := s.endings[w := ending]), w, Concluded(ending))
    case Settle(w) => if w !in s.workers || !s.workers[w].Settling? then s else Settled(s, w, s.workers[w])
    case FinalizeAudit(w, ok) =>
      if w !in s.workers || !s.workers[w].Finalizing? then s
      else At(s.(audits := s.audits + 1), w, Publishing(s.workers[w].r.(audited := ok)))
    case Publish(w) =>
      if w !in s.workers || !s.workers[w].Publishing? then s
      else At(s.(result := Some(s.workers[w].r), author := Some(w)), w, Announcing(s.workers[w].r))
    case Announce(w) =>
      if w !in s.workers || !s.workers[w].Announcing? then s
      else At(s.(terminals := s.terminals + [s.workers[w].r]), w, Leaving)
    case Leave(w) =>
      if w !in s.workers || s.workers[w] != Leaving then s
      else if s.state == Paused && s.cancel then At(Moved(s, Canceling), w, Gone)
      else At(s, w, Gone)
    case _ => s
  }

  /** Storing how a run ended; an illegal transition stops the worker instead. */
  function Settled(s: Session, w: nat, phase: Phase): Session
    requires phase.Settling?
  {
    if !Legal(s.state, phase.state) then At(s, w, Leaving)
    else if phase.outcome.Some? && IsTerminal(phase.state) then At(Moved(s, phase.state), w, Finalizing(phase.outcome.value))
    else At(Moved(s, phase.state), w, Leaving)
  }

  function Step(s: Session, a: Action): Session {
    if a.PauseRequest? || a.ResumeRequest? || a.CancelRequest? then Controlled(s, a) else Worked(s, a)
  }

  function Run(s: Session, actions: seq<Action>): Session {
    if actions == [] then s else Step(Run(s, actions[..|actions| - 1]), actions[|actions| - 1])
  }

  // ------------------------------------------------------------------------- invariant

  ghost predicate IsPath(trail: seq<SessionState>, state: SessionState) {
    && trail != [] && trail[|trail| - 1] == state
    && forall i :: 0 < i < |trail| ==> Legal(trail[i - 1], trail[i])
  }

  /** The worker that has stored the terminal state and not yet announced it. */
  predicate Owns(p: Phase) {
    p.Finalizing? || p.Publishing? || p.Announcing?
  }

  ghost predicate PhaseFits(s: Session, p: Phase) {
    match p
    case Settling(state, outcome) => if outcome.Some? then IsTerminal(state) && outcome.value.status == state else state == Paused
    case Finalizing(r) => r.status == s.state && s.audits == 0 && s.result.None? && s.terminals == []
    case Publishing(r) => r.status == s.state && s.audits == 1 && s.result.None? && s.terminals == []
    case Announcing(r) => s.audits == 1 && s.result == Some(r) && s.terminals == []
    case _ => true
  }

  ghost predicate AllFit(s: Session) {
    forall w :: w in s.workers ==> PhaseFits(s, s.workers[w])
  }

  ghost predicate OneOwner(s: Session) {
    forall v, w :: v in s.workers && w in s.workers && Owns(s.workers[v]) && Owns(s.workers[w]) ==> v == w
  }

  ghost predicate NoOwner(s: Session) {
    forall w :: w in s.workers ==> !Owns(s.workers[w])
  }

  ghost predicate Coherent(s: Session) {
    && IsPath(s.trail, s.state)
    && AllFit(s) && OneOwner(s) && s.audits <= 1
    && (!IsTerminal(s.state) ==> NoOwner(s) && s.result.None? && s.audits == 0 && s.terminals == [])
    && (s.result.Some? ==> s.audits == 1 && s.result.value.status == s.state)
    && (s.terminals != [] ==> NoOwner(s) && s.result.Some? && s.terminals == [s.result.value])
  }

  /** A terminal state that no worker is about to announce has been announced. */
  ghost predicate Announced(s: Session) {
    IsTerminal(s.state) && NoOwner(s) ==> s.terminals != []
  }

  ghost predicate Consistent(s: Session) {
    Coherent(s) && Announced(s)
  }

  lemma PathSnoc(trail: seq<SessionState>, state: SessionState, to: SessionState)
    requires IsPath(trail, state) && Legal(state, to)
    ensures IsPath(trail + [to], to)
  {
  }

  /** A legal stored transition starts from a state that is not terminal. */
  lemma MovedCoherent(s: Session, to: SessionState)
    requires Coherent(s) && Legal(s.state, to)
    ensures Coherent(Moved(s, to)) && NoOwner(Moved(s, to)) && !IsTerminal(s.state)
    ensures Moved(s, to).audits == 0 && Moved(s, to).terminals == []
  {
    PathSnoc(s.trail, s.state, to);
    forall w | w in s.workers
      ensures PhaseFits(Moved(s, to), s.workers[w])
    {
      assert PhaseFits(s, s.workers[w]);
    }
  }

  lemma FlagsCoherent(s: Session, pause: bool, cancel: bool)
    requires Coherent(s)
    ensures Coherent(s.(pause := pause, cancel := cancel))
  {
    var t := s.(pause := pause, cancel := cancel);
    forall w | w in t.workers
      ensures PhaseFits(t, t.workers[w])
    {
      assert PhaseFits(s, s.workers[w]);
    }
  }

  lemma EndingsCoherent(s: Session, endings: map<nat, Ending>)
    requires Coherent(s)
    ensures Coherent(s.(endings := endings))
  {
    var t := s.(endings := endings);
    forall w | w in t.workers
      ensures PhaseFits(t, t.workers[w])
    {
      assert PhaseFits(s, s.workers[w]);
    }
  }

  /** A worker may move to any phase that fits and does not own the ending. */
  lemma AtCoherent(s: Session, w: nat, phase: Phase)
    requires Coherent(s) && PhaseFits(s, phase) && !Owns(phase)
    ensures Coherent(At(s, w, phase))
  {
    var t := At(s, w, phase);
    forall v | v in t.workers
      ensures PhaseFits(t, t.workers[v])
    {
      if v != w {
        assert PhaseFits(s, s.workers[v]);
      }
    }
  }

  /** The one worker that owns the ending, given that every other worker's phase fits regardless. */
  lemma OwnerCoherent(s: Session, t: Session, w: nat, phase: Phase)
    requires w in t.workers && t.workers[w] == phase && PhaseFits(t, phase) && IsPath(t.trail, t.state) && IsTerminal(t.state)
    requires forall v :: v in t.workers && v != w ==> v in s.workers && t.workers[v] == s.workers[v] && !Owns(s.workers[v]) && PhaseFits(s, s.workers[v])
    requires t.audits <= 1 && (t.result.Some? ==> t.audits == 1 && t.result.value.status == t.state)
    requires t.terminals != [] ==> !Owns(phase) && t.result.Some? && t.terminals == [t.result.value]
    ensures Coherent(t)
  {
    forall v | v in t.workers
      ensures PhaseFits(t, t.workers[v])
    {
      if v != w {
        assert PhaseFits(s, s.workers[v]);
      }
    }
  }

  lemma ControlKeepsCoherent(s: Session, a: Action)
    requires Coherent(s) && (a.PauseRequest? || a.ResumeRequest? || a.CancelRequest?)
    ensures Coherent(Controlled(s, a))
  {
    FlagsCoherent(s, true, s.cancel);
    FlagsCoherent(s, false, false);
    FlagsCoherent(s, s.pause, true);
    if a.PauseRequest? && s.pausable && s.state == Running {
      MovedCoherent(s.(pause := true, cancel := s.cancel), Pausing);
    } else if a.ResumeRequest? && s.state in {Paused, Interrupted} {
      MovedCoherent(s.(pause := false, cancel := false), Pending);
    } else if a.CancelRequest? && !IsTerminal(s.state) && s.state != Canceling && s.state != Pausing {
      MovedCoherent(s.(pause := s.pause, cancel := true), Canceling);
    }
  }

  lemma SettleKeepsCoherent(s: Session, w: nat)
    requires Coherent(s) && w in s.workers && s.workers[w].Settling?
    ensures Coherent(Settled(s, w, s.workers[w]))
  {
    var phase := s.workers[w];
    assert PhaseFits(s, phase);
    if !Legal(s.state, phase.state) {
      AtCoherent(s, w, Leaving);
    } else {
      MovedCoherent(s, phase.state);
      var t := Moved(s, phase.state);
      if phase.outcome.Some? && IsTerminal(phase.state) {
        OwnerCoherent(t, At(t, w, Finalizing(phase.outcome.value)), w, Finalizing(phase.outcome.value));
      } else {
        AtCoherent(t, w, Leaving);
      }
    }
  }

  lemma FinalizeKeepsCoherent(s: Session, w: nat, ok: bool)
    requires Coherent(s) && w in s.workers && s.workers[w].Finalizing?
    ensures Coherent(Worked(s, FinalizeAudit(w, ok)))
  {
    assert PhaseFits(s, s.workers[w]);
    OwnerCoherent(s, Worked(s, FinalizeAudit(w, ok)), w, Publishing(s.workers[w].r.(audited := ok)));
  }

  lemma PublishKeepsCoherent(s: Session, w: nat)
    requires Coherent(s) && w in s.workers && s.workers[w].Publishing?
    ensures Coherent(Worked(s, Publish(w)))
  {
    assert PhaseFits(s, s.workers[w]);
    OwnerCoherent(s, Worked(s, Publish(w)), w, Announcing(s.workers[w].r));
  }

  lemma AnnounceKeepsCoherent(s: Session, w: nat)
    requires Coherent(s) && w in s.workers && s.workers[w].Announcing?
    ensures Coherent(Worked(s, Announce(w)))
  {
    assert PhaseFits(s, s.workers[w]);
    OwnerCoherent(s, Worked(s, Announce(w)), w, Leaving);
  }

  lemma EndingKeepsCoherent(s: Session, a: Action)
    requires Coherent(s) && (a.FinalizeAudit? || a.Publish? || a.Announce?)
    ensures Coherent(Worked(s, a))
  {
    if a.w in s.workers {
      if a.FinalizeAudit? && s.workers[a.w].Finalizing? {
        FinalizeKeepsCoherent(s, a.w, a.ok);
      } else if a.Publish? && s.workers[a.w].Publishing? {
        PublishKeepsCoherent(s, a.w);
      } else if a.Announce? && s.workers[a.w].Announcing? {
        AnnounceKeepsCoherent(s, a.w);
      }
    }
  }

  lemma EnterKeepsCoherent(s: Session, w: nat)
    requires Coherent(s)
    ensures Coherent(Worked(s, Enter(w)))
  {
    if w in s.workers && s.workers[w] == Entering {
      if s.state == Canceling {
        AtCoherent(s, w, Working(Aborts));
      } else if Legal(s.state, Running) {
        MovedCoherent(s, Running);
        AtCoherent(Moved(s, Running), w, Working(Runs));
      } else {
        AtCoherent(s, w, Leaving);
      }
    }
  }

  lemma LeaveKeepsCoherent(s: Session, w: nat)
    requires Coherent(s)
    ensures Coherent(Worked(s, Leave(w)))
  {
    if w in s.workers && s.workers[w] == Leaving {
      if s.state == Paused && s.cancel {
        MovedCoherent(s, Canceling);
        AtCoherent(Moved(s, Canceling), w, Gone);
      } else {
        AtCoherent(s, w, Gone);
      }
    }
  }

  lemma PlainStep(s: Session, a: Action)
    requires a.Launch? || a.Look? || a.Acquire? || a.Check? || a.Open? || a.Finish?
    ensures Worked(s, a) == s || (exists phase :: Worked(s, a) == At(s.(endings := Worked(s, a).endings), a.w, phase) && !Owns(phase) && PhaseFits(s, phase))
    ensures Worked(s, a) != s && a.w in s.workers ==> !Owns(s.workers[a.w])
  {
    var t := Worked(s, a);
    if t != s {
      assert t == At(s.(endings := t.endings), a.w, t.workers[a.w]);
    }
  }

  lemma StartKeepsCoherent(s: Session, a: Action)
    requires Coherent(s) && (a.Launch? || a.Look? || a.Acquire? || a.Check? || a.Open? || a.Finish?)
    ensures Coherent(Worked(s, a))
  {
    PlainStep(s, a);
    if Worked(s, a) != s {
      var phase :| Worked(s, a) == At(s.(endings := Worked(s, a).endings), a.w, phase) && !Owns(phase) && PhaseFits(s, phase);
      EndingsCoherent(s, Worked(s, a).endings);
      AtCoherent(s.(endings := Worked(s, a).endings), a.w, phase);
    }
  }

  lemma StepKeepsCoherent(s: Session, a: Action)
    requires Coherent(s)
    ensures Coherent(Step(s, a))
  {
    if a.PauseRequest? || a.ResumeRequest? || a.CancelRequest? {
      ControlKeepsCoherent(s, a);
    } else if a.FinalizeAudit? || a.Publish? || a.Announce? {
      EndingKeepsCoherent(s, a);
    } else if a.Settle? {
      if a.w in s.workers && s.workers[a.w].Settling? {
        SettleKeepsCoherent(s, a.w);
      }
    } else if a.Enter? {
      EnterKeepsCoherent(s, a.w);
    } else if a.Leave? {
      LeaveKeepsCoherent(s, a.w);
    } else {
      StartKeepsCoherent(s, a);
    }
  }

  /** A worker that did not own the ending may move on. */
  lemma AtAnnounced(s: Session, w: nat, phase: Phase)
    requires Announced(s) && (w in s.workers ==> !Owns(s.workers[w]))
    ensures Announced(At(s, w, phase))
  {
    if NoOwner(At(s, w, phase)) {
      forall v | v in s.workers
        ensures !Owns(s.workers[v])
      {
        assert v in At(s, w, phase).workers;
      }
    }
  }

  lemma ControlKeepsAnnounced(s: Session, a: Action)
    requires Announced(s) && (a.PauseRequest? || a.ResumeRequest? || a.CancelRequest?)
    ensures Announced(Controlled(s, a))
  {
  }

  lemma EndingKeepsAnnounced(s: Session, a: Action)
    requires Announced(s) && (a.FinalizeAudit? || a.Publish? || a.Announce?)
    ensures Announced(Worked(s, a))
  {
    var t := Worked(s, a);
    if t != s {
      assert a.Announce? || Owns(t.workers[a.w]);
    }
  }

  lemma SettleKeepsAnnounced(s: Session, w: nat)
    requires Consistent(s) && w in s.workers && s.workers[w].Settling?
    ensures Announced(Settled(s, w, s.workers[w]))
  {
    var t, phase := Settled(s, w, s.workers[w]), s.workers[w];
    assert PhaseFits(s, phase);
    if !Legal(s.state, phase.state) {
      AtAnnounced(s, w, Leaving);
    } else if IsTerminal(phase.state) {
      assert Owns(t.workers[w]);
    }
  }

  lemma StartKeepsAnnounced(s: Session, a: Action)
    requires Announced(s) && (a.Launch? || a.Look? || a.Acquire? || a.Check? || a.Open? || a.Finish?)
    ensures Announced(Worked(s, a))
  {
    PlainStep(s, a);
    if Worked(s, a) != s {
      var phase :| Worked(s, a) == At(s.(endings := Worked(s, a).endings), a.w, phase) && !Owns(phase) && PhaseFits(s, phase);
      AtAnnounced(s.(endings := Worked(s, a).endings), a.w, phase);
    }
  }

  lemma PassingKeepsAnnounced(s: Session, a: Action)
    requires Announced(s) && (a.Enter? || a.Leave?)
    ensures Announced(Worked(s, a))
  {
    if a.w in s.workers && (if a.Enter? then s.workers[a.w] == Entering else s.workers[a.w] == Leaving) {
      AtAnnounced(s, a.w, Working(Aborts));
      AtAnnounced(s, a.w, Leaving);
      AtAnnounced(s, a.w, Gone);
    }
  }

  lemma StepKeepsAnnounced(s: Session, a: Action)
    requires Consistent(s)
    ensures Announced(Step(s, a))
  {
    if a.PauseRequest? || a.ResumeRequest? || a.CancelRequest? {
      ControlKeepsAnnounced(s, a);
    } else if a.FinalizeAudit? || a.Publish? || a.Announce? {
      EndingKeepsAnnounced(s, a);
    } else if a.Settle? {
      if a.w in s.workers && s.workers[a.w].Settling? {
        SettleKeepsAnnounced(s, a.w);
      }
    } else if a.Enter? || a.Leave? {
      PassingKeepsAnnounced(s, a);
    } else {
      StartKeepsAnnounced(s, a);
    }
  }

  lemma StepKeepsConsistent(s: Session, a: Action)
    requires Consistent(s)
    ensures Consistent(Step(s, a))
  {
    StepKeepsCoherent(s, a);
    StepKeepsAnnounced(s, a);
  }

  ghost predicate Initial(s: Session) {
    s == Admitted(s.pausable) || s == Recovered(s.pausable, s.started)
  }

  lemma {:induction false} RunIsConsistent(s: Session, actions: seq<Action>)
    requires Consistent(s)
    ensures Consistent(Run(s, actions))
  {
    if actions != [] {
      RunIsConsistent(s, actions[..|actions| - 1]);
      StepKeepsConsistent(Run(s, actions[..|actions| - 1]), actions[|actions| - 1]);
    }
  }

  lemma InitialIsConsistent(s: Session)
    requires Initial(s)
    ensures Consistent(s)
  {
  }

  // ----------------------------------------------------------------------- main results

  /** In every interleaving of controls and workers: stored states follow the transition table, at most
      one Terminal is emitted, it carries the stored result, a result is stored only after the audit
      was finalized once, and it agrees with the stored state.  Exactly one is emitted for a terminal
      session unless a worker is still about to announce it. */
  lemma OneTerminalOneTruth(s: Session, actions: seq<Action>)
    requires Initial(s)
    ensures var t := Run(s, actions);
            && IsPath(t.trail, t.state)
            && |t.terminals| <= 1 && t.audits <= 1
            && (t.result.Some? ==> t.audits == 1 && IsTerminal(t.state) && t.result.value.status == t.state)
            && (t.terminals != [] ==> t.result == Some(t.terminals[0]))
            && (IsTerminal(t.state) && NoOwner(t) ==> |t.terminals| == 1 && t.result.Some?)
  {
    InitialIsConsistent(s);
    RunIsConsistent(s, actions);
  }

  lemma ResultStays(s: Session, a: Action)
    requires Consistent(s) && s.result.Some?
    ensures Step(s, a).result == s.result && Step(s, a).state == s.state
  {
    if a.Publish? && a.w in s.workers {
      assert PhaseFits(s, s.workers[a.w]);
    }
  }

  lemma ResultOutlives(s: Session, actions: seq<Action>, a: Action)
    requires Initial(s) && Run(s, actions).result.Some?
    ensures Run(s, actions + [a]).result == Run(s, actions).result && Run(s, actions + [a]).state == Run(s, actions).state
  {
    InitialIsConsistent(s);
    RunIsConsistent(s, actions);
    ResultStays(Run(s, actions), a);
    assert (actions + [a])[..|actions|] == actions;
  }

  /** Once a result is stored, neither it nor the state ever changes again. */
  lemma {:induction false} ResultIsFinal(s: Session, actions: seq<Action>, more: seq<Action>)
    requires Initial(s) && Run(s, actions).result.Some?
    ensures Run(s, actions + more).result == Run(s, actions).result
    ensures Run(s, actions + more).state == Run(s, actions).state
    decreases |more|
  {
    if more == [] {
      assert actions + more == actions;
    } else {
      var front := more[..|more| - 1];
      ResultIsFinal(s, actions, front);
      ResultOutlives(s, actions + front, more[|more| - 1]);
      assert actions + more == (actions + front) + [more[|more| - 1]];
    }
  }
}
