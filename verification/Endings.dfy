/** What becomes of requests and of the way a run ended: in every interleaving, and when left to run on. */
module Endings {
  import opened Paths
  import opened Lifecycle
  import opened Sessions

  // --------------------------------------------------------------- results tell the truth

  /** A result agrees with how the worker's run ended, but for the audit flag. */
  predicate Faithful(r: OperationResult, ending: Ending) {
    match ending
    case EndPaused => false
    case EndCanceled(d) => r.status == Canceled && r.detail == d
    case EndFailed(d) => r.status == Failed && r.detail == d
    case EndReturned(x) => r.status == x.status && r.detail == x.detail
  }

  ghost predicate Tells(s: Session, w: nat) {
    w in s.workers ==>
      match s.workers[w]
      case Settling(state, outcome) => w in s.endings && (outcome.Some? ==> Faithful(outcome.value, s.endings[w]))
      case Finalizing(r) => w in s.endings && Faithful(r, s.endings[w])
      case Publishing(r) => w in s.endings && Faithful(r, s.endings[w])
      case Announcing(r) => w in s.endings && Faithful(r, s.endings[w])
      case _ => true
  }

  ghost predicate Attributed(s: Session) {
    s.result.Some? ==>
      && s.author.Some? && s.author.value in s.workers && s.author.value in s.endings
      && (s.workers[s.author.value].Announcing? || s.workers[s.author.value].Leaving? || s.workers[s.author.value].Gone?)
      && Faithful(s.result.value, s.endings[s.author.value])
  }

  ghost predicate Truthful(s: Session) {
    Attributed(s) && forall w :: Tells(s, w)
  }

  predicate IsControl(a: Action) {
    a.PauseRequest? || a.ResumeRequest? || a.CancelRequest?
  }

  lemma ControlKeepsWorkers(s: Session, a: Action)
    requires IsControl(a)
    ensures Step(s, a).workers == s.workers && Step(s, a).endings == s.endings && Step(s, a).author == s.author
  {
  }

  ghost predicate OnlyMoves(s: Session, t: Session, w: nat) {
    forall v :: v != w ==> (v in t.workers <==> v in s.workers) && (v in s.workers ==> t.workers[v] == s.workers[v])
  }

  predicate IsStart(a: Action) {
    a.Launch? || a.Look? || a.Acquire? || a.Check? || a.Open?
  }

  lemma StartIsLocal(s: Session, a: Action)
    requires IsStart(a)
    ensures var t := Step(s, a); OnlyMoves(s, t, a.w) && t.endings == s.endings && t.author == s.author
    ensures var t := Step(s, a); t.started == s.started && t.state == s.state && t.cancel == s.cancel && t.result == s.result
  {
    var t := Step(s, a);
    if t != s {
      assert t == At(s, a.w, t.workers[a.w]);
    }
  }

  lemma FinishIsLocal(s: Session, a: Action)
    requires a.Finish?
    ensures var t := Step(s, a); OnlyMoves(s, t, a.w) && t.author == s.author && t.state == s.state && t.cancel == s.cancel && t.started == s.started
    ensures Step(s, a).result == s.result
    ensures Step(s, a).endings != s.endings ==> a.w in s.workers && s.workers[a.w].Working? && Step(s, a).endings == s.endings[a.w := a.ending]
  {
  }

  lemma EnterIsLocal(s: Session, w: nat)
    ensures var t := Step(s, Enter(w));
            || t == s
            || t == At(s, w, Working(Aborts)) || t == At(s, w, Leaving)
            || (s.state == Pending && t == At(Moved(s, Running), w, Working(Runs)))
  {
  }

  lemma LeaveIsLocal(s: Session, w: nat)
    ensures var t := Step(s, Leave(w));
            t == s || t == At(s, w, Gone) || (s.state == Paused && s.cancel && t == At(Moved(s, Canceling), w, Gone))
  {
  }

  lemma PassingIsLocal(s: Session, a: Action)
    requires a.Enter? || a.Leave?
    ensures var t := Step(s, a); OnlyMoves(s, t, a.w) && t.endings == s.endings && t.author == s.author && (s.started ==> t.started)
    ensures var t := Step(s, a); t.state == s.state || (t.state == Running && a.Enter?) || (t.state == Canceling && a.Leave?)
    ensures Step(s, a).cancel == s.cancel
    ensures Step(s, a).result.Some? ==> Step(s, a).result == s.result
  {
    if a.Enter? {
      EnterIsLocal(s, a.w);
    } else {
      LeaveIsLocal(s, a.w);
    }
  }

  lemma SettleIsLocal(s: Session, a: Action)
    requires a.Settle?
    ensures var t := Step(s, a); OnlyMoves(s, t, a.w) && t.endings == s.endings && t.author == s.author && (s.started ==> t.started)
    ensures Step(s, a).result.Some? ==> Step(s, a).result == s.result
  {
  }

  lemma EndIsLocal(s: Session, a: Action)
    requires a.FinalizeAudit? || a.Publish? || a.Announce?
    ensures var t := Step(s, a); OnlyMoves(s, t, a.w) && t.endings == s.endings && (!a.Publish? ==> t.author == s.author)
    ensures var t := Step(s, a); t.started == s.started && t.state == s.state && t.cancel == s.cancel
  {
  }

  /** A worker's step moves no other worker, and only a finish records an ending. */
  lemma StepIsLocal(s: Session, a: Action)
    requires !IsControl(a)
    ensures OnlyMoves(s, Step(s, a), a.w)
    ensures !a.Finish? ==> Step(s, a).endings == s.endings
    ensures Step(s, a).endings != s.endings ==> a.w in s.workers && s.workers[a.w].Working? && Step(s, a).endings == s.endings[a.w := a.ending]
    ensures !a.Publish? ==> Step(s, a).author == s.author
    ensures s.started ==> Step(s, a).started
  {
    if IsStart(a) {
      StartIsLocal(s, a);
    } else if a.Finish? {
      FinishIsLocal(s, a);
    } else if a.Enter? || a.Leave? {
      PassingIsLocal(s, a);
    } else if a.Settle? {
      SettleIsLocal(s, a);
    } else {
      EndIsLocal(s, a);
    }
  }

  lemma FinishTells(s: Session, a: Action, w: nat)
    requires a.Finish? && Tells(s, w)
    ensures Tells(Worked(s, a), w)
  {
  }

  /** A phase in which nothing has been said about the ending. */
  predicate Silent(p: Phase) {
    !Owns(p) && !p.Settling?
  }

  lemma StartIsSilent(s: Session, a: Action)
    requires IsStart(a) && a.w in Step(s, a).workers
    ensures Silent(Step(s, a).workers[a.w]) || (a.w in s.workers && Step(s, a).workers[a.w] == s.workers[a.w])
  {
  }

  lemma PassingIsSilent(s: Session, a: Action)
    requires (a.Enter? || a.Leave?) && a.w in Step(s, a).workers
    ensures Silent(Step(s, a).workers[a.w]) || (a.w in s.workers && Step(s, a).workers[a.w] == s.workers[a.w])
  {
    if a.w in s.workers && a.Enter? && s.workers[a.w] == Entering {
      Enters(s, a.w);
    } else if a.w in s.workers && a.Leave? && s.workers[a.w] == Leaving {
      Leaves(s, a.w);
    } else {
      assert Step(s, a) == s;
    }
  }

  lemma Enters(s: Session, w: nat)
    requires w in s.workers && s.workers[w] == Entering
    ensures var t := Step(s, Enter(w));
            w in t.workers && t.workers[w] in {Working(Aborts), Working(Runs), Leaving}
  {
    assert Step(s, Enter(w)) != s;
    EnterIsLocal(s, w);
  }

  lemma EntersPending(s: Session, w: nat)
    requires w in s.workers && s.workers[w] == Entering && s.state == Pending
    ensures var t := Step(s, Enter(w)); w in t.workers && t.workers[w] == Working(Runs) && t.state == Running && t.started
  {
  }

  lemma Leaves(s: Session, w: nat)
    requires w in s.workers && s.workers[w] == Leaving
    ensures var t := Step(s, Leave(w));
            && w in t.workers && t.workers[w] == Gone
            && (s.state != Paused ==> t.state == s.state && t.result == s.result && t.terminals == s.terminals && t.audits == s.audits)
  {
  }

  lemma StartTells(s: Session, a: Action, w: nat)
    requires (IsStart(a) || a.Enter? || a.Leave?) && Tells(s, w)
    ensures Tells(Step(s, a), w)
  {
    StepIsLocal(s, a);
    if w == a.w && w in Step(s, a).workers {
      if IsStart(a) {
        StartIsSilent(s, a);
      } else {
        PassingIsSilent(s, a);
      }
    }
  }

  lemma SettleTells(s: Session, a: Action, w: nat)
    requires a.Settle? && Tells(s, w)
    ensures Tells(Step(s, a), w)
  {
    SettleIsLocal(s, a);
    if w == a.w && w in s.workers && s.workers[w].Settling? {
      assert Step(s, a).workers[w] in {Leaving, if s.workers[w].outcome.Some? then Finalizing(s.workers[w].outcome.value) else Leaving};
    }
  }

  lemma EndTells(s: Session, a: Action, w: nat)
    requires (a.FinalizeAudit? || a.Publish? || a.Announce?) && Tells(s, w)
    ensures Tells(Worked(s, a), w)
  {
  }

  lemma StepTells(s: Session, a: Action, w: nat)
    requires Tells(s, w)
    ensures Tells(Step(s, a), w)
  {
    if a.Finish? {
      FinishTells(s, a, w);
    } else if a.Settle? {
      SettleTells(s, a, w);
    } else if a.FinalizeAudit? || a.Publish? || a.Announce? {
      EndTells(s, a, w);
    } else if IsControl(a) {
      ControlKeepsWorkers(s, a);
    } else {
      StartTells(s, a, w);
    }
  }

  lemma PublishAttributes(s: Session, a: Action)
    requires Truthful(s) && (a.FinalizeAudit? || a.Publish? || a.Announce?)
    ensures Attributed(Worked(s, a))
  {
    assert Tells(s, a.w);
  }

  predicate PastEnding(p: Phase) {
    p.Announcing? || p.Leaving? || p.Gone?
  }

  /** A worker that is past its ending keeps it. */
  lemma AuthorStays(s: Session, a: Action, w: nat)
    requires w in s.workers && w in s.endings && PastEnding(s.workers[w])
    ensures var t := Step(s, a);
            w in t.workers && w in t.endings && t.endings[w] == s.endings[w] && PastEnding(t.workers[w])
  {
    if IsControl(a) {
      ControlKeepsWorkers(s, a);
    } else {
      StepIsLocal(s, a);
      if a.w == w {
        PastStaysPast(s, a);
      }
    }
  }

  lemma PastStaysPast(s: Session, a: Action)
    requires !IsControl(a) && a.w in s.workers && PastEnding(s.workers[a.w])
    ensures a.w in Step(s, a).workers && PastEnding(Step(s, a).workers[a.w])
  {
    if IsStart(a) {
      assert Step(s, a).workers == s.workers;
    } else if a.FinalizeAudit? || a.Publish? || a.Announce? {
      EndMovesOn(s, a);
    } else if a.Enter? || a.Leave? {
      assert a.Leave? || Step(s, a).workers == s.workers;
    }
  }

  lemma EndMovesOn(s: Session, a: Action)
    requires (a.FinalizeAudit? || a.Publish? || a.Announce?) && a.w in s.workers && PastEnding(s.workers[a.w])
    ensures a.w in Step(s, a).workers && PastEnding(Step(s, a).workers[a.w])
  {
  }

  lemma ResultIsOld(s: Session, a: Action)
    requires !(a.FinalizeAudit? || a.Publish? || a.Announce?) && Step(s, a).result.Some?
    ensures Step(s, a).result == s.result
  {
    if IsStart(a) {
      StartIsLocal(s, a);
    } else if a.Finish? {
      FinishIsLocal(s, a);
    } else if a.Enter? || a.Leave? {
      PassingIsLocal(s, a);
    } else if a.Settle? {
      SettleIsLocal(s, a);
    }
  }

  /** A stored result outlives every other step. */
  lemma OthersAttribute(s: Session, a: Action)
    requires Truthful(s) && !(a.FinalizeAudit? || a.Publish? || a.Announce?)
    ensures Attributed(Step(s, a))
  {
    if Step(s, a).result.Some? {
      ResultIsOld(s, a);
      if IsControl(a) {
        ControlKeepsWorkers(s, a);
      } else {
        StepIsLocal(s, a);
      }
      AuthorStays(s, a, s.author.value);
    }
  }

  lemma StepKeepsTruthful(s: Session, a: Action)
    requires Truthful(s)
    ensures Truthful(Step(s, a))
  {
    forall w
      ensures Tells(Step(s, a), w)
    {
      StepTells(s, a, w);
    }
    if a.FinalizeAudit? || a.Publish? || a.Announce? {
      PublishAttributes(s, a);
    } else {
      OthersAttribute(s, a);
    }
  }

  lemma {:induction false} RunIsTruthful(s: Session, actions: seq<Action>)
    requires Truthful(s)
    ensures Truthful(Run(s, actions))
  {
    if actions != [] {
      var front := actions[..|actions| - 1];
      RunIsTruthful(s, front);
      StepKeepsTruthful(Run(s, front), actions[|actions| - 1]);
    }
  }

  /** In every interleaving a stored result is what its worker's run ended with: canceled after a cancellation,
      failed after an exception, and otherwise the returned result, but for the audit flag. */
  lemma ResultTellsEnding(s: Session, actions: seq<Action>)
    requires Initial(s) && Run(s, actions).result.Some?
    ensures var t := Run(s, actions);
            && t.author.Some? && t.author.value in t.endings && Faithful(t.result.value, t.endings[t.author.value])
            && t.state == t.result.value.status && (t.terminals != [] ==> Faithful(t.terminals[0], t.endings[t.author.value]))
  {
    InitialIsConsistent(s);
    RunIsConsistent(s, actions);
    RunIsTruthful(s, actions);
  }

  /** The recorded ending is the one with which the worker finished. */
  lemma {:induction false} EndingWasMet(s: Session, actions: seq<Action>, w: nat) returns (i: nat)
    requires Initial(s) && w in Run(s, actions).endings
    ensures i < |actions| && actions[i] == Finish(w, Run(s, actions).endings[w])
    ensures w in Run(s, actions[..i]).workers && Run(s, actions[..i]).workers[w].Working?
    decreases |actions|
  {
    var n := |actions| - 1;
    var front := actions[..n];
    var a := actions[n];
    if a.Finish? && a.w == w && w in Run(s, front).workers && Run(s, front).workers[w].Working? && Possible(Run(s, front).workers[w].ability, a.ending) {
      i := n;
    } else {
      OtherEndingsStay(Run(s, front), a, w);
      i := EndingWasMet(s, front, w);
      assert front[..i] == actions[..i];
    }
  }

  lemma OtherEndingsStay(s: Session, a: Action, w: nat)
    requires !(a.Finish? && a.w == w && w in s.workers && s.workers[w].Working? && Possible(s.workers[w].ability, a.ending))
    ensures w in Step(s, a).endings ==> w in s.endings && Step(s, a).endings[w] == s.endings[w]
  {
  }

  // ----------------------------------------------------------------------- stored states

  /** What precedes and follows a stored state. */
  predicate Follows(before: SessionState, after: SessionState) {
    && !IsTerminal(before)
    && (before == Canceling ==> IsTerminal(after))
    && (after == Running ==> before == Pending)
    && (after == Pausing ==> before == Running)
    && (after == Paused ==> before == Pausing)
    && (after == Pending ==> before in {Paused, Interrupted})
    && (after == Completed ==> before in {Running, Pausing, Canceling})
    && (after == Canceling ==> before in {Pending, Running, Pausing, Paused, Interrupted})
    && after != Interrupted
  }

  /** Once canceling a session only ends; it runs only when it was pending, pauses only when it was running,
      and nothing follows a terminal state. */
  lemma TrailIsOrdered(s: Session, actions: seq<Action>, i: nat)
    requires Initial(s) && 0 < i < |Run(s, actions).trail|
    ensures Follows(Run(s, actions).trail[i - 1], Run(s, actions).trail[i])
  {
    InitialIsConsistent(s);
    RunIsConsistent(s, actions);
    assert Legal(Run(s, actions).trail[i - 1], Run(s, actions).trail[i]);
  }

  // ------------------------------------------------------------------------- requests

  /** A pause is taken up only while running, and a resumption only after a stop. */
  lemma RequestsLead(s: Session)
    requires Consistent(s)
    ensures var t := Step(s, PauseRequest);
            if s.state == Running && s.pausable then t.state == Pausing && t.pause else t == s
    ensures var t := Step(s, ResumeRequest);
            if s.state in {Paused, Interrupted} then t.state == Pending && !t.pause && !t.cancel else t == s
    ensures var t := Step(s, CancelRequest);
            match s.state
            case Pausing => t.state == Pausing && t.cancel
            case Pending => t.state == Canceling && t.cancel
            case Running => t.state == Canceling && t.cancel
            case Paused => t.state == Canceling && t.cancel
            case Interrupted => t.state == Canceling && t.cancel
            case _ => t == s
  {
  }

  /** A paused session with a cancel request still has a worker that will take it up when it leaves. */
  ghost predicate Heard(s: Session) {
    s.state == Paused && s.cancel ==> exists w :: w in s.workers && s.workers[w] == Leaving
  }

  lemma StepKeepsHeard(s: Session, a: Action)
    requires Heard(s)
    ensures Heard(Step(s, a))
  {
    var t := Step(s, a);
    if t.state == Paused && t.cancel {
      if s.state == Paused && s.cancel {
        var w :| w in s.workers && s.workers[w] == Leaving;
        LeaverStays(s, a, w);
      } else {
        var w := FreshPause(s, a);
      }
    }
  }

  lemma LeaverStays(s: Session, a: Action, w: nat)
    requires w in s.workers && s.workers[w] == Leaving && s.state == Paused && s.cancel && Step(s, a).state == Paused
    ensures w in Step(s, a).workers && Step(s, a).workers[w] == Leaving
  {
    if IsControl(a) {
      ControlKeepsWorkers(s, a);
    } else {
      StepIsLocal(s, a);
      if a.w == w {
        LeaverRests(s, a);
      }
    }
  }

  lemma LeaverRests(s: Session, a: Action)
    requires !IsControl(a) && a.w in s.workers && s.workers[a.w] == Leaving && s.state == Paused && s.cancel && Step(s, a).state == Paused
    ensures a.w in Step(s, a).workers && Step(s, a).workers[a.w] == Leaving
  {
    if !a.Leave? {
      assert Step(s, a) == s;
    }
  }

  /** A session becomes paused with an open cancel request only where a worker settles. */
  lemma FreshPause(s: Session, a: Action) returns (w: nat)
    requires !(s.state == Paused && s.cancel) && Step(s, a).state == Paused && Step(s, a).cancel
    ensures w in Step(s, a).workers && Step(s, a).workers[w] == Leaving
  {
    if IsStart(a) {
      StartIsLocal(s, a);
    } else if a.Finish? {
      FinishIsLocal(s, a);
    } else if a.Enter? || a.Leave? {
      PassingIsLocal(s, a);
    } else if a.Settle? {
      w := SettledIntoPause(s, a);
    } else if !IsControl(a) {
      EndIsLocal(s, a);
    }
  }

  lemma SettledIntoPause(s: Session, a: Action) returns (w: nat)
    requires a.Settle? && !(s.state == Paused && s.cancel) && Step(s, a).state == Paused && Step(s, a).cancel
    ensures w in Step(s, a).workers && Step(s, a).workers[w] == Leaving
  {
    w := a.w;
  }

  lemma {:induction false} RunIsHeard(s: Session, actions: seq<Action>)
    requires Initial(s)
    ensures Heard(Run(s, actions))
  {
    InitialIsConsistent(s);
    if actions != [] {
      var front := actions[..|actions| - 1];
      RunIsHeard(s, front);
      RunIsConsistent(s, front);
      StepKeepsHeard(Run(s, front), actions[|actions| - 1]);
    }
  }

  /** A cancel request is never lost to a pause: when every worker has left a paused session, none is open. */
  lemma CancelIsNotLost(s: Session, actions: seq<Action>)
    requires Initial(s) && forall w :: w in Run(s, actions).workers ==> Run(s, actions).workers[w] == Gone
    ensures Run(s, actions).state == Paused ==> !Run(s, actions).cancel
  {
    RunIsHeard(s, actions);
  }

  // -------------------------------------------------------------- left to run to its end

  lemma {:induction false} RunJoin(s: Session, a: seq<Action>, b: seq<Action>)
    ensures Run(s, a + b) == Run(Run(s, a), b)
    decreases |b|
  {
    if b == [] {
      assert a + b == a;
    } else {
      var n := |b| - 1;
      RunJoin(s, a, b[..n]);
      assert (a + b)[..|a + b| - 1] == a + b[..n];
    }
  }

  lemma RunOne(s: Session, a: Action)
    ensures Run(s, [a]) == Step(s, a)
  {
    assert [a][..0] == [] && Run(s, []) == s;
  }

  /** The worker has stored the terminal state: its own steps announce the result. */
  lemma EndingIsAnnounced(s: Session, w: nat, ok: bool) returns (actions: seq<Action>)
    requires Consistent(s) && w in s.workers && s.workers[w].Finalizing?
    ensures var t, r := Run(s, actions), s.workers[w].r.(audited := ok);
            && t.state == s.state && t.result == Some(r) && t.terminals == [r] && w in t.workers && t.workers[w] == Gone && t.audits == 1
  {
    actions := [FinalizeAudit(w, ok), Publish(w), Announce(w), Leave(w)];
    assert PhaseFits(s, s.workers[w]);
    FourSteps(s, actions[0], actions[1], actions[2], actions[3]);
    Audits(s, w, ok);
    Publishes(Step(s, actions[0]), w);
    Announces(Step(Step(s, actions[0]), actions[1]), w);
    Leaves(Step(Step(Step(s, actions[0]), actions[1]), actions[2]), w);
  }

  lemma Audits(s: Session, w: nat, ok: bool)
    requires w in s.workers && s.workers[w].Finalizing?
    ensures var t := Step(s, FinalizeAudit(w, ok));
            && w in t.workers && t.workers[w] == Publishing(s.workers[w].r.(audited := ok))
            && t.state == s.state && t.audits == s.audits + 1 && t.terminals == s.terminals
  {
  }

  lemma Publishes(s: Session, w: nat)
    requires w in s.workers && s.workers[w].Publishing?
    ensures var t := Step(s, Publish(w));
            && w in t.workers && t.workers[w] == Announcing(s.workers[w].r) && t.result == Some(s.workers[w].r)
            && t.state == s.state && t.audits == s.audits && t.terminals == s.terminals
  {
  }

  lemma Announces(s: Session, w: nat)
    requires w in s.workers && s.workers[w].Announcing?
    ensures var t := Step(s, Announce(w));
            && w in t.workers && t.workers[w] == Leaving && t.terminals == s.terminals + [s.workers[w].r]
            && t.state == s.state && t.audits == s.audits && t.result == s.result
  {
  }

  lemma FourSteps(s: Session, a: Action, b: Action, c: Action, d: Action)
    ensures Run(s, [a, b, c, d]) == Step(Step(Step(Step(s, a), b), c), d)
  {
    assert [a, b, c, d] == [a] + [b] + [c] + [d];
    RunOne(s, a);
    RunJoin(s, [a], [b]);
    RunOne(Step(s, a), b);
    RunJoin(s, [a] + [b], [c]);
    RunOne(Step(Step(s, a), b), c);
    RunJoin(s, [a] + [b] + [c], [d]);
    RunOne(Step(Step(Step(s, a), b), c), d);
  }

  /** A worker whose run has ended in a way the state admits: its own steps store and announce it. */
  lemma EndingIsStored(s: Session, w: nat, ending: Ending, ok: bool) returns (actions: seq<Action>, r: OperationResult)
    requires Consistent(s) && w in s.workers && s.workers[w].Working? && Possible(s.workers[w].ability, ending) && !ending.EndPaused?
    requires Legal(s.state, match ending case EndCanceled(_) => Canceled case EndFailed(_) => Failed case EndReturned(x) => x.status)
    ensures var t := Run(s, actions);
            Faithful(r, ending) && r.audited == ok && t.state == r.status && t.result == Some(r) && t.terminals == [r] && w in t.workers && t.workers[w] == Gone
  {
    var finished := Step(s, Finish(w, ending));
    var settled := Step(finished, Settle(w));
    StepKeepsConsistent(s, Finish(w, ending));
    StepKeepsConsistent(finished, Settle(w));
    assert settled.workers[w].Finalizing?;
    var rest := EndingIsAnnounced(settled, w, ok);
    actions := [Finish(w, ending)] + ([Settle(w)] + rest);
    r := settled.workers[w].r.(audited := ok);
    RunOne(s, Finish(w, ending));
    RunOne(finished, Settle(w));
    RunJoin(s, [Finish(w, ending)], [Settle(w)] + rest);
    RunJoin(finished, [Settle(w)], rest);
  }

  /** Where a canceling session has a worker that has not ended, that worker's own steps bring it to its end. */
  lemma CancelCompletes(s: Session, w: nat, d: nat, ok: bool) returns (actions: seq<Action>, r: OperationResult)
    requires Consistent(s) && s.state == Canceling && w in s.workers
    requires s.workers[w] in {Launched, Acquiring, Holding, Opening, Entering} || s.workers[w].Working?
    ensures var t := Run(s, actions);
            t.state == Canceled && t.result == Some(r) && t.terminals == [r] && r == OperationResult(Canceled, ok, d) && w in t.workers && t.workers[w] == Gone
  {
    var first := if s.workers[w] == Launched then [Look(w)]
                 else if s.workers[w] == Acquiring then [Acquire(w, Withdrawn)]
                 else if s.workers[w] == Holding then [Check(w)]
                 else if s.workers[w] == Opening then [Open(w, false)]
                 else if s.workers[w] == Entering then [Enter(w)] else [];
    RunIsConsistent(s, first);
    if first != [] {
      RunOne(s, first[0]);
    }
    var t := Run(s, first);
    assert t.state == Canceling && w in t.workers && t.workers[w].Working?;
    var rest;
    rest, r := EndingIsStored(t, w, EndCanceled(d), ok);
    actions := first + rest;
    RunJoin(s, first, rest);
  }

  /** What an undisturbed worker does next, up to the opening of its invocation. */
  function Onward(w: nat, p: Phase): (Action, Phase) {
    match p
    case Launched => (Look(w), Acquiring)
    case Acquiring => (Acquire(w, Granted), Holding)
    case Holding => (Check(w), Opening)
    case _ => (Open(w, true), Entering)
  }

  lemma MovesOn(s: Session, w: nat, p: Phase)
    requires s.state == Pending && w in s.workers && s.workers[w] == p && p in {Launched, Acquiring, Holding, Opening}
    ensures var t := Step(s, Onward(w, p).0); t.state == Pending && w in t.workers && t.workers[w] == Onward(w, p).1
  {
  }

  lemma WorkerGetsReady(s: Session, w: nat) returns (actions: seq<Action>)
    requires s.state == Pending && w !in s.workers
    ensures var t := Run(s, actions); t.state == Pending && w in t.workers && t.workers[w] == Opening
  {
    actions := [Launch(w), Look(w), Acquire(w, Granted), Check(w)];
    FourSteps(s, actions[0], actions[1], actions[2], actions[3]);
    MovesOn(Step(s, actions[0]), w, Launched);
    MovesOn(Step(Step(s, actions[0]), actions[1]), w, Acquiring);
    MovesOn(Step(Step(Step(s, actions[0]), actions[1]), actions[2]), w, Holding);
  }

  lemma WorkerRuns(s: Session, w: nat) returns (actions: seq<Action>)
    requires s.state == Pending && w in s.workers && s.workers[w] == Opening
    ensures var t := Run(s, actions); t.state == Running && t.started && w in t.workers && t.workers[w] == Working(Runs)
  {
    actions := [Open(w, true)] + [Enter(w)];
    RunOne(s, Open(w, true));
    MovesOn(s, w, Opening);
    EntersPending(Step(s, Open(w, true)), w);
    RunOne(Step(s, Open(w, true)), Enter(w));
    RunJoin(s, [Open(w, true)], [Enter(w)]);
  }

  /** A pending session with a new worker, undisturbed: it runs, and its result is stored and announced. */
  lemma RunCompletes(s: Session, w: nat, result: OperationResult, ok: bool) returns (actions: seq<Action>)
    requires Consistent(s) && s.state == Pending && w !in s.workers && result.status in {Completed, Failed, Canceled, Refused}
    ensures var t, r := Run(s, actions), result.(audited := ok);
            t.state == result.status && t.result == Some(r) && t.terminals == [r] && t.started && w in t.workers && t.workers[w] == Gone
  {
    var a := WorkerGetsReady(s, w);
    RunIsConsistent(s, a);
    var b := WorkerRuns(Run(s, a), w);
    RunIsConsistent(Run(s, a), b);
    var running := Run(Run(s, a), b);
    var rest, r := EndingIsStored(running, w, EndReturned(result), ok);
    actions := a + b + rest;
    RunJoin(s, a, b);
    RunJoin(s, a + b, rest);
    StartedStays(running, rest);
  }

  lemma {:induction false} StartedStays(s: Session, actions: seq<Action>)
    requires s.started
    ensures Run(s, actions).started
  {
    if actions != [] {
      var n := |actions| - 1;
      StartedStays(s, actions[..n]);
      if !IsControl(actions[n]) {
        StepIsLocal(Run(s, actions[..n]), actions[n]);
      }
    }
  }
}
