/** Resource custody: leases within a process, and ordered named mutexes across processes. */
module Custody {

  /** Resource ids, by their place in the total order they are sorted in. */
  type Resource = nat

  // -------------------------------------------------------------------- within a process

  datatype LeaseStage = Held | Releasing | Released

  class Lease {
    const resources: set<Resource>
    var stage: LeaseStage

    constructor (resources: set<Resource>)
      ensures this.resources == resources && stage == Held
    {
      this.resources, stage := resources, Held;
    }
  }

  datatype Attempt = Granted(lease: Lease) | StillWaiting | Withdrawn

  class LocalLocks {
    var held: set<Resource>
    ghost var leases: set<Lease>

    /** The held set is the disjoint union of the leases that have not given back theirs. */
    ghost predicate Valid()
      reads this, leases
    {
      && (forall r :: r in held <==> exists l :: l in leases && l.stage != Released && r in l.resources)
      && (forall l, m :: l in leases && m in leases && l != m && l.stage != Released && m.stage != Released ==> l.resources !! m.resources)
    }

    constructor ()
      ensures Valid() && held == {} && leases == {}
    {
      held, leases := {}, {};
    }

    /** One look at the held set, under the lock: all or nothing. */
    method Poll(resources: set<Resource>, canceled: bool) returns (a: Attempt)
      requires Valid()
      modifies this
      ensures Valid()
      ensures a.Granted? <==> old(held) !! resources && !canceled
      ensures a.Withdrawn? <==> canceled
      ensures a.Granted? ==> fresh(a.lease) && a.lease.stage == Held && a.lease.resources == resources
                             && leases == old(leases) + {a.lease} && held == old(held) + resources
      ensures !a.Granted? ==> leases == old(leases) && held == old(held)
    {
      if exists r :: r in resources && r in held {
        return if canceled then Withdrawn else StillWaiting;
      }
      if canceled {
        return Withdrawn;
      }
      var lease := new Lease(resources);
      held, leases := held + resources, leases + {lease};
      a := Granted(lease);
    }

    /** Only the first release of a lease goes on to give anything back. */
    method BeginRelease(lease: Lease) returns (first: bool)
      requires Valid() && lease in leases
      modifies lease
      ensures Valid() && first == (old(lease.stage) == Held)
      ensures lease.stage == if first then Releasing else old(lease.stage)
    {
      first := lease.stage == Held;
      if first {
        lease.stage := Releasing;
      }
    }

    method GiveBack(lease: Lease)
      requires Valid() && lease in leases && lease.stage == Releasing
      modifies this`held, lease
      ensures Valid() && held == old(held) - lease.resources && lease.stage == Released
    {
      held := held - lease.resources;
      lease.stage := Released;
      forall r
        ensures r in held <==> exists l :: l in leases && l.stage != Released && r in l.resources
      {
        if r in held {
          var l :| l in leases && old(l.stage) != Released && r in l.resources;
          assert l.stage != Released;
        }
      }
    }

    /** Releasing twice gives back once. */
    method Release(lease: Lease)
      requires Valid() && lease in leases
      modifies this`held, lease
      ensures Valid()
      ensures old(lease.stage) == Held ==> held == old(held) - lease.resources && lease.stage == Released
      ensures old(lease.stage) != Held ==> held == old(held) && lease.stage == old(lease.stage)
    {
      var first := BeginRelease(lease);
      if first {
        GiveBack(lease);
      }
    }
  }

  // -------------------------------------------------------------------- across processes

  type Process = nat

  datatype Stage = Climbing | Owning | Backing

  /** What a process asked for, in order, and how many of them it has. */
  datatype Claim = Claim(wanted: seq<Resource>, got: nat, stage: Stage)

  datatype Mutexes = Mutexes(owner: map<Resource, Process>, claims: map<Process, Claim>)

  predicate Sorted(wanted: seq<Resource>) {
    forall i, j :: 0 <= i < j < |wanted| ==> wanted[i] < wanted[j]
  }

  ghost predicate Has(c: Claim, r: Resource) {
    exists i :: 0 <= i < c.got && i < |c.wanted| && c.wanted[i] == r
  }

  ghost predicate Owned(s: Mutexes, p: Process, r: Resource)
    requires p in s.claims
  {
    Has(s.claims[p], r) ==> r in s.owner && s.owner[r] == p
  }

  ghost predicate Consistent(s: Mutexes) {
    && (forall p :: p in s.claims ==> Sorted(s.claims[p].wanted) && s.claims[p].got <= |s.claims[p].wanted|)
    && (forall p, r :: p in s.claims ==> Owned(s, p, r))
    && (forall r :: r in s.owner ==> s.owner[r] in s.claims && Has(s.claims[s.owner[r]], r))
    && (forall p :: p in s.claims && s.claims[p].stage == Owning ==> s.claims[p].got == |s.claims[p].wanted|)
  }

  datatype Action = Ask(p: Process, wanted: seq<Resource>) | Grab(p: Process) | GiveUp(p: Process) | LetGo(p: Process) | Depart(p: Process) | Die(p: Process)

  predicate CanGrab(s: Mutexes, p: Process) {
    p in s.claims && s.claims[p].stage == Climbing && s.claims[p].got < |s.claims[p].wanted| && s.claims[p].wanted[s.claims[p].got] !in s.owner
  }

  /** One step of one process.  A failed or canceled acquire, and a release, back off in reverse order;
      the mutexes of a process that dies become free. */
  function Step(s: Mutexes, a: Action): Mutexes {
    match a
    case Ask(p, wanted) =>
      if p in s.claims || !Sorted(wanted) then s
      else s.(claims := s.claims[p := Claim(wanted, 0, if wanted == [] then Owning else Climbing)])
    case Grab(p) =>
      if !CanGrab(s, p) then s
      else
        var c := s.claims[p];
        Mutexes(s.owner[c.wanted[c.got] := p],
                s.claims[p := c.(got := c.got + 1, stage := if c.got + 1 == |c.wanted| then Owning else Climbing)])
    case GiveUp(p) => if p !in s.claims then s else s.(claims := s.claims[p := s.claims[p].(stage := Backing)])
    case LetGo(p) =>
      if p !in s.claims || s.claims[p].stage != Backing || s.claims[p].got == 0 || s.claims[p].got > |s.claims[p].wanted| then s
      else
        var c := s.claims[p];
        Mutexes(s.owner - {c.wanted[c.got - 1]}, s.claims[p := c.(got := c.got - 1)])
    case Depart(p) => if p !in s.claims || s.claims[p].stage != Backing || s.claims[p].got != 0 then s else s.(claims := s.claims - {p})
    case Die(p) => Mutexes(map r | r in s.owner && s.owner[r] != p :: s.owner[r], s.claims - {p})
  }

  function Run(s: Mutexes, actions: seq<Action>): Mutexes {
    if actions == [] then s else Step(Run(s, actions[..|actions| - 1]), actions[|actions| - 1])
  }

  lemma GrabConsistent(s: Mutexes, p: Process)
    requires Consistent(s) && CanGrab(s, p)
    ensures Consistent(Step(s, Grab(p)))
  {
    var c, t := s.claims[p], Step(s, Grab(p));
    var next := c.wanted[c.got];
    forall q, r | q in t.claims && Has(t.claims[q], r)
      ensures Owned(t, q, r)
    {
      assert Owned(s, q, r);
      if q == p {
        var i :| 0 <= i < c.got + 1 && c.wanted[i] == r;
        assert i < c.got ==> Has(c, r);
      }
    }
    forall r | r in t.owner
      ensures t.owner[r] in t.claims && Has(t.claims[t.owner[r]], r)
    {
      if r == next {
        assert t.claims[p].wanted[c.got] == next;
      } else if s.owner[r] == p {
        var i :| 0 <= i < c.got && c.wanted[i] == r;
        assert t.claims[p].wanted[i] == r;
      }
    }
  }

  lemma LetGoConsistent(s: Mutexes, p: Process)
    requires Consistent(s) && p in s.claims && s.claims[p].stage == Backing && s.claims[p].got > 0
    ensures Consistent(Step(s, LetGo(p)))
  {
    var c, t := s.claims[p], Step(s, LetGo(p));
    var last := c.wanted[c.got - 1];
    assert Owned(s, p, last) && Has(c, last);
    forall q, r | q in t.claims && Has(t.claims[q], r)
      ensures Owned(t, q, r)
    {
      assert Owned(s, q, r);
      if q == p {
        var i :| 0 <= i < c.got - 1 && c.wanted[i] == r;
        assert c.wanted[i] < last && Has(c, r);
      }
    }
    forall r | r in t.owner
      ensures t.owner[r] in t.claims && Has(t.claims[t.owner[r]], r)
    {
      if s.owner[r] == p {
        var i :| 0 <= i < c.got && c.wanted[i] == r;
        assert i < c.got - 1 && t.claims[p].wanted[i] == r;
      }
    }
  }

  lemma DieConsistent(s: Mutexes, p: Process)
    requires Consistent(s)
    ensures Consistent(Step(s, Die(p)))
  {
    var t := Step(s, Die(p));
    forall q, r | q in t.claims
      ensures Owned(t, q, r)
    {
      assert Owned(s, q, r);
    }
  }

  lemma DepartConsistent(s: Mutexes, p: Process)
    requires Consistent(s) && p in s.claims && s.claims[p].got == 0
    ensures Consistent(s.(claims := s.claims - {p}))
  {
    var t := s.(claims := s.claims - {p});
    forall q, r | q in t.claims
      ensures Owned(t, q, r)
    {
      assert Owned(s, q, r);
    }
  }

  /** Changing only the claim of one process, without touching what it has. */
  lemma ClaimConsistent(s: Mutexes, p: Process, c: Claim)
    requires Consistent(s) && Sorted(c.wanted) && c.got <= |c.wanted| && (c.stage == Owning ==> c.got == |c.wanted|)
    requires if p in s.claims then c.wanted == s.claims[p].wanted && c.got == s.claims[p].got else c.got == 0
    ensures Consistent(s.(claims := s.claims[p := c]))
  {
    var t := s.(claims := s.claims[p := c]);
    forall q, r | q in t.claims
      ensures Owned(t, q, r)
    {
      if q in s.claims {
        assert Owned(s, q, r);
      }
    }
  }

  lemma StepKeepsConsistent(s: Mutexes, a: Action)
    requires Consistent(s)
    ensures Consistent(Step(s, a))
  {
    if a.Die? {
      DieConsistent(s, a.p);
    } else if a.Ask? && a.p !in s.claims && Sorted(a.wanted) {
      ClaimConsistent(s, a.p, Claim(a.wanted, 0, if a.wanted == [] then Owning else Climbing));
    } else if a.GiveUp? && a.p in s.claims {
      ClaimConsistent(s, a.p, s.claims[a.p].(stage := Backing));
    } else if a.Depart? && a.p in s.claims && s.claims[a.p].got == 0 {
      DepartConsistent(s, a.p);
    }
    if a.Grab? && CanGrab(s, a.p) {
      GrabConsistent(s, a.p);
    } else if a.LetGo? && a.p in s.claims && s.claims[a.p].stage == Backing && s.claims[a.p].got > 0 {
      LetGoConsistent(s, a.p);
    }
  }

  lemma {:induction false} RunIsConsistent(actions: seq<Action>)
    ensures Consistent(Run(Mutexes(map[], map[]), actions))
  {
    if actions != [] {
      RunIsConsistent(actions[..|actions| - 1]);
      StepKeepsConsistent(Run(Mutexes(map[], map[]), actions[..|actions| - 1]), actions[|actions| - 1]);
    }
  }

  // ------------------------------------------------------------------------ no deadlock

  predicate Waits(s: Mutexes, p: Process) {
    p in s.claims && s.claims[p].stage == Climbing && s.claims[p].got < |s.claims[p].wanted|
  }

  function Awaited(s: Mutexes, p: Process): Resource
    requires Waits(s, p)
  {
    s.claims[p].wanted[s.claims[p].got]
  }

  /** The process waits for a mutex the other one owns. */
  predicate WaitsFor(s: Mutexes, p: Process, q: Process) {
    Waits(s, p) && Awaited(s, p) in s.owner && s.owner[Awaited(s, p)] == q
  }

  /** Whoever one waits for waits, if at all, for something later in the order. */
  lemma WaitsRise(s: Mutexes, p: Process, q: Process)
    requires Consistent(s) && WaitsFor(s, p, q) && Waits(s, q)
    ensures Awaited(s, p) < Awaited(s, q)
  {
    assert Has(s.claims[q], Awaited(s, p));
    var i :| 0 <= i < s.claims[q].got && s.claims[q].wanted[i] == Awaited(s, p);
  }

  /** A chain of processes, each waiting for the next. */
  ghost predicate Chain(s: Mutexes, ps: seq<Process>) {
    forall i :: 0 <= i < |ps| - 1 ==> WaitsFor(s, ps[i], ps[i + 1])
  }

  lemma {:induction false} ChainRises(s: Mutexes, ps: seq<Process>, n: nat)
    requires Consistent(s) && Chain(s, ps) && 0 < n < |ps| && Waits(s, ps[n])
    ensures Waits(s, ps[0]) && Awaited(s, ps[0]) < Awaited(s, ps[n])
  {
    assert WaitsFor(s, ps[n - 1], ps[n - 1 + 1]);
    WaitsRise(s, ps[n - 1], ps[n]);
    if n > 1 {
      ChainRises(s, ps, n - 1);
    }
  }

  /** In every run of any number of processes the wait-for graph has no cycle. */
  lemma NoDeadlock(actions: seq<Action>, ps: seq<Process>)
    requires Chain(Run(Mutexes(map[], map[]), actions), ps) && |ps| >= 2
    ensures ps[0] != ps[|ps| - 1]
  {
    var s := Run(Mutexes(map[], map[]), actions);
    RunIsConsistent(actions);
    if ps[0] == ps[|ps| - 1] {
      assert WaitsFor(s, ps[0], ps[0 + 1]);
      ChainRises(s, ps, |ps| - 1);
    }
  }

  /** The waiting process whose mutex is latest in the order. */
  lemma {:induction false} Latest(s: Mutexes, waiting: set<Process>) returns (p: Process)
    requires waiting != {} && forall q :: q in waiting ==> Waits(s, q)
    ensures p in waiting && Waits(s, p) && forall q :: q in waiting ==> Awaited(s, q) <= Awaited(s, p)
    decreases |waiting|
  {
    var q :| q in waiting;
    var rest := waiting - {q};
    if rest == {} {
      p := q;
      assert waiting == {q};
    } else {
      var best := Latest(s, rest);
      p := if Awaited(s, best) < Awaited(s, q) then q else best;
    }
  }

  lemma NotBehindAll(s: Mutexes, p: Process)
    requires Consistent(s) && Waits(s, p) && forall q :: q in s.claims ==> Waits(s, q) && Awaited(s, q) <= Awaited(s, p)
    ensures Awaited(s, p) !in s.owner
  {
    if Awaited(s, p) in s.owner {
      WaitsRise(s, p, s.owner[Awaited(s, p)]);
    }
  }

  /** If every process that has anything is still waiting, one of them can go on at once. */
  lemma SomeoneCanGoOn(s: Mutexes)
    requires Consistent(s) && s.claims != map[] && forall p :: p in s.claims ==> Waits(s, p)
    ensures exists p :: CanGrab(s, p)
  {
    var any :| any in s.claims;
    assert any in s.claims.Keys;
    var p := Latest(s, s.claims.Keys);
    NotBehindAll(s, p);
    assert CanGrab(s, p);
  }

  /** A process that has backed off completely, or died, owns nothing. */
  lemma DepartedOwnsNothing(actions: seq<Action>, p: Process)
    requires var s := Run(Mutexes(map[], map[]), actions); p !in s.claims || s.claims[p].got == 0
    ensures var s := Run(Mutexes(map[], map[]), actions); forall r :: r in s.owner ==> s.owner[r] != p
  {
    RunIsConsistent(actions);
  }

  /** No mutex has two owners: two processes never hold a common resource. */
  lemma Exclusive(actions: seq<Action>, p: Process, q: Process, r: Resource)
    requires var s := Run(Mutexes(map[], map[]), actions); p in s.claims && q in s.claims && Has(s.claims[p], r) && Has(s.claims[q], r)
    ensures p == q
  {
    var s := Run(Mutexes(map[], map[]), actions);
    RunIsConsistent(actions);
    assert Owned(s, p, r) && Owned(s, q, r);
  }
}
