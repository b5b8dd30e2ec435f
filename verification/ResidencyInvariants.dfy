/** Lease safety and the VRAM budget of the residency manager, for every interleaving of starts,
    leases, idle watchers and StopAll. */
module ResidencyInvariants {
  import opened Basics
  import opened ResidencyMachine

  /** Both mutexes have the owner that the program counters say. */
  ghost predicate MutexInv(s: State) {
    && (forall t :: t in s.pc ==> (s.pc[t].OwnsExec() <==> s.exec == Some(t)))
    && (forall t :: t in s.pc ==> (s.pc[t].OwnsStart() <==> s.startMu == Some(t)))
  }

  /** The instance under lease, if the owner of execMu is between Acquire and release. */
  ghost function Lease(s: State): Option<Name> {
    if s.exec.Some? && s.exec.value in s.pc && s.pc[s.exec.value].Leased? then Some(s.pc[s.exec.value].name) else None
  }

  /** `active` is one for the leased instance and zero for all others; a leased instance is resident. */
  ghost predicate LeaseInv(insts: Insts, lease: Option<Name>) {
    && (forall n :: n in insts ==> insts[n].active == if lease == Some(n) then 1 else 0)
    && (forall n :: lease == Some(n) ==> n in insts && insts[n].resident)
  }

  ghost predicate Down(insts: Insts, n: Name) { n in insts && !insts[n].resident }

  ghost predicate Up(insts: Insts, n: Name) { n in insts && insts[n].resident }

  ghost predicate Idle(insts: Insts, n: Name) { Up(insts, n) && insts[n].active <= 0 }

  /** The candidates collected so far are the residents that are not still to be looked at. */
  ghost predicate Collected(insts: Insts, todo: set<Name>, seen: map<Name, Time>) {
    && (forall m :: m in seen ==> Up(insts, m))
    && (forall m :: Up(insts, m) && m !in todo ==> m in seen)
  }

  /** Of the candidates before `at` exactly the kept ones are still up; the others all are, and
      nobody else is. */
  ghost predicate Passed(insts: Insts, order: seq<Name>, at: nat, kept: set<Name>) {
    && (forall i, j :: 0 <= i < j < |order| ==> order[i] != order[j])
    && (forall i :: 0 <= i < |order| ==> (Up(insts, order[i]) <==> i >= at || order[i] in kept))
    && (forall m :: Up(insts, m) ==> m in order)
    && (forall m :: m in kept ==> Up(insts, m)) && (forall i :: at <= i < |order| ==> order[i] !in kept)
  }

  /** The residents met so far: the idle ones are idle still. */
  ghost predicate Met(insts: Insts, todo: set<Name>, idle: map<Name, Time>, busy: set<Name>) {
    && (forall m :: m in idle ==> Idle(insts, m))
    && (forall m :: Up(insts, m) && m !in todo ==> m in idle || m in busy)
  }

  /** What a thread inside `start` knows about the instances. */
  ghost predicate Knows(insts: Insts, pc: Pc) {
    match pc
    case StopOthers(n, _, _) => Down(insts, n)
    case Collect(n, _, todo, seen, _) => Down(insts, n) && Collected(insts, todo, seen)
    case MakeRoom(n, _, order, at, _, kept, _) => Down(insts, n) && Passed(insts, order, at, kept)
    case Launch(n, _) => Down(insts, n)
    case FindVictim(n, _, todo, idle, busy) => Down(insts, n) && Met(insts, todo, idle, busy)
    case StopVictim(n, _, v) => Down(insts, n) && Idle(insts, v)
    case Started(n, _) => Up(insts, n)
    case _ => true
  }

  ghost predicate KnowsInv(s: State) {
    forall t :: t in s.pc ==> Knows(s.insts, s.pc[t])
  }

  ghost predicate Inv(s: State) {
    && s.cfg.Valid() && (forall n :: n in s.insts <==> n in s.cfg.vram)
    && MutexInv(s) && LeaseInv(s.insts, Lease(s)) && KnowsInv(s)
  }

  lemma InitInv(cfg: Config, threads: set<Thread>, s: State)
    requires cfg.Valid() && IsInit(cfg, threads, s)
    ensures Inv(s)
  {}

  /** The same instances are registered, with the same residency. */
  ghost predicate SameResidents(a: Insts, b: Insts) {
    && (forall n :: n in a <==> n in b)
    && (forall n :: n in a ==> (a[n].resident <==> b[n].resident))
  }

  /** Besides, no instance is leased anew. */
  ghost predicate Calm(a: Insts, b: Insts) {
    SameResidents(a, b) && forall n :: n in a ==> b[n].active <= a[n].active
  }

  lemma CalmKnows(a: Insts, b: Insts, pc: Pc)
    requires Calm(a, b) && Knows(a, pc)
    ensures Knows(b, pc)
  {
    assert forall m :: Up(a, m) <==> Up(b, m);
  }

  /** Only the owner of startMu changes residency or takes a lease, so what other threads know stays
      true. */
  lemma OthersKnow(s: State, insts: Insts, t: Thread, pc: Pc)
    requires MutexInv(s) && KnowsInv(s) && t in s.pc
    requires Calm(s.insts, insts) || s.startMu == Some(t)
    requires Knows(insts, pc)
    ensures var pcs := s.pc[t := pc]; forall u :: u in pcs ==> Knows(insts, pcs[u])
  {
    forall u | u in s.pc && u != t ensures Knows(insts, s.pc[u]) {
      assert Knows(s.insts, s.pc[u]);
      if s.startMu == Some(t) { assert !s.pc[u].OwnsStart(); } else { CalmKnows(s.insts, insts, s.pc[u]); }
    }
  }

  /** A thread that neither takes nor gives a lease or mutex steps on. */
  lemma LocalStep(s: State, t: Thread, insts: Insts, pc: Pc)
    requires Inv(s) && t in s.pc
    requires pc.OwnsExec() == s.pc[t].OwnsExec() && pc.OwnsStart() == s.pc[t].OwnsStart()
    requires !pc.Leased? && !s.pc[t].Leased?
    requires SameResidents(s.insts, insts) || (s.startMu == Some(t) && forall n :: n in s.insts <==> n in insts)
    requires forall n :: n in insts ==>
             insts[n].active == s.insts[n].active && (insts[n].active > 0 ==> insts[n].resident)
    requires Knows(insts, pc)
    ensures Inv(At(s.(insts := insts), t, pc))
  {
    var u := At(s.(insts := insts), t, pc);
    OthersKnow(s, insts, t, pc);
    assert Lease(u) == Lease(s);
  }

  /** The same for a thread that gives back startMu. */
  lemma LeaveStep(s: State, t: Thread, insts: Insts, pc: Pc)
    requires Inv(s) && t in s.pc && s.pc[t].OwnsStart()
    requires pc.OwnsExec() == s.pc[t].OwnsExec() && !pc.OwnsStart() && !pc.Leased?
    requires forall n :: n in s.insts <==> n in insts
    requires forall n :: n in insts ==>
             insts[n].active == s.insts[n].active && (insts[n].active > 0 ==> insts[n].resident)
    requires Knows(insts, pc)
    ensures Inv(Leave(s.(insts := insts), t, pc))
  {
    var u := Leave(s.(insts := insts), t, pc);
    OthersKnow(s, insts, t, pc);
    assert Lease(u) == Lease(s);
  }

  /** Acquire hands out the lease: it owns execMu, so there was none. */
  lemma LeaseStep(s: State, t: Thread, insts: Insts, n: Name, acquire: bool)
    requires Inv(s) && t in s.pc && s.pc[t].InStart() && s.pc[t].acquire == acquire && n in insts && insts[n].resident
    requires SameResidents(s.insts, insts)
    requires forall m :: m in insts ==> insts[m].active == s.insts[m].active
    ensures Inv(Succeed(s.(insts := insts), t, n, acquire))
  {
    if acquire {
      var u := Succeed(s.(insts := insts), t, n, acquire);
      assert s.exec == Some(t) && Lease(s) == None;
      assert Lease(u) == Some(n);
      OthersKnow(s, u.insts, t, Leased(n));
    } else {
      LeaveStep(s, t, insts, Outside);
    }
  }

  lemma LockKeeps(s: State, t: Thread)
    requires Inv(s) && CanLock(s, t)
    ensures Inv(LockStep(s, t))
  {
    var u := LockStep(s, t);
    OthersKnow(s, s.insts, t, u.pc[t]);
    assert Lease(u) == Lease(s);
  }

  lemma CheckKeeps(s: State, t: Thread, n: Name, exclusive: bool, acquire: bool, now: Time)
    requires Inv(s) && t in s.pc && s.pc[t] == Check(n, exclusive, acquire)
    ensures Inv(CheckStep(s, t, n, exclusive, acquire, now))
  {
    if n in s.insts && s.insts[n].resident {
      LeaseStep(s, t, Touch(s.insts, n, now), n, acquire);
    } else {
      var u := CheckStep(s, t, n, exclusive, acquire, now);
      assert u == At(s.(insts := s.insts), t, u.pc[t]);
      LocalStep(s, t, s.insts, u.pc[t]);
    }
  }

  lemma CollectKeeps(s: State, t: Thread, pick: Name, order: seq<Name>)
    requires Inv(s) && CanGo(s, t, pick, order) && s.pc[t].Collect?
    ensures Inv(CollectStep(s, t, s.pc[t], pick, order))
  {
    var pc, u := s.pc[t], CollectStep(s, t, s.pc[t], pick, order);
    assert Knows(s.insts, pc);
    if pc.todo == {} { OrderIsPassed(s.insts, pc.seen, order); }
    assert u == At(s.(insts := s.insts), t, u.pc[t]);
    LocalStep(s, t, s.insts, u.pc[t]);
  }

  /** The sorted candidates are the residents. */
  lemma OrderIsPassed(insts: Insts, seen: map<Name, Time>, order: seq<Name>)
    requires Collected(insts, {}, seen) && Ordered(seen, order)
    ensures Passed(insts, order, 0, {})
  {
    forall i | 0 <= i < |order| ensures Up(insts, order[i]) { assert order[i] in order; }
  }

  /** The turn at c: it was idle and is stopped, or it is kept. */
  lemma TurnPasses(insts: Insts, order: seq<Name>, at: nat, kept: set<Name>)
    requires Passed(insts, order, at, kept) && at < |order|
    ensures Up(insts, order[at])
    ensures Passed(insts, order, at + 1, kept + {order[at]})
    ensures order[at] !in kept && Passed(Stop(insts, order[at]), order, at + 1, kept)
  {
    assert order[at] !in kept;
  }

  lemma MakeRoomKeeps(s: State, t: Thread)
    requires Inv(s) && t in s.pc && s.pc[t].MakeRoom?
    ensures Inv(MakeRoomStep(s, t, s.pc[t]))
  {
    var pc, u := s.pc[t], MakeRoomStep(s, t, s.pc[t]);
    assert Knows(s.insts, pc);
    if pc.at < |pc.order| { TurnPasses(s.insts, pc.order, pc.at, pc.kept); }
    assert u == At(s.(insts := u.insts), t, u.pc[t]);
    LocalStep(s, t, u.insts, u.pc[t]);
  }

  lemma ScanKeeps(s: State, t: Thread, pick: Name, order: seq<Name>)
    requires Inv(s) && CanGo(s, t, pick, order) && s.pc[t].FindVictim?
    ensures Inv(At(s, t, Scanned(s.insts, s.pc[t], pick)))
  {
    var pc := Scanned(s.insts, s.pc[t], pick);
    assert Knows(s.insts, s.pc[t]);
    assert At(s, t, pc) == At(s.(insts := s.insts), t, pc);
    LocalStep(s, t, s.insts, pc);
  }

  lemma LaunchKeeps(s: State, t: Thread, n: Name, acquire: bool, now: Time, outcome: Outcome)
    requires Inv(s) && t in s.pc && s.pc[t] == Launch(n, acquire) && n in s.insts
    ensures Inv(LaunchStep(s, t, n, acquire, now, outcome))
  {
    assert Knows(s.insts, s.pc[t]);
    var u := LaunchStep(s, t, n, acquire, now, outcome);
    assert u == At(s.(insts := u.insts), t, u.pc[t]);
    LocalStep(s, t, u.insts, u.pc[t]);
  }

  /** The release closure: the lease ends before execMu is given back. */
  lemma ReleaseKeeps(s: State, t: Thread, now: Time, outcome: Outcome, pick: Name, order: seq<Name>)
    requires Inv(s) && t in s.pc && (s.pc[t].Leased? || s.pc[t].Released?)
    ensures Inv(GoStep(s, t, now, outcome, pick, order))
  {
    var u := GoStep(s, t, now, outcome, pick, order);
    assert s.exec == Some(t);
    OthersKnow(s, u.insts, t, u.pc[t]);
    assert Lease(u) == None;
  }

  /** The sections that stop instances, and the remaining ones. */
  lemma StopsKeep(s: State, t: Thread, now: Time, outcome: Outcome, pick: Name, order: seq<Name>)
    requires Inv(s) && CanGo(s, t, pick, order)
    requires s.pc[t].StopOthers? || s.pc[t].StopVictim? || (s.pc[t].StopAll? && s.pc[t].todo != {})
    ensures Inv(GoStep(s, t, now, outcome, pick, order))
  {
    assert Knows(s.insts, s.pc[t]);
    var u := GoStep(s, t, now, outcome, pick, order);
    assert s.pc[t].StopAll? ==> s.exec == Some(t) && Lease(s) == None;
    assert u == At(s.(insts := u.insts), t, u.pc[t]);
    LocalStep(s, t, u.insts, u.pc[t]);
  }

  lemma LeavesKeep(s: State, t: Thread, now: Time, outcome: Outcome, pick: Name, order: seq<Name>)
    requires Inv(s) && CanGo(s, t, pick, order)
    requires s.pc[t].Watch? || s.pc[t].Failed? || (s.pc[t].StopAll? && s.pc[t].todo == {})
    ensures Inv(GoStep(s, t, now, outcome, pick, order))
  {
    var u := GoStep(s, t, now, outcome, pick, order);
    assert u == Leave(s.(insts := u.insts), t, u.pc[t]);
    LeaveStep(s, t, u.insts, u.pc[t]);
  }

  lemma GoKeeps(s: State, t: Thread, now: Time, outcome: Outcome, pick: Name, order: seq<Name>)
    requires Inv(s) && CanGo(s, t, pick, order)
    ensures Inv(GoStep(s, t, now, outcome, pick, order))
  {
    assert Knows(s.insts, s.pc[t]);
    match s.pc[t]
    case Check(n, exclusive, acquire) => CheckKeeps(s, t, n, exclusive, acquire, now);
    case Collect(_, _, _, _, _) => CollectKeeps(s, t, pick, order);
    case MakeRoom(_, _, _, _, _, _, _) => MakeRoomKeeps(s, t);
    case Launch(n, acquire) => LaunchKeeps(s, t, n, acquire, now, outcome);
    case Started(n, acquire) => LeaseStep(s, t, s.insts, n, acquire);
    case Leased(_) => ReleaseKeeps(s, t, now, outcome, pick, order);
    case Released => ReleaseKeeps(s, t, now, outcome, pick, order);
    case StopOthers(_, _, _) => StopsKeep(s, t, now, outcome, pick, order);
    case FindVictim(_, _, _, _, _) => ScanKeeps(s, t, pick, order);
    case StopVictim(_, _, _) => StopsKeep(s, t, now, outcome, pick, order);
    case StopAll(todo) =>
      if todo == {} {
        LeavesKeep(s, t, now, outcome, pick, order);
      } else {
        StopsKeep(s, t, now, outcome, pick, order);
      }
    case Watch(_) => LeavesKeep(s, t, now, outcome, pick, order);
    case Failed(_) => LeavesKeep(s, t, now, outcome, pick, order);
    case _ =>
  }

  lemma BumpKeeps(s: State, n: Name, now: Time)
    requires Inv(s) && n in s.insts
    ensures Inv(s.(insts := Touch(s.insts, n, now)))
  {
    var u := s.(insts := Touch(s.insts, n, now));
    forall t | t in s.pc ensures Knows(u.insts, u.pc[t]) { CalmKnows(s.insts, u.insts, s.pc[t]); }
    assert Lease(u) == Lease(s);
  }

  lemma NextKeeps(s: State, a: Step)
    requires Inv(s) && Enabled(s, a)
    ensures Inv(Next(s, a))
  {
    match a
    case Begin(t, call) =>
      assert At(s, t, call) == At(s.(insts := s.insts), t, call);
      LocalStep(s, t, s.insts, call);
    case Lock(t) => LockKeeps(s, t);
    case Go(t, now, outcome, pick, order) => GoKeeps(s, t, now, outcome, pick, order);
    case Bump(n, now) => if n in s.insts { BumpKeeps(s, n, now); }
  }

  lemma {:induction false} RunInv(cfg: Config, threads: set<Thread>, run: seq<State>, steps: seq<Step>, i: nat)
    requires IsRun(cfg, threads, run, steps) && i < |run|
    ensures Inv(run[i])
  {
    if i == 0 {
      InitInv(cfg, threads, run[0]);
    } else {
      RunInv(cfg, threads, run, steps, i - 1);
      assert Enabled(run[i-1], steps[i-1]);
      NextKeeps(run[i-1], steps[i-1]);
    }
  }
}
