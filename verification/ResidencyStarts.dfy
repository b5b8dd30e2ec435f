/** What becomes of a start, whatever other threads do meanwhile: whom it evicts, when it is refused,
    how often it retries, and when it gives up. */
module ResidencyStarts {
  import opened Basics
  import opened ResidencyMachine
  import opened ResidencyInvariants
  import opened ResidencyBudget

  // ---------- who is met under lease ----------

  /** Residents that a start has passed because they were leased: at most one, still the only one that
      can be leased; none at all if the start belongs to Acquire. */
  ghost predicate OneSeen(lease: Option<Name>, acquire: bool, seen: set<Name>) {
    && (acquire ==> seen == {})
    && (forall a, b :: a in seen && b in seen ==> a == b)
    && (forall a :: a in seen && lease.Some? ==> a == lease.value)
  }

  /** Besides, the eviction loop walks the candidates in the order of their collected times. */
  ghost predicate PcSeen(lease: Option<Name>, pc: Pc) {
    match pc
    case MakeRoom(_, acquire, order, _, _, kept, seen) => OneSeen(lease, acquire, kept) && Ordered(seen, order)
    case FindVictim(_, acquire, _, _, busy) => OneSeen(lease, acquire, busy)
    case _ => true
  }

  ghost predicate SeenInv(s: State) {
    forall t :: t in s.pc ==> PcSeen(Lease(s), s.pc[t])
  }

  /** While t is inside `start` no other thread gets a lease. */
  lemma NoNewLease(s: State, a: Step, t: Thread)
    requires Inv(s) && Enabled(s, a) && t in s.pc && s.pc[t].InStart() && (a.Bump? || a.t != t)
    ensures Lease(Next(s, a)) == Lease(s) || Lease(Next(s, a)) == None
  {
    if a.Go? { assert !s.pc[a.t].OwnsStart(); }
  }

  /** A start of Acquire owns execMu, so nobody else can hold a lease. */
  lemma AcquireMeetsNoLease(s: State, t: Thread)
    requires Inv(s) && t in s.pc && s.pc[t].InStart() && s.pc[t].acquire
    ensures Lease(s) == None && forall m :: m in s.insts ==> s.insts[m].active == 0
  {
    assert s.pc[t].OwnsExec();
  }

  lemma SeeOne(s: State, t: Thread, seen: set<Name>, c: Name)
    requires Inv(s) && t in s.pc && s.pc[t].InStart() && OneSeen(Lease(s), s.pc[t].acquire, seen)
    requires c in s.insts && s.insts[c].active != 0
    ensures OneSeen(Lease(s), s.pc[t].acquire, seen + {c})
  {
    if s.pc[t].acquire { AcquireMeetsNoLease(s, t); }
    assert Lease(s) == Some(c);
  }

  lemma RoomTurnSeen(s: State, t: Thread)
    requires Inv(s) && SeenInv(s) && t in s.pc && s.pc[t].MakeRoom?
    ensures var u := MakeRoomStep(s, t, s.pc[t]); PcSeen(Lease(u), u.pc[t])
  {
    var pc, u := s.pc[t], MakeRoomStep(s, t, s.pc[t]);
    assert PcSeen(Lease(s), pc) && Knows(s.insts, pc) && Lease(u) == Lease(s);
    if pc.at < |pc.order| {
      TurnPasses(s.insts, pc.order, pc.at, pc.kept);
      if s.insts[pc.order[pc.at]].active != 0 { SeeOne(s, t, pc.kept, pc.order[pc.at]); }
    }
  }

  lemma ScanTurnSeen(s: State, t: Thread, pick: Name)
    requires Inv(s) && SeenInv(s) && t in s.pc && s.pc[t].FindVictim?
    ensures var u := At(s, t, Scanned(s.insts, s.pc[t], pick)); PcSeen(Lease(u), u.pc[t])
  {
    var u := At(s, t, Scanned(s.insts, s.pc[t], pick));
    assert PcSeen(Lease(s), s.pc[t]) && Lease(u) == Lease(s);
    if pick in s.insts && s.insts[pick].active != 0 { SeeOne(s, t, s.pc[t].busy, pick); }
  }

  lemma OwnTurnSeen(s: State, a: Step, t: Thread)
    requires Inv(s) && SeenInv(s) && Enabled(s, a) && a.Go? && a.t == t
    ensures t in Next(s, a).pc && PcSeen(Lease(Next(s, a)), Next(s, a).pc[t])
  {
    if s.pc[t].MakeRoom? { RoomTurnSeen(s, t); }
    else if s.pc[t].FindVictim? { ScanTurnSeen(s, t, a.pick); }
    else { FreshTurnSeen(s, a, t); }
  }

  /** A loop that begins: nobody is met yet, and the candidates are in order. */
  ghost predicate Fresh(pc: Pc) {
    (pc.MakeRoom? ==> pc.kept == {} && Ordered(pc.seen, pc.order)) && (pc.FindVictim? ==> pc.busy == {})
  }

  /** A turn of a thread that has met nobody. */
  lemma FreshTurnSeen(s: State, a: Step, t: Thread)
    requires Inv(s) && Enabled(s, a) && a.Go? && a.t == t && !s.pc[t].MakeRoom? && !s.pc[t].FindVictim?
    ensures t in Next(s, a).pc && Fresh(Next(s, a).pc[t])
  {
    if s.pc[t].Check? { CheckIsFresh(s, a, t); }
    else if s.pc[t].Collect? { CollectIsFresh(s, a, t); }
    else if s.pc[t].Launch? { LaunchIsFresh(s, a, t); }
    else { OthersAreFresh(s, a, t); }
  }

  lemma CheckIsFresh(s: State, a: Step, t: Thread)
    requires Enabled(s, a) && a.Go? && a.t == t && s.pc[t].Check?
    ensures t in Next(s, a).pc && Fresh(Next(s, a).pc[t])
  {}

  lemma CollectIsFresh(s: State, a: Step, t: Thread)
    requires Enabled(s, a) && a.Go? && a.t == t && s.pc[t].Collect?
    ensures t in Next(s, a).pc && Fresh(Next(s, a).pc[t])
  {}

  lemma LaunchIsFresh(s: State, a: Step, t: Thread)
    requires Enabled(s, a) && a.Go? && a.t == t && s.pc[t].Launch?
    ensures t in Next(s, a).pc && Fresh(Next(s, a).pc[t])
  {}

  lemma OthersAreFresh(s: State, a: Step, t: Thread)
    requires Enabled(s, a) && a.Go? && a.t == t && !s.pc[t].MakeRoom? && !s.pc[t].FindVictim?
    requires !s.pc[t].Check? && !s.pc[t].Collect? && !s.pc[t].Launch?
    ensures t in Next(s, a).pc && Fresh(Next(s, a).pc[t])
  {}

  lemma ThreadSeen(s: State, a: Step, t: Thread)
    requires Inv(s) && SeenInv(s) && Enabled(s, a) && t in Next(s, a).pc
    ensures PcSeen(Lease(Next(s, a)), Next(s, a).pc[t])
  {
    if a.Go? && a.t == t { OwnTurnSeen(s, a, t); } else { ElseSeen(s, a, t); }
  }

  /** A step of somebody else leaves t where it is. */
  lemma ElseStays(s: State, a: Step, t: Thread)
    requires Enabled(s, a) && t in Next(s, a).pc && !(a.Go? && a.t == t)
    ensures t in s.pc && (Next(s, a).pc[t] == s.pc[t] || (a.Begin? && a.t == t) || (a.Lock? && a.t == t))
  {
    if a.Go? { GoLocal(s, a, t); }
  }

  lemma GoLocal(s: State, a: Step, t: Thread)
    requires Enabled(s, a) && a.Go? && t in Next(s, a).pc && a.t != t
    ensures t in s.pc && Next(s, a).pc[t] == s.pc[t]
  {}

  lemma ElseSeen(s: State, a: Step, t: Thread)
    requires Inv(s) && SeenInv(s) && Enabled(s, a) && t in Next(s, a).pc && !(a.Go? && a.t == t)
    ensures PcSeen(Lease(Next(s, a)), Next(s, a).pc[t])
  {
    ElseStays(s, a, t);
    if Next(s, a).pc[t] == s.pc[t] {
      assert PcSeen(Lease(s), s.pc[t]);
      if s.pc[t].InStart() { NoNewLease(s, a, t); }
    }
  }

  lemma NextSeen(s: State, a: Step)
    requires Inv(s) && SeenInv(s) && Enabled(s, a)
    ensures SeenInv(Next(s, a))
  {
    forall t | t in Next(s, a).pc ensures PcSeen(Lease(Next(s, a)), Next(s, a).pc[t]) { ThreadSeen(s, a, t); }
  }

  lemma InitSeen(cfg: Config, threads: set<Thread>, s: State)
    requires cfg.Valid() && IsInit(cfg, threads, s)
    ensures Inv(s) && SeenInv(s)
  {
    InitInv(cfg, threads, s);
  }

  lemma {:induction false} RunSeen(cfg: Config, threads: set<Thread>, run: seq<State>, steps: seq<Step>, i: nat)
    requires IsRun(cfg, threads, run, steps) && i < |run|
    ensures Inv(run[i]) && SeenInv(run[i])
  {
    if i == 0 {
      InitSeen(cfg, threads, run[0]);
    } else {
      RunSeen(cfg, threads, run, steps, i - 1);
      NextKeeps(run[i-1], steps[i-1]);
      NextSeen(run[i-1], steps[i-1]);
    }
  }

  // ---------- eviction for room ----------

  /** In the eviction loop of any run: of the candidates, in last-used order, exactly those before the
      present position that were not passed under lease have been stopped; what is left does not make
      room yet; and at most one was passed, none by Acquire. */
  lemma EvictsPrefix(cfg: Config, threads: set<Thread>, run: seq<State>, steps: seq<Step>, i: nat, t: Thread)
    requires IsRun(cfg, threads, run, steps) && i < |run| && t in run[i].pc && run[i].pc[t].MakeRoom?
    ensures var s, pc := run[i], run[i].pc[t];
            && (forall k ::
                0 <= k < |pc.order| ==> (Up(s.insts, pc.order[k]) <==> k >= pc.at || pc.order[k] in pc.kept))
            && (forall m :: Up(s.insts, m) ==> m in pc.order)
            && (forall a, b :: 0 <= a < b < |pc.order| ==>
                  && pc.order[a] != pc.order[b] && pc.order[a] in pc.seen && pc.order[b] in pc.seen
                  && pc.seen[pc.order[a]] <= pc.seen[pc.order[b]])
            && (forall a, b :: a in pc.kept && b in pc.kept ==> a == b) && (pc.acquire ==> pc.kept == {})
    ensures forall m :: m in run[i].insts ==> m in cfg.vram
    ensures run[i].pc[t].name in cfg.vram
            && Sum(cfg.vram, Residents(run[i].insts)) + cfg.vram[run[i].pc[t].name] > cfg.limit
  {
    RunSeen(cfg, threads, run, steps, i);
    RunBudget(cfg, threads, run, steps, i, false);
    var s, pc := run[i], run[i].pc[t];
    assert Knows(s.insts, pc) && PcSeen(Lease(s), pc) && PcBudget(s.cfg, s.insts, pc, false);
  }

  /** The eviction loop makes no exception for a resident without memory cost: its turn stops it exactly
      if it is idle, and the loop goes on to the next one. */
  lemma ZeroCostTurn(cfg: Config, threads: set<Thread>, run: seq<State>, steps: seq<Step>, i: nat, t: Thread)
    requires IsRun(cfg, threads, run, steps) && i < |steps| && steps[i].Go? && steps[i].t == t
    requires run[i].pc[t].MakeRoom? && run[i].pc[t].at < |run[i].pc[t].order|
    requires var c := run[i].pc[t].order[run[i].pc[t].at]; c in cfg.vram && cfg.vram[c] == 0
    ensures var pc, c := run[i].pc[t], run[i].pc[t].order[run[i].pc[t].at];
            && run[i+1].pc[t].MakeRoom? && run[i+1].pc[t].at == pc.at + 1
            && c in run[i].insts && Up(run[i].insts, c) && (Up(run[i+1].insts, c) <==> run[i].insts[c].active > 0)
  {
    RunBudget(cfg, threads, run, steps, i, false);
    assert Knows(run[i].insts, run[i].pc[t]) && PcBudget(run[i].cfg, run[i].insts, run[i].pc[t], false);
  }

  /** A start that is refused for lack of room was not made by Acquire, and has stopped every other
      resident but at most one, which was leased when it was passed and with which the request exceeds
      the limit. */
  lemma RefusalMeansLease(cfg: Config, threads: set<Thread>, run: seq<State>, steps: seq<Step>, i: nat, t: Thread)
    requires IsRun(cfg, threads, run, steps) && i < |steps| && steps[i].Go? && steps[i].t == t
    requires run[i].pc[t].MakeRoom? && run[i+1].pc[t].Failed?
    ensures var pc := run[i].pc[t];
            && !pc.acquire && Residents(run[i].insts) == pc.kept && run[i+1].insts == run[i].insts
            && (forall a, b :: a in pc.kept && b in pc.kept ==> a == b)
    ensures forall m :: m in run[i].pc[t].kept ==> m in cfg.vram
    ensures run[i].pc[t].name in cfg.vram
            && Sum(cfg.vram, run[i].pc[t].kept) + cfg.vram[run[i].pc[t].name] > cfg.limit >= cfg.vram[run[i].pc[t].name]
  {
    EvictsPrefix(cfg, threads, run, steps, i, t);
    RunBudget(cfg, threads, run, steps, i, false);
    var s, pc := run[i], run[i].pc[t];
    assert Knows(s.insts, pc) && PcBudget(s.cfg, s.insts, pc, false);
    assert forall m :: m in Residents(s.insts) <==> Up(s.insts, m);
    assert Residents(s.insts) == pc.kept;
  }

  /** A start made by Acquire is never refused for lack of room if its need is within the limit. */
  lemma AcquireFindsRoom(cfg: Config, threads: set<Thread>, run: seq<State>, steps: seq<Step>, i: nat, t: Thread)
    requires IsRun(cfg, threads, run, steps) && i < |steps| && steps[i].Go? && steps[i].t == t
    requires run[i].pc[t].Check? || run[i].pc[t].Collect? || run[i].pc[t].MakeRoom?
    requires run[i].pc[t].acquire && run[i].pc[t].name in cfg.vram
             && (cfg.limit > 0 ==> cfg.vram[run[i].pc[t].name] <= cfg.limit)
    ensures !run[i+1].pc[t].Failed?
  {
    RunBudget(cfg, threads, run, steps, i, false);
    assert Knows(run[i].insts, run[i].pc[t]);
    if run[i].pc[t].MakeRoom? && run[i+1].pc[t].Failed? {
      RefusalMeansLease(cfg, threads, run, steps, i, t);
    }
  }

  // ---------- retries ----------

  /** A chosen victim is always stopped: the check before the stop never fails. */
  lemma VictimIsStopped(cfg: Config, threads: set<Thread>, run: seq<State>, steps: seq<Step>, i: nat, t: Thread)
    requires IsRun(cfg, threads, run, steps) && i < |steps| && steps[i].Go? && steps[i].t == t
             && run[i].pc[t].StopVictim?
    ensures var pc := run[i].pc[t];
            run[i+1].pc[t] == Launch(pc.name, pc.acquire) && Up(run[i].insts, pc.victim)
                && run[i+1].insts == Stop(run[i].insts, pc.victim)
  {
    RunInv(cfg, threads, run, steps, i);
    assert Knows(run[i].insts, run[i].pc[t]);
  }

  /** A start that gives up after running out of memory leaves its instance down, and every other
      resident was leased when the scan met it: that is at most one, and none if Acquire made the start. */
  lemma GivesUpOnlyForLease(cfg: Config, threads: set<Thread>, run: seq<State>, steps: seq<Step>, i: nat, t: Thread)
    requires IsRun(cfg, threads, run, steps) && i < |steps| && steps[i].Go? && steps[i].t == t
    requires run[i].pc[t].FindVictim? && run[i+1].pc[t].Failed?
    ensures var pc, insts := run[i].pc[t], run[i+1].insts;
            && Down(insts, pc.name) && (forall m :: Up(insts, m) ==> m in pc.busy)
            && (forall a, b :: Up(insts, a) && Up(insts, b) ==> a == b) && (pc.acquire ==> forall m :: !Up(insts, m))
  {
    RunSeen(cfg, threads, run, steps, i);
    assert Knows(run[i].insts, run[i].pc[t]) && PcSeen(Lease(run[i]), run[i].pc[t]);
  }

  /** A start that gives up does so beside leased residents only, exactly if none is left or the lease
      is out at that moment. */
  lemma GivesUpBesideLease(cfg: Config, threads: set<Thread>, run: seq<State>, steps: seq<Step>, i: nat, t: Thread)
    requires IsRun(cfg, threads, run, steps) && i < |steps| && steps[i].Go? && steps[i].t == t
    requires run[i].pc[t].FindVictim? && run[i+1].pc[t].Failed?
    ensures AllLeased(run[i+1].insts) <==> NoneUp(run[i+1].insts) || Lease(run[i]).Some?
  {
    RunSeen(cfg, threads, run, steps, i);
    GivesUpOnlyForLease(cfg, threads, run, steps, i, t);
    assert PcSeen(Lease(run[i]), run[i].pc[t]);
  }

  ghost predicate NoneUp(insts: Insts) { forall m :: !Up(insts, m) }

  ghost predicate AllLeased(insts: Insts) { forall m :: Up(insts, m) ==> insts[m].active > 0 }

  /** In all states from h to i thread t scans for a victim. */
  ghost predicate Scans(run: seq<State>, t: Thread, h: nat, i: nat) {
    h <= i < |run| && forall k :: h <= k <= i ==> t in run[k].pc && run[k].pc[t].FindVictim?
  }

  /** At step k the scan of t meets m, which is leased. */
  ghost predicate MeetsLeased(run: seq<State>, steps: seq<Step>, t: Thread, k: nat, m: Name)
    requires |run| == |steps| + 1
  {
    && k < |steps| && steps[k].Go? && steps[k].t == t && steps[k].pick == m
    && t in run[k].pc && run[k].pc[t].FindVictim? && m in run[k].pc[t].todo
    && Up(run[k].insts, m) && run[k].insts[m].active > 0
  }

  /** The step gives a lease back. */
  predicate Returns(s: State, a: Step) { a.Go? && a.t in s.pc && s.pc[a.t].Leased? }

  ghost predicate GivesBack(run: seq<State>, steps: seq<Step>, r: nat)
    requires |run| == |steps| + 1
  {
    r < |steps| && Returns(run[r], steps[r])
  }

  /** A step of the run while t scans: the lease ends exactly if it is given back. */
  lemma LeaseAcross(s: State, a: Step, t: Thread)
    requires Inv(s) && Enabled(s, a) && t in s.pc && s.pc[t].FindVictim?
    ensures Lease(Next(s, a)) == if Returns(s, a) then None else Lease(s)
  {
    if a.Bump? || a.t != t { NoNewLease(s, a, t); }
  }

  lemma LeaseAt(cfg: Config, threads: set<Thread>, run: seq<State>, steps: seq<Step>, t: Thread, i: nat)
    requires IsRun(cfg, threads, run, steps) && i < |steps| && t in run[i].pc && run[i].pc[t].FindVictim?
    ensures Lease(run[i+1]) == if GivesBack(run, steps, i) then None else Lease(run[i])
  {
    RunInv(cfg, threads, run, steps, i);
    LeaseAcross(run[i], steps[i], t);
  }

  lemma MetIsLease(cfg: Config, threads: set<Thread>, run: seq<State>, steps: seq<Step>, t: Thread, m: Name, k: nat)
    requires IsRun(cfg, threads, run, steps) && MeetsLeased(run, steps, t, k, m)
    ensures Lease(run[k+1]) == Lease(run[k]) == Some(m)
  {
    RunInv(cfg, threads, run, steps, k);
    LeaseAcross(run[k], steps[k], t);
  }

  /** A lease is given back between the two steps. */
  ghost predicate GivenBack(run: seq<State>, steps: seq<Step>, k: nat, i: nat)
    requires |run| == |steps| + 1
  {
    exists r: nat :: k < r < i && GivesBack(run, steps, r)
  }

  lemma GivenBackMore(run: seq<State>, steps: seq<Step>, k: nat, i: nat)
    requires |run| == |steps| + 1
    ensures !GivenBack(run, steps, k, k + 1)
    ensures k < i ==> (GivenBack(run, steps, k, i + 1) <==> GivenBack(run, steps, k, i) || GivesBack(run, steps, i))
  {
    if r: nat :| k < r < i && GivesBack(run, steps, r) { assert k < r < i + 1; }
  }

  /** A leased instance that the scan has met stays leased until a lease is given back, and is idle
      from then on. */
  lemma {:induction false} LeaseUntilGivenBack(cfg: Config, threads: set<Thread>, run: seq<State>, steps: seq<Step>,
                                               t: Thread, m: Name, k: nat, i: nat)
    requires IsRun(cfg, threads, run, steps) && Scans(run, t, k, i) && k < i && MeetsLeased(run, steps, t, k, m)
    ensures LeasedSince(run, steps, m, k, i)
    decreases i
  {
    if i == k + 1 {
      MetIsLease(cfg, threads, run, steps, t, m, k);
      GivenBackMore(run, steps, k, k);
    } else {
      LeaseUntilGivenBack(cfg, threads, run, steps, t, m, k, i - 1);
      LeaseAt(cfg, threads, run, steps, t, i - 1);
      LeasedOn(run, steps, m, k, i - 1);
    }
  }

  ghost predicate LeasedSince(run: seq<State>, steps: seq<Step>, m: Name, k: nat, i: nat)
    requires |run| == |steps| + 1 && i < |run|
  {
    Lease(run[i]) == if GivenBack(run, steps, k, i) then None else Some(m)
  }

  lemma LeasedOn(run: seq<State>, steps: seq<Step>, m: Name, k: nat, i: nat)
    requires |run| == |steps| + 1 && k < i < |steps| && LeasedSince(run, steps, m, k, i)
    requires Lease(run[i+1]) == if GivesBack(run, steps, i) then None else Lease(run[i])
    ensures LeasedSince(run, steps, m, k, i + 1)
  {
    GivenBackMore(run, steps, k, i);
  }

  lemma {:induction false} MetStaysUp(cfg: Config, threads: set<Thread>, run: seq<State>, steps: seq<Step>,
                                      t: Thread, m: Name, k: nat, i: nat)
    requires IsRun(cfg, threads, run, steps) && Scans(run, t, k, i) && Up(run[k].insts, m)
    ensures Up(run[i].insts, m)
    decreases i
  {
    if k < i {
      MetStaysUp(cfg, threads, run, steps, t, m, k, i - 1);
      RunInv(cfg, threads, run, steps, i - 1);
      assert Enabled(run[i-1], steps[i-1]);
      if steps[i-1].Bump? || steps[i-1].t != t { ResidencyIsFrozen(run[i-1], steps[i-1], t); }
    }
  }

  lemma BusyGrows(s: State, a: Step, t: Thread, m: Name)
    requires Inv(s) && Enabled(s, a) && t in s.pc && s.pc[t].FindVictim? && m !in s.pc[t].busy
    requires t in Next(s, a).pc && Next(s, a).pc[t].FindVictim? && m in Next(s, a).pc[t].busy
    ensures a.Go? && a.t == t && a.pick == m && m in s.pc[t].todo && Up(s.insts, m) && s.insts[m].active > 0
  {
    assert a.Go? && a.t == t;
  }

  /** Whom the scan counts as busy, it has met under lease. */
  lemma {:induction false} BusyWasMet(cfg: Config, threads: set<Thread>, run: seq<State>, steps: seq<Step>,
                                      t: Thread, m: Name, h: nat, i: nat) returns (k: nat)
    requires IsRun(cfg, threads, run, steps) && Scans(run, t, h, i) && run[h].pc[t].busy == {} && m in run[i].pc[t].busy
    ensures h <= k < i && MeetsLeased(run, steps, t, k, m)
    decreases i
  {
    if m in run[i-1].pc[t].busy {
      k := BusyWasMet(cfg, threads, run, steps, t, m, h, i - 1);
    } else {
      k := i - 1;
      RunInv(cfg, threads, run, steps, k);
      BusyGrows(run[k], steps[k], t, m);
    }
  }

  /** When does a start fail for want of memory beside leased residents only? Exactly if no lease is
      given back after its last scan has met the leased instance. */
  lemma FailsBesideLeasedOnly(cfg: Config, threads: set<Thread>, run: seq<State>, steps: seq<Step>,
                              t: Thread, h: nat, i: nat)
    requires IsRun(cfg, threads, run, steps) && Scans(run, t, h, i) && run[h].pc[t].busy == {}
    requires i < |steps| && steps[i].Go? && steps[i].t == t && run[i+1].pc[t].Failed?
    ensures AllLeased(run[i+1].insts) <==>
            forall k, m :: h <= k < i && MeetsLeased(run, steps, t, k, m) ==> !GivenBack(run, steps, k, i)
  {
    GivesUpOnlyForLease(cfg, threads, run, steps, i, t);
    GivesUpBesideLease(cfg, threads, run, steps, i, t);
    var insts := run[i].insts;
    assert run[i+1].insts == insts;
    if m :| Up(insts, m) {
      var k := BusyWasMet(cfg, threads, run, steps, t, m, h, i);
      assert Scans(run, t, k, i);
      LeaseUntilGivenBack(cfg, threads, run, steps, t, m, k, i);
    }
    forall k, m | h <= k < i && MeetsLeased(run, steps, t, k, m) && GivenBack(run, steps, k, i)
      ensures !AllLeased(run[i+1].insts)
    {
      MetStaysUp(cfg, threads, run, steps, t, m, k, i);
      assert Scans(run, t, k, i);
      LeaseUntilGivenBack(cfg, threads, run, steps, t, m, k, i);
    }
  }

  lemma RoomLeavesLeases(s: State, t: Thread)
    requires Inv(s) && t in s.pc && s.pc[t].MakeRoom?
    ensures var u := MakeRoomStep(s, t, s.pc[t]); forall m ::
            m in s.insts ==> m in u.insts && u.insts[m].active == s.insts[m].active
  {}

  /** A section of a start changes no `active` unless it hands out the lease. */
  lemma SectionLeavesLeases(s: State, a: Step)
    requires Inv(s) && Enabled(s, a) && a.Go? && s.pc[a.t].InStart() && !Next(s, a).pc[a.t].Leased?
    ensures forall m :: m in s.insts ==> m in Next(s, a).insts && Next(s, a).insts[m].active == s.insts[m].active
  {
    assert Knows(s.insts, s.pc[a.t]);
    if s.pc[a.t].MakeRoom? {
      RoomLeavesLeases(s, a.t);
    } else if s.pc[a.t].Retrying() {
      LoopLeavesLeases(s, a);
    }
  }

  lemma LoopLeavesLeases(s: State, a: Step)
    requires Inv(s) && Enabled(s, a) && a.Go? && s.pc[a.t].Retrying()
    ensures forall m :: m in s.insts ==> m in Next(s, a).insts && Next(s, a).insts[m].active == s.insts[m].active
  {
    if s.pc[a.t].Launch? { LaunchLeavesLeases(s, a); }
  }

  lemma LaunchLeavesLeases(s: State, a: Step)
    requires Enabled(s, a) && a.Go? && s.pc[a.t].Launch?
    ensures forall m :: m in s.insts ==> m in Next(s, a).insts && Next(s, a).insts[m].active == s.insts[m].active
  {}

  lemma FailureIsDown(s: State, a: Step)
    requires Inv(s) && Enabled(s, a) && a.Go? && s.pc[a.t].InStart() && !s.pc[a.t].Failed? && Next(s, a).pc[a.t].Failed?
    ensures !Up(Next(s, a).insts, s.pc[a.t].name)
  {
    assert Knows(s.insts, s.pc[a.t]);
  }

  /** No step of a start changes any `active` unless it succeeds, and a start that fails leaves its
      instance down. */
  lemma FailureLeavesLeases(cfg: Config, threads: set<Thread>, run: seq<State>, steps: seq<Step>, i: nat, t: Thread)
    requires IsRun(cfg, threads, run, steps) && i < |steps| && steps[i].Go? && steps[i].t == t && run[i].pc[t].InStart()
    requires !run[i].pc[t].Failed?
    ensures !run[i+1].pc[t].Leased? ==>
              forall m :: m in run[i].insts ==>
                  m in run[i+1].insts && run[i+1].insts[m].active == run[i].insts[m].active
    ensures run[i+1].pc[t].Failed? ==> !Up(run[i+1].insts, run[i].pc[t].name)
  {
    RunInv(cfg, threads, run, steps, i);
    if !run[i+1].pc[t].Leased? { SectionLeavesLeases(run[i], steps[i]); }
    if run[i+1].pc[t].Failed? { FailureIsDown(run[i], steps[i]); }
  }

  /** The residents other than n. */
  ghost function Others(insts: Insts, n: Name): set<Name> { Residents(insts) - {n} }

  /** Nobody else makes an instance resident meanwhile: while t is inside `start`, the steps of
      other threads leave residency alone. */
  lemma ResidencyIsFrozen(s: State, a: Step, t: Thread)
    requires Inv(s) && Enabled(s, a) && t in s.pc && s.pc[t].InStart() && (a.Bump? || a.t != t)
    ensures SameResidents(s.insts, Next(s, a).insts)
  {
    if a.Go? { assert !s.pc[a.t].OwnsStart(); }
  }

  /** In all states from i to j thread t is in the launch loop of one start of n. */
  ghost predicate InLoop(run: seq<State>, t: Thread, n: Name, i: nat, j: nat) {
    i <= j < |run| && forall k :: i <= k <= j ==> t in run[k].pc && run[k].pc[t].Retrying() && run[k].pc[t].name == n
  }

  /** How often t retries between states i and j. */
  ghost function Retries(run: seq<State>, t: Thread, n: Name, i: nat, j: nat): nat
    requires InLoop(run, t, n, i, j)
  {
    if i == j then 0
    else Retries(run, t, n, i, j - 1) + if run[j-1].pc[t].StopVictim? && run[j].pc[t].Launch? then 1 else 0
  }

  lemma SameOthers(a: Insts, b: Insts, n: Name)
    requires forall m :: m != n ==> (Up(a, m) <==> Up(b, m))
    ensures Others(a, n) == Others(b, n)
  {
    assert forall m :: m in Others(a, n) <==> Up(a, m) && m != n;
    assert forall m :: m in Others(b, n) <==> Up(b, m) && m != n;
  }

  /** The other residents that a step takes: one if it is a retry of t, none otherwise. */
  ghost predicate Lost(s: State, u: State, t: Thread, n: Name) {
    && t in s.pc && t in u.pc
    && |Others(u.insts, n)| + (if s.pc[t].StopVictim? && u.pc[t].Launch? then 1 else 0) == |Others(s.insts, n)|
  }

  /** A section of the launch loop that is no retry. */
  lemma LoopSection(s: State, a: Step, t: Thread, n: Name)
    requires Inv(s) && Enabled(s, a) && a.Go? && a.t == t && (s.pc[t].Launch? || s.pc[t].FindVictim?)
             && s.pc[t].name == n
    ensures Lost(s, Next(s, a), t, n)
  {
    LoopSpares(s, a, t, n);
    SameOthers(s.insts, Next(s, a).insts, n);
  }

  lemma LoopSpares(s: State, a: Step, t: Thread, n: Name)
    requires Inv(s) && Enabled(s, a) && a.Go? && a.t == t && (s.pc[t].Launch? || s.pc[t].FindVictim?)
             && s.pc[t].name == n
    ensures t in Next(s, a).pc && forall m :: m != n ==> (Up(s.insts, m) <==> Up(Next(s, a).insts, m))
  {}

  /** A retry. */
  lemma Retry(s: State, a: Step, t: Thread, n: Name)
    requires Inv(s) && Enabled(s, a) && a.Go? && a.t == t && s.pc[t].StopVictim? && s.pc[t].name == n
    ensures Next(s, a).pc[t].Launch? && Lost(s, Next(s, a), t, n)
  {
    assert Knows(s.insts, s.pc[t]);
    assert Others(Next(s, a).insts, n) == Others(s.insts, n) - {s.pc[t].victim};
  }

  /** A step of somebody else. */
  lemma ElseStep(s: State, a: Step, t: Thread, n: Name)
    requires Inv(s) && Enabled(s, a) && t in s.pc && s.pc[t].InStart() && (a.Bump? || a.t != t)
    ensures t in Next(s, a).pc && Next(s, a).pc[t] == s.pc[t] && Lost(s, Next(s, a), t, n)
  {
    ResidencyIsFrozen(s, a, t);
    SameOthers(s.insts, Next(s, a).insts, n);
  }

  lemma LoopStep(s: State, a: Step, t: Thread, n: Name)
    requires Inv(s) && Enabled(s, a) && t in s.pc && s.pc[t].Retrying() && s.pc[t].name == n
    ensures Lost(s, Next(s, a), t, n)
  {
    if a.Bump? || a.t != t {
      ElseStep(s, a, t, n);
    } else {
      assert a.Go?;
      if s.pc[t].StopVictim? { Retry(s, a, t, n); } else { LoopSection(s, a, t, n); }
    }
  }

  /** Every retry leaves one other resident fewer, and nothing else changes their number; so a start
      retries at most as often as there were other residents at its first launch. */
  lemma {:induction false} RetriesAreBounded(cfg: Config, threads: set<Thread>, run: seq<State>, steps: seq<Step>,
                                             t: Thread, n: Name, i: nat, j: nat)
    requires IsRun(cfg, threads, run, steps) && InLoop(run, t, n, i, j)
    ensures Retries(run, t, n, i, j) == |Others(run[i].insts, n)| - |Others(run[j].insts, n)|
    ensures Retries(run, t, n, i, j) <= |Others(run[i].insts, n)|
    decreases j
  {
    if i < j {
      RetriesAreBounded(cfg, threads, run, steps, t, n, i, j - 1);
      LoopAt(cfg, threads, run, steps, t, n, j - 1);
      RetriesNext(run, t, n, i, j - 1);
    }
  }

  lemma RetriesNext(run: seq<State>, t: Thread, n: Name, i: nat, j: nat)
    requires InLoop(run, t, n, i, j + 1) && InLoop(run, t, n, i, j) && Lost(run[j], run[j+1], t, n)
    requires Retries(run, t, n, i, j) == |Others(run[i].insts, n)| - |Others(run[j].insts, n)|
    ensures Retries(run, t, n, i, j + 1) == |Others(run[i].insts, n)| - |Others(run[j+1].insts, n)|
  {}

  lemma LoopAt(cfg: Config, threads: set<Thread>, run: seq<State>, steps: seq<Step>, t: Thread, n: Name, j: nat)
    requires IsRun(cfg, threads, run, steps) && j < |steps| && t in run[j].pc && run[j].pc[t].Retrying()
    requires run[j].pc[t].name == n
    ensures Lost(run[j], run[j+1], t, n)
  {
    RunInv(cfg, threads, run, steps, j);
    LoopStep(run[j], steps[j], t, n);
  }
}
