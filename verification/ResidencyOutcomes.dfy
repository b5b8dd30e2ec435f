/** What the steps of a start, of an idle watcher and of StopAll come to in every run, told from what
    the launches report and when instances are used. */
module ResidencyOutcomes {
  import opened Basics
  import opened ResidencyMachine
  import opened ResidencyInvariants
  import opened ResidencyBudget
  import opened ResidencyStarts

  /** Exactly instance n may have gone up or down. */
  ghost predicate OthersStay(a: Insts, b: Insts, n: Name) { forall m :: m != n ==> (Up(a, m) <==> Up(b, m)) }

  // ---------- launches ----------

  /** What a launch comes to: a healthy one starts the instance, one that ran out of memory begins a
      scan for a victim, and any other failure is final. No other instance goes up or down. */
  lemma LaunchOutcome(cfg: Config, threads: set<Thread>, run: seq<State>, steps: seq<Step>, i: nat, t: Thread)
    requires IsRun(cfg, threads, run, steps) && i < |steps| && steps[i].Go? && steps[i].t == t && run[i].pc[t].Launch?
    ensures var n, acquire, u := run[i].pc[t].name, run[i].pc[t].acquire, run[i+1];
            && OthersStay(run[i].insts, u.insts, n)
            && match steps[i].outcome {
                 case Healthy => Up(u.insts, n) && u.pc[t] == Started(n, acquire)
                 case OutOfMemory =>
                   && Down(u.insts, n) && u.pc[t].FindVictim? && u.pc[t].name == n && u.pc[t].acquire == acquire
                   && u.pc[t].idle == map[] && u.pc[t].busy == {}
                 case _ => Down(u.insts, n) && u.pc[t] == Failed(acquire)
               }
  {
    RunInv(cfg, threads, run, steps, i);
    assert Knows(run[i].insts, run[i].pc[t]);
  }

  /** A scan for a victim begins only with a launch that ran out of memory. */
  lemma ScansOnlyAfterOom(cfg: Config, threads: set<Thread>, run: seq<State>, steps: seq<Step>, i: nat, t: Thread)
    requires IsRun(cfg, threads, run, steps) && i < |steps| && t in run[i].pc && t in run[i+1].pc
    requires !run[i].pc[t].FindVictim? && run[i+1].pc[t].FindVictim?
    ensures steps[i].Go? && steps[i].t == t && run[i].pc[t].Launch? && steps[i].outcome == OutOfMemory
  {
    RunInv(cfg, threads, run, steps, i);
    EntersScan(run[i], steps[i], t);
  }

  lemma EntersScan(s: State, a: Step, t: Thread)
    requires Inv(s) && Enabled(s, a) && t in s.pc && t in Next(s, a).pc
    requires !s.pc[t].FindVictim? && Next(s, a).pc[t].FindVictim?
    ensures a.Go? && a.t == t && s.pc[t].Launch? && a.outcome == OutOfMemory
  {
    if a.Go? && a.t == t { GoEntersScan(s, a, t); } else { ElseStays(s, a, t); }
  }

  lemma GoEntersScan(s: State, a: Step, t: Thread)
    requires Inv(s) && Enabled(s, a) && a.Go? && a.t == t && !s.pc[t].FindVictim? && Next(s, a).pc[t].FindVictim?
    ensures s.pc[t].Launch? && a.outcome == OutOfMemory
  {
    assert Knows(s.insts, s.pc[t]);
  }

  /** Why an instance goes down: it is in its turn of an exclusive start, of the eviction for room, of a
      retry, of its idle watcher, or of StopAll. A launch that fails stops nobody else. */
  ghost predicate MayStop(pc: Pc, pick: Name, m: Name) {
    || (pc.StopOthers? && pick == m && m in pc.todo) || (pc.MakeRoom? && pc.at < |pc.order| && pc.order[pc.at] == m)
    || (pc.StopVictim? && pc.victim == m) || (pc.Watch? && pc.name == m) || (pc.StopAll? && pick == m && m in pc.todo)
  }

  lemma StopHasCause(s: State, a: Step, m: Name)
    requires Inv(s) && Enabled(s, a) && Up(s.insts, m) && !Up(Next(s, a).insts, m)
    ensures a.Go? && s.insts[m].active == 0 && MayStop(s.pc[a.t], a.pick, m)
  {
    if a.Go? {
      assert Knows(s.insts, s.pc[a.t]);
      assert s.pc[a.t].StopAll? ==> Lease(s) == None;
    }
  }

  // ---------- last use ----------

  /** The step uses instance m: a look that finds it up, a launch that got as far as a process, the end
      of a lease, or a bump. */
  ghost predicate Uses(s: State, a: Step, m: Name) {
    m in s.insts &&
    match a
    case Bump(n, _) => n == m
    case Go(t, _, outcome, _, _) =>
      t in s.pc &&
      (match s.pc[t]
       case Check(n, _, _) => n == m && s.insts[m].resident
       case Launch(n, _) => n == m && outcome != NotLaunched
       case Leased(n) => n == m
       case _ => false)
    case _ => false
  }

  /** The clock at the last use before state i, zero without one. */
  ghost function LastUse(run: seq<State>, steps: seq<Step>, m: Name, i: nat): Time
    requires |run| == |steps| + 1 && i <= |steps|
  {
    if i == 0 then 0 else if Uses(run[i-1], steps[i-1], m) then steps[i-1].now else LastUse(run, steps, m, i - 1)
  }

  lemma StepUses(s: State, a: Step, m: Name)
    requires Inv(s) && Enabled(s, a) && m in s.insts
    ensures m in Next(s, a).insts
    ensures Next(s, a).insts[m].lastUsed == if Uses(s, a, m) then a.now else s.insts[m].lastUsed
  {
    if a.Go? { GoUses(s, a, m); }
  }

  lemma GoUses(s: State, a: Step, m: Name)
    requires Inv(s) && Enabled(s, a) && a.Go? && m in s.insts
    ensures m in Next(s, a).insts
    ensures Next(s, a).insts[m].lastUsed == if Uses(s, a, m) then a.now else s.insts[m].lastUsed
  {}

  /** `lastUsed` is the time of the last use, in every run. */
  lemma {:induction false} LastUsedIsLastUse(cfg: Config, threads: set<Thread>, run: seq<State>, steps: seq<Step>,
                                             m: Name, i: nat)
    requires IsRun(cfg, threads, run, steps) && i < |run| && m in cfg.vram
    ensures m in run[i].insts && run[i].insts[m].lastUsed == LastUse(run, steps, m, i)
  {
    if i > 0 {
      LastUsedIsLastUse(cfg, threads, run, steps, m, i - 1);
      RunInv(cfg, threads, run, steps, i - 1);
      StepUses(run[i-1], steps[i-1], m);
    }
  }

  // ---------- the idle watcher ----------

  /** The watcher of n stops it exactly if it is up without a lease and its last use is longer ago than
      its idle timeout; it stops nothing else. */
  lemma WatcherStopsTheUnused(cfg: Config, threads: set<Thread>, run: seq<State>, steps: seq<Step>, i: nat, t: Thread)
    requires IsRun(cfg, threads, run, steps) && i < |steps| && steps[i].Go? && steps[i].t == t && run[i].pc[t].Watch?
    ensures var n := run[i].pc[t].name;
            && OthersStay(run[i].insts, run[i+1].insts, n)
            && (Up(run[i].insts, n) ==> (!Up(run[i+1].insts, n) <==>
                 && run[i].insts[n].active == 0 && n in cfg.idleTimeout
                 && steps[i].now - LastUse(run, steps, n, i) > cfg.idleTimeout[n]))
            && (!Up(run[i].insts, n) ==> !Up(run[i+1].insts, n))
  {
    RunBudget(cfg, threads, run, steps, i, false);
    var n := run[i].pc[t].name;
    if n in cfg.vram { LastUsedIsLastUse(cfg, threads, run, steps, n, i); }
  }

  // ---------- whom the loops of a start look at ----------

  /** At step k the scan of t meets m, which is idle. */
  ghost predicate MeetsIdle(run: seq<State>, steps: seq<Step>, t: Thread, k: nat, m: Name)
    requires |run| == |steps| + 1
  {
    && k < |steps| && steps[k].Go? && steps[k].t == t && steps[k].pick == m
    && t in run[k].pc && run[k].pc[t].FindVictim? && m in run[k].pc[t].todo
    && Up(run[k].insts, m) && run[k].insts[m].active == 0
  }

  lemma IdleGrows(s: State, a: Step, t: Thread, m: Name)
    requires Inv(s) && Enabled(s, a) && t in s.pc && s.pc[t].FindVictim?
    requires t in Next(s, a).pc && Next(s, a).pc[t].FindVictim? && m in Next(s, a).pc[t].idle
    ensures (m in s.pc[t].idle && Next(s, a).pc[t].idle[m] == s.pc[t].idle[m]) ||
            (a.Go? && a.t == t && a.pick == m && m in s.pc[t].todo && Up(s.insts, m) && s.insts[m].active == 0
             && Next(s, a).pc[t].idle[m] == s.insts[m].lastUsed)
  {
    if !(a.Go? && a.t == t) { ElseStays(s, a, t); } else { assert Knows(s.insts, s.pc[t]); }
  }

  lemma ScanAt(cfg: Config, threads: set<Thread>, run: seq<State>, steps: seq<Step>, t: Thread, m: Name, i: nat)
    requires IsRun(cfg, threads, run, steps) && i < |steps| && t in run[i].pc && run[i].pc[t].FindVictim?
    requires t in run[i+1].pc && run[i+1].pc[t].FindVictim? && m in run[i+1].pc[t].idle
    ensures (m in run[i].pc[t].idle && run[i+1].pc[t].idle[m] == run[i].pc[t].idle[m]) ||
            (MeetsIdle(run, steps, t, i, m) && run[i+1].pc[t].idle[m] == run[i].insts[m].lastUsed)
  {
    RunInv(cfg, threads, run, steps, i);
    IdleGrows(run[i], steps[i], t, m);
  }

  /** What the scan notes of an idle resident is its last use when they met. */
  lemma {:induction false} IdleWasMet(cfg: Config, threads: set<Thread>, run: seq<State>, steps: seq<Step>,
                                      t: Thread, m: Name, h: nat, i: nat) returns (k: nat)
    requires IsRun(cfg, threads, run, steps) && Scans(run, t, h, i)
    requires run[h].pc[t].idle == map[] && m in run[i].pc[t].idle
    ensures h <= k < i && MeetsIdle(run, steps, t, k, m)
    ensures run[i].pc[t].idle[m] == run[k].insts[m].lastUsed
    decreases i
  {
    ScanAt(cfg, threads, run, steps, t, m, i - 1);
    if MeetsIdle(run, steps, t, i - 1, m) && run[i].pc[t].idle[m] == run[i-1].insts[m].lastUsed {
      k := i - 1;
    } else {
      k := IdleWasMet(cfg, threads, run, steps, t, m, h, i - 1);
    }
  }

  /** The victim of a retry is the least recently used of the idle residents, by their last uses when the
      scan met them. */
  lemma VictimIsLeastRecent(cfg: Config, threads: set<Thread>, run: seq<State>, steps: seq<Step>,
                            t: Thread, h: nat, i: nat, m: Name) returns (v: Name, j: nat, k: nat)
    requires IsRun(cfg, threads, run, steps) && Scans(run, t, h, i) && run[h].pc[t].idle == map[]
    requires i < |steps| && steps[i].Go? && steps[i].t == t && run[i+1].pc[t].StopVictim? && m in run[i].pc[t].idle
    ensures v == run[i+1].pc[t].victim && h <= j < i && MeetsIdle(run, steps, t, j, v)
    ensures h <= k < i && MeetsIdle(run, steps, t, k, m) && v in cfg.vram && m in cfg.vram
    ensures LastUse(run, steps, v, j) <= LastUse(run, steps, m, k)
  {
    v := run[i+1].pc[t].victim;
    assert Enabled(run[i], steps[i]);
    j := IdleWasMet(cfg, threads, run, steps, t, v, h, i);
    k := IdleWasMet(cfg, threads, run, steps, t, m, h, i);
    RunBudget(cfg, threads, run, steps, j, false);
    RunBudget(cfg, threads, run, steps, k, false);
    LastUsedIsLastUse(cfg, threads, run, steps, v, j);
    LastUsedIsLastUse(cfg, threads, run, steps, m, k);
  }

  /** In all states from h to i thread t collects the candidates for an eviction. */
  ghost predicate Collects(run: seq<State>, t: Thread, h: nat, i: nat) {
    h <= i < |run| && forall k :: h <= k <= i ==> t in run[k].pc && run[k].pc[t].Collect?
  }

  lemma SeenGrows(s: State, a: Step, t: Thread, m: Name)
    requires Inv(s) && Enabled(s, a) && t in s.pc && s.pc[t].Collect?
    requires t in Next(s, a).pc && Next(s, a).pc[t].Collect? && m in Next(s, a).pc[t].seen
    ensures (m in s.pc[t].seen && Next(s, a).pc[t].seen[m] == s.pc[t].seen[m]) ||
            (a.Go? && a.t == t && a.pick == m && Up(s.insts, m) && Next(s, a).pc[t].seen[m] == s.insts[m].lastUsed)
  {
    if !(a.Go? && a.t == t) { ElseStays(s, a, t); }
  }

  lemma CollectAt(cfg: Config, threads: set<Thread>, run: seq<State>, steps: seq<Step>, t: Thread, m: Name, i: nat)
    requires IsRun(cfg, threads, run, steps) && i < |steps| && t in run[i].pc && run[i].pc[t].Collect?
    requires t in run[i+1].pc && run[i+1].pc[t].Collect? && m in run[i+1].pc[t].seen
    ensures (m in run[i].pc[t].seen && run[i+1].pc[t].seen[m] == run[i].pc[t].seen[m]) ||
            (Up(run[i].insts, m) && run[i+1].pc[t].seen[m] == run[i].insts[m].lastUsed)
  {
    RunInv(cfg, threads, run, steps, i);
    SeenGrows(run[i], steps[i], t, m);
  }

  /** The time that is collected for a candidate is its last use when it was looked at. */
  lemma {:induction false} CollectedIsLastUse(cfg: Config, threads: set<Thread>, run: seq<State>, steps: seq<Step>,
                                              t: Thread, m: Name, h: nat, i: nat) returns (k: nat)
    requires IsRun(cfg, threads, run, steps) && Collects(run, t, h, i)
    requires run[h].pc[t].seen == map[] && m in run[i].pc[t].seen
    ensures h <= k < i && Up(run[k].insts, m) && m in cfg.vram && run[i].pc[t].seen[m] == LastUse(run, steps, m, k)
    decreases i
  {
    CollectAt(cfg, threads, run, steps, t, m, i - 1);
    if m in run[i-1].pc[t].seen && run[i].pc[t].seen[m] == run[i-1].pc[t].seen[m] {
      k := CollectedIsLastUse(cfg, threads, run, steps, t, m, h, i - 1);
    } else {
      k := i - 1;
      RunBudget(cfg, threads, run, steps, k, false);
      LastUsedIsLastUse(cfg, threads, run, steps, m, k);
    }
  }

  // ---------- the first look, and room ----------

  /** A start fails at its first look exactly if the instance is unknown, or if it is down, the start is
      not exclusive, and its estimate exceeds a positive limit. One that is up is not launched. */
  lemma FirstLook(cfg: Config, threads: set<Thread>, run: seq<State>, steps: seq<Step>, i: nat, t: Thread)
    requires IsRun(cfg, threads, run, steps) && i < |steps| && steps[i].Go? && steps[i].t == t && run[i].pc[t].Check?
    ensures var pc, u := run[i].pc[t], run[i+1].pc[t];
            && (u.Failed? <==>
                  pc.name !in cfg.vram || (!Up(run[i].insts, pc.name) && !pc.exclusive
                                           && 0 < cfg.limit < cfg.vram[pc.name]))
            && (Up(run[i].insts, pc.name) ==> if pc.acquire then u == Leased(pc.name) else u == Outside)
            && (!Up(run[i].insts, pc.name) && pc.exclusive && pc.name in cfg.vram ==>
                 u == StopOthers(pc.name, pc.acquire, run[i].insts.Keys - {pc.name}))
  {
    RunBudget(cfg, threads, run, steps, i, false);
  }

  /** After the count a start launches at once exactly if there is room beside the residents. */
  lemma LaunchesIfRoom(cfg: Config, threads: set<Thread>, run: seq<State>, steps: seq<Step>, i: nat, t: Thread)
    requires IsRun(cfg, threads, run, steps) && i < |steps| && steps[i].Go? && steps[i].t == t
    requires run[i].pc[t].Collect? && run[i].pc[t].todo == {}
    ensures forall m :: m in run[i].insts ==> m in cfg.vram
    ensures run[i].pc[t].name in cfg.vram
    ensures var pc, u := run[i].pc[t], run[i+1].pc[t];
            && (u == Launch(pc.name, pc.acquire)
                <==> Sum(cfg.vram, Residents(run[i].insts)) + cfg.vram[pc.name] <= cfg.limit)
            && (u.MakeRoom? || u == Launch(pc.name, pc.acquire)) && (u.MakeRoom? ==> u.at == 0 && u.seen == pc.seen)
  {
    RunBudget(cfg, threads, run, steps, i, false);
    assert PcBudget(run[i].cfg, run[i].insts, run[i].pc[t], false);
    assert Residents(run[i].insts) - {} == Residents(run[i].insts);
  }

  // ---------- exclusive starts and StopAll ----------

  ghost predicate PcStops(lease: Option<Name>, insts: Insts, pc: Pc) {
    match pc
    case StopOthers(n, acquire, todo) => OneSeen(lease, acquire, Residents(insts) - todo)
    case StopAll(todo) => Residents(insts) <= todo
    case _ => true
  }

  lemma ExclusiveTurn(s: State, a: Step, t: Thread)
    requires Inv(s) && Enabled(s, a) && a.Go? && a.t == t && s.pc[t].StopOthers? && s.pc[t].todo != {}
    requires PcStops(Lease(s), s.insts, s.pc[t])
    ensures t in Next(s, a).pc && PcStops(Lease(Next(s, a)), Next(s, a).insts, Next(s, a).pc[t])
  {
    var pc, pick, u := s.pc[t], a.pick, Next(s, a);
    assert Lease(u) == Lease(s);
    if pick in s.insts && s.insts[pick].active != 0 {
      SeeOne(s, t, Residents(s.insts) - pc.todo, pick);
      assert Residents(u.insts) - (pc.todo - {pick}) <= Residents(s.insts) - pc.todo + {pick};
    } else {
      assert Residents(u.insts) - (pc.todo - {pick}) <= Residents(s.insts) - pc.todo;
    }
  }

  lemma StopAllTurn(s: State, a: Step, t: Thread)
    requires Inv(s) && Enabled(s, a) && a.Go? && a.t == t && s.pc[t].StopAll?
    requires PcStops(Lease(s), s.insts, s.pc[t])
    ensures t in Next(s, a).pc && PcStops(Lease(Next(s, a)), Next(s, a).insts, Next(s, a).pc[t])
  {}

  lemma CheckTurn(s: State, a: Step, t: Thread)
    requires Inv(s) && Enabled(s, a) && a.Go? && a.t == t && s.pc[t].Check?
    ensures t in Next(s, a).pc && PcStops(Lease(Next(s, a)), Next(s, a).insts, Next(s, a).pc[t])
  {
    var u := Next(s, a);
    if u.pc[t].StopOthers? { assert Residents(u.insts) - u.pc[t].todo == {}; }
  }

  lemma OtherTurn(s: State, a: Step, t: Thread)
    requires Enabled(s, a) && a.Go? && a.t == t && !s.pc[t].Check? && !s.pc[t].StopAll?
    requires s.pc[t].StopOthers? ==> s.pc[t].todo == {}
    ensures t in Next(s, a).pc && !Next(s, a).pc[t].StopOthers? && !Next(s, a).pc[t].StopAll?
  {}

  lemma LockStops(s: State, a: Step, t: Thread)
    requires Inv(s) && Enabled(s, a) && (a.Begin? || a.Lock?) && a.t == t
    ensures t in Next(s, a).pc && PcStops(Lease(Next(s, a)), Next(s, a).insts, Next(s, a).pc[t])
  {}

  /** Nobody else changes residency while t holds startMu. */
  lemma HeldIsFrozen(s: State, a: Step, t: Thread)
    requires Inv(s) && Enabled(s, a) && t in s.pc && s.pc[t].OwnsStart() && (a.Bump? || a.t != t)
    ensures SameResidents(s.insts, Next(s, a).insts)
  {
    if a.Go? { assert !s.pc[a.t].OwnsStart(); }
  }

  lemma ElseStops(s: State, a: Step, t: Thread)
    requires Inv(s) && Enabled(s, a) && t in s.pc && (a.Bump? || a.t != t) && PcStops(Lease(s), s.insts, s.pc[t])
    ensures t in Next(s, a).pc && PcStops(Lease(Next(s, a)), Next(s, a).insts, Next(s, a).pc[t])
  {
    ElsePc(s, a, t);
    if s.pc[t].StopOthers? || s.pc[t].StopAll? {
      HeldIsFrozen(s, a, t);
      assert Residents(Next(s, a).insts) == Residents(s.insts);
      if s.pc[t].StopOthers? { NoNewLease(s, a, t); }
    }
  }

  lemma ElsePc(s: State, a: Step, t: Thread)
    requires Enabled(s, a) && t in s.pc && (a.Bump? || a.t != t)
    ensures t in Next(s, a).pc && Next(s, a).pc[t] == s.pc[t]
  {}

  lemma StepStops(s: State, a: Step, t: Thread)
    requires Inv(s) && Enabled(s, a) && t in s.pc && PcStops(Lease(s), s.insts, s.pc[t])
    ensures t in Next(s, a).pc && PcStops(Lease(Next(s, a)), Next(s, a).insts, Next(s, a).pc[t])
  {
    if a.Bump? || a.t != t { ElseStops(s, a, t); }
    else if !a.Go? { LockStops(s, a, t); }
    else if s.pc[t].Check? { CheckTurn(s, a, t); }
    else if s.pc[t].StopAll? { StopAllTurn(s, a, t); }
    else if s.pc[t].StopOthers? && s.pc[t].todo != {} { ExclusiveTurn(s, a, t); }
    else { OtherTurn(s, a, t); }
  }

  lemma {:induction false} RunStops(cfg: Config, threads: set<Thread>, run: seq<State>, steps: seq<Step>,
                                    t: Thread, i: nat)
    requires IsRun(cfg, threads, run, steps) && i < |run| && t in threads
    ensures t in run[i].pc && PcStops(Lease(run[i]), run[i].insts, run[i].pc[t])
  {
    if i > 0 {
      RunStops(cfg, threads, run, steps, t, i - 1);
      RunInv(cfg, threads, run, steps, i - 1);
      StepStops(run[i-1], steps[i-1], t);
    }
  }

  /** An exclusive start that comes to its launch has stopped every other instance but at most one that
      was leased in its turn, and every one if Acquire made the start. */
  lemma ExclusiveStopsOthers(cfg: Config, threads: set<Thread>, run: seq<State>, steps: seq<Step>, i: nat, t: Thread)
    requires IsRun(cfg, threads, run, steps) && i < |run| && t in threads && t in run[i].pc
    requires run[i].pc[t].StopOthers? && run[i].pc[t].todo == {}
    ensures forall a, b :: Up(run[i].insts, a) && Up(run[i].insts, b) ==> a == b
    ensures run[i].pc[t].acquire ==> NoneUp(run[i].insts)
  {
    RunStops(cfg, threads, run, steps, t, i);
    assert Residents(run[i].insts) - {} == Residents(run[i].insts);
    assert forall m :: Up(run[i].insts, m) ==> m in Residents(run[i].insts);
  }

  /** When StopAll has walked over all instances, none is up. */
  lemma StopAllStopsAll(cfg: Config, threads: set<Thread>, run: seq<State>, steps: seq<Step>, i: nat, t: Thread)
    requires IsRun(cfg, threads, run, steps) && i < |run| && t in threads && t in run[i].pc
    requires run[i].pc[t].StopAll? && run[i].pc[t].todo == {}
    ensures NoneUp(run[i].insts)
  {
    RunStops(cfg, threads, run, steps, t, i);
    assert forall m :: Up(run[i].insts, m) ==> m in Residents(run[i].insts);
  }
}
