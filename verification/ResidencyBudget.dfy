/** The estimates of the residents in every run: what a start counts, and the limit. */
module ResidencyBudget {
  import opened Basics
  import opened ResidencyMachine
  import opened ResidencyInvariants

  /** What the owner of startMu may rely on. `plain` says that no start is exclusive. */
  ghost predicate PcBudget(cfg: Config, insts: Insts, pc: Pc, plain: bool)
    requires forall n :: n in insts ==> n in cfg.vram
  {
    match pc
    case WantStart(_, exclusive, _) => plain ==> !exclusive
    case Check(_, exclusive, _) => plain ==> !exclusive
    case StopOthers(_, _, _) => !plain
    case Collect(n, _, todo, _, used) =>
      n in cfg.vram && 0 < cfg.vram[n] <= cfg.limit && used == Sum(cfg.vram, Residents(insts) - todo)
    case MakeRoom(n, _, _, _, used, _, _) =>
      n in cfg.vram && 0 < cfg.vram[n] <= cfg.limit < used + cfg.vram[n] && used == Sum(cfg.vram, Residents(insts))
    case Launch(n, _) => plain ==> HasRoom(cfg, insts, n)
    case FindVictim(n, _, _, _, _) => plain ==> HasRoom(cfg, insts, n)
    case StopVictim(n, _, _) => plain ==> HasRoom(cfg, insts, n)
    case _ => true
  }

  ghost predicate HasRoom(cfg: Config, insts: Insts, n: Name)
    requires forall m :: m in insts ==> m in cfg.vram
  {
    n in cfg.vram && (cfg.limit > 0 ==> Sum(cfg.vram, Residents(insts)) + cfg.vram[n] <= cfg.limit)
  }

  ghost predicate BudgetInv(s: State, plain: bool)
    requires forall n :: n in s.insts ==> n in s.cfg.vram
  {
    && (plain && s.cfg.limit > 0 ==> Sum(s.cfg.vram, Residents(s.insts)) <= s.cfg.limit)
    && forall t :: t in s.pc ==> PcBudget(s.cfg, s.insts, s.pc[t], plain)
  }

  lemma SumStop(cfg: Config, insts: Insts, c: Name)
    requires (forall n :: n in insts ==> n in cfg.vram && cfg.vram[n] >= 0) && c in insts
    ensures Sum(cfg.vram, Residents(Stop(insts, c))) ==
            Sum(cfg.vram, Residents(insts)) - if insts[c].resident then cfg.vram[c] else 0
  {
    assert Residents(Stop(insts, c)) == Residents(insts) - {c};
    if insts[c].resident {
      SumMinus(cfg.vram, Residents(insts), c);
    } else {
      assert Residents(insts) - {c} == Residents(insts);
    }
  }

  lemma SumLaunch(cfg: Config, insts: Insts, n: Name, now: Time)
    requires (forall m :: m in insts ==> m in cfg.vram) && n in insts && !insts[n].resident
    ensures Sum(cfg.vram, Residents(insts[n := insts[n].(resident := true, lastUsed := now)])) ==
            Sum(cfg.vram, Residents(insts)) + cfg.vram[n]
  {
    var r := Residents(insts[n := insts[n].(resident := true, lastUsed := now)]);
    assert r - {n} == Residents(insts);
    SumMinus(cfg.vram, r, n);
  }

  /** A step in which t keeps startMu, or leaves it behind, keeps everybody's budget. */
  lemma BudgetStep(s: State, u: State, t: Thread, plain: bool)
    requires Inv(s) && BudgetInv(s, plain) && Inv(u) && u.cfg == s.cfg && t in s.pc && u.pc.Keys == s.pc.Keys
    requires forall x :: x in s.pc && x != t ==> u.pc[x] == s.pc[x]
    requires s.startMu == Some(t) || Residents(u.insts) == Residents(s.insts)
    requires plain && s.cfg.limit > 0 ==> Sum(u.cfg.vram, Residents(u.insts)) <= u.cfg.limit
    requires PcBudget(u.cfg, u.insts, u.pc[t], plain)
    ensures BudgetInv(u, plain)
  {
    forall x | x in u.pc ensures PcBudget(u.cfg, u.insts, u.pc[x], plain) {
      assert PcBudget(s.cfg, s.insts, s.pc[x], plain);
      if x != t && s.startMu == Some(t) { assert !s.pc[x].OwnsStart(); }
    }
  }

  lemma CheckBudget(s: State, t: Thread, n: Name, exclusive: bool, acquire: bool, now: Time, plain: bool)
    requires Inv(s) && BudgetInv(s, plain) && t in s.pc && s.pc[t] == Check(n, exclusive, acquire)
    ensures BudgetEffect(s, CheckStep(s, t, n, exclusive, acquire, now), t, plain)
  {
    assert PcBudget(s.cfg, s.insts, s.pc[t], plain);
    if n in s.insts && !s.insts[n].resident && s.cfg.limit > 0 && s.cfg.vram[n] <= 0 {
      assert s.cfg.vram[n] == 0;
    }
    if n in s.insts && !s.insts[n].resident { assert Residents(s.insts) - (s.insts.Keys - {n}) == {}; }
    assert Residents(CheckStep(s, t, n, exclusive, acquire, now).insts) == Residents(s.insts);
  }

  /** One more candidate is counted. */
  lemma SumCollect(cfg: Config, insts: Insts, todo: set<Name>, c: Name)
    requires (forall m :: m in insts ==> m in cfg.vram) && c in todo
    ensures Sum(cfg.vram, Residents(insts) - (todo - {c})) ==
            Sum(cfg.vram, Residents(insts) - todo) + if c in insts && insts[c].resident then cfg.vram[c] else 0
  {
    var before, after := Residents(insts) - todo, Residents(insts) - (todo - {c});
    if c in insts && insts[c].resident {
      assert after - {c} == before;
      SumMinus(cfg.vram, after, c);
    } else {
      assert after == before;
    }
  }

  lemma CollectBudget(s: State, t: Thread, pick: Name, order: seq<Name>, plain: bool)
    requires Inv(s) && BudgetInv(s, plain) && CanGo(s, t, pick, order) && s.pc[t].Collect?
    ensures BudgetEffect(s, CollectStep(s, t, s.pc[t], pick, order), t, plain)
  {
    assert PcBudget(s.cfg, s.insts, s.pc[t], plain);
    var todo := s.pc[t].todo;
    if todo == {} {
      assert Residents(s.insts) - todo == Residents(s.insts);
    } else {
      SumCollect(s.cfg, s.insts, todo, pick);
    }
  }

  lemma GoBudget(s: State, t: Thread, now: Time, outcome: Outcome, pick: Name, order: seq<Name>, plain: bool)
    requires Inv(s) && BudgetInv(s, plain) && CanGo(s, t, pick, order)
    ensures var u := GoStep(s, t, now, outcome, pick, order); u.cfg == s.cfg && Inv(u) && BudgetInv(u, plain)
  {
    var u := GoStep(s, t, now, outcome, pick, order);
    GoKeeps(s, t, now, outcome, pick, order);
    GoChanges(s, t, now, outcome, pick, order, plain);
    BudgetStep(s, u, t, plain);
  }

  /** What a section of t does to the estimate, and what t knows of it afterwards. */
  ghost predicate BudgetEffect(s: State, u: State, t: Thread, plain: bool)
    requires forall n :: n in s.insts ==> n in s.cfg.vram
  {
    && u.cfg == s.cfg && u.pc.Keys == s.pc.Keys && (forall x :: x in s.pc && x != t ==> u.pc[x] == s.pc[x])
    && (forall n :: n in u.insts <==> n in s.insts)
    && (s.startMu == Some(t) || Residents(u.insts) == Residents(s.insts))
    && (plain && s.cfg.limit > 0 ==> Sum(u.cfg.vram, Residents(u.insts)) <= u.cfg.limit)
    && t in u.pc && PcBudget(u.cfg, u.insts, u.pc[t], plain)
  }

  /** A turn that stops its candidate. */
  lemma RoomStopBudget(s: State, t: Thread, plain: bool)
    requires Inv(s) && BudgetInv(s, plain) && t in s.pc && s.pc[t].MakeRoom? && s.pc[t].at < |s.pc[t].order|
    requires var c := s.pc[t].order[s.pc[t].at]; c in s.insts && s.insts[c].resident && s.insts[c].active == 0
    ensures BudgetEffect(s, MakeRoomStep(s, t, s.pc[t]), t, plain)
  {
    var pc := s.pc[t];
    assert PcBudget(s.cfg, s.insts, pc, plain) && Knows(s.insts, pc);
    SumStop(s.cfg, s.insts, pc.order[pc.at]);
  }

  lemma MakeRoomBudget(s: State, t: Thread, plain: bool)
    requires Inv(s) && BudgetInv(s, plain) && t in s.pc && s.pc[t].MakeRoom?
    ensures BudgetEffect(s, MakeRoomStep(s, t, s.pc[t]), t, plain)
  {
    var pc := s.pc[t];
    assert PcBudget(s.cfg, s.insts, pc, plain) && Knows(s.insts, pc);
    var c := if pc.at < |pc.order| then Some(pc.order[pc.at]) else None;
    if c.Some? && c.value in s.insts && s.insts[c.value].resident && s.insts[c.value].active == 0 {
      RoomStopBudget(s, t, plain);
    } else {
      assert MakeRoomStep(s, t, pc).insts == s.insts;
    }
  }

  lemma LaunchBudget(s: State, t: Thread, n: Name, acquire: bool, now: Time, outcome: Outcome, plain: bool)
    requires Inv(s) && BudgetInv(s, plain) && t in s.pc && s.pc[t] == Launch(n, acquire) && n in s.insts
    ensures BudgetEffect(s, LaunchStep(s, t, n, acquire, now, outcome), t, plain)
  {
    assert PcBudget(s.cfg, s.insts, s.pc[t], plain) && Knows(s.insts, s.pc[t]);
    if outcome.Healthy? {
      SumLaunch(s.cfg, s.insts, n, now);
    } else {
      assert Residents(LaunchStep(s, t, n, acquire, now, outcome).insts) == Residents(s.insts);
    }
  }

  lemma VictimBudget(s: State, t: Thread, now: Time, outcome: Outcome, pick: Name, order: seq<Name>, plain: bool)
    requires Inv(s) && BudgetInv(s, plain) && CanGo(s, t, pick, order) && s.pc[t].StopVictim?
    ensures BudgetEffect(s, GoStep(s, t, now, outcome, pick, order), t, plain)
  {
    assert PcBudget(s.cfg, s.insts, s.pc[t], plain) && Knows(s.insts, s.pc[t]);
    SumStop(s.cfg, s.insts, s.pc[t].victim);
  }

  lemma WatchBudget(s: State, t: Thread, now: Time, outcome: Outcome, pick: Name, order: seq<Name>, plain: bool)
    requires Inv(s) && BudgetInv(s, plain) && CanGo(s, t, pick, order) && s.pc[t].Watch?
    ensures BudgetEffect(s, GoStep(s, t, now, outcome, pick, order), t, plain)
  {
    assert PcBudget(s.cfg, s.insts, s.pc[t], plain);
    if s.pc[t].name in s.insts { SumStop(s.cfg, s.insts, s.pc[t].name); }
  }

  lemma StopAllBudget(s: State, t: Thread, now: Time, outcome: Outcome, pick: Name, order: seq<Name>, plain: bool)
    requires Inv(s) && BudgetInv(s, plain) && CanGo(s, t, pick, order) && s.pc[t].StopAll?
    ensures BudgetEffect(s, GoStep(s, t, now, outcome, pick, order), t, plain)
  {
    assert PcBudget(s.cfg, s.insts, s.pc[t], plain);
    if pick in s.insts { SumStop(s.cfg, s.insts, pick); }
  }

  /** A section that leaves residency alone. */
  lemma CalmBudget(s: State, t: Thread, now: Time, outcome: Outcome, pick: Name, order: seq<Name>, plain: bool)
    requires Inv(s) && BudgetInv(s, plain) && CanGo(s, t, pick, order)
    requires s.pc[t].FindVictim? || s.pc[t].Failed? || s.pc[t].Released?
    ensures BudgetEffect(s, GoStep(s, t, now, outcome, pick, order), t, plain)
  {
    assert PcBudget(s.cfg, s.insts, s.pc[t], plain);
    assert GoStep(s, t, now, outcome, pick, order).insts == s.insts;
  }

  /** The begin and the end of a lease. */
  lemma LeaseBudget(s: State, t: Thread, now: Time, outcome: Outcome, pick: Name, order: seq<Name>, plain: bool)
    requires Inv(s) && BudgetInv(s, plain) && CanGo(s, t, pick, order) && (s.pc[t].Started? || s.pc[t].Leased?)
    ensures BudgetEffect(s, GoStep(s, t, now, outcome, pick, order), t, plain)
  {
    assert Residents(GoStep(s, t, now, outcome, pick, order).insts) == Residents(s.insts);
  }

  lemma GoChanges(s: State, t: Thread, now: Time, outcome: Outcome, pick: Name, order: seq<Name>, plain: bool)
    requires Inv(s) && BudgetInv(s, plain) && CanGo(s, t, pick, order)
    ensures BudgetEffect(s, GoStep(s, t, now, outcome, pick, order), t, plain)
  {
    assert PcBudget(s.cfg, s.insts, s.pc[t], plain) && Knows(s.insts, s.pc[t]);
    match s.pc[t]
    case Check(n, exclusive, acquire) => CheckBudget(s, t, n, exclusive, acquire, now, plain);
    case StopOthers(_, _, _) => assert !plain;
    case Collect(_, _, _, _, _) => CollectBudget(s, t, pick, order, plain);
    case MakeRoom(_, _, _, _, _, _, _) => MakeRoomBudget(s, t, plain);
    case Launch(n, acquire) => LaunchBudget(s, t, n, acquire, now, outcome, plain);
    case StopVictim(_, _, _) => VictimBudget(s, t, now, outcome, pick, order, plain);
    case StopAll(_) => StopAllBudget(s, t, now, outcome, pick, order, plain);
    case Watch(_) => WatchBudget(s, t, now, outcome, pick, order, plain);
    case FindVictim(_, _, _, _, _) => CalmBudget(s, t, now, outcome, pick, order, plain);
    case Started(_, _) => LeaseBudget(s, t, now, outcome, pick, order, plain);
    case Failed(_) => CalmBudget(s, t, now, outcome, pick, order, plain);
    case Leased(_) => LeaseBudget(s, t, now, outcome, pick, order, plain);
    case Released => CalmBudget(s, t, now, outcome, pick, order, plain);
    case _ =>
  }

  /** The run never asks for an exclusive start, as no caller in the server does. */
  predicate NonExclusive(steps: seq<Step>) {
    forall i :: 0 <= i < |steps| ==> (steps[i].Begin? && steps[i].call.WantStart? ==> !steps[i].call.exclusive)
  }

  lemma InitBudget(cfg: Config, threads: set<Thread>, s: State, plain: bool)
    requires cfg.Valid() && IsInit(cfg, threads, s)
    ensures s.cfg == cfg && Inv(s) && BudgetInv(s, plain)
  {
    InitInv(cfg, threads, s);
    assert Residents(s.insts) == {};
  }

  lemma LockBudget(s: State, t: Thread, plain: bool)
    requires Inv(s) && BudgetInv(s, plain) && CanLock(s, t)
    ensures Inv(LockStep(s, t)) && BudgetInv(LockStep(s, t), plain)
  {
    LockKeeps(s, t);
    assert PcBudget(s.cfg, s.insts, s.pc[t], plain);
    BudgetStep(s, LockStep(s, t), t, plain);
  }

  lemma BeginBudget(s: State, t: Thread, call: Pc, plain: bool)
    requires Inv(s) && BudgetInv(s, plain) && t in s.pc && s.pc[t].Outside? && IsCall(call)
    requires plain && call.WantStart? ==> !call.exclusive
    ensures Inv(At(s, t, call)) && BudgetInv(At(s, t, call), plain)
  {
    LocalStep(s, t, s.insts, call);
    assert At(s.(insts := s.insts), t, call) == At(s, t, call);
    BudgetStep(s, At(s, t, call), t, plain);
  }

  lemma BumpBudget(s: State, n: Name, now: Time, plain: bool)
    requires Inv(s) && BudgetInv(s, plain) && n in s.insts
    ensures BudgetInv(s.(insts := Touch(s.insts, n, now)), plain)
  {
    assert Residents(Touch(s.insts, n, now)) == Residents(s.insts);
    forall t | t in s.pc
      ensures PcBudget(s.cfg, Touch(s.insts, n, now), s.pc[t], plain)
    {
      assert PcBudget(s.cfg, s.insts, s.pc[t], plain);
    }
  }

  lemma NextBudget(s: State, a: Step, plain: bool)
    requires Inv(s) && BudgetInv(s, plain) && Enabled(s, a)
    requires plain && a.Begin? && a.call.WantStart? ==> !a.call.exclusive
    ensures Next(s, a).cfg == s.cfg && Inv(Next(s, a)) && BudgetInv(Next(s, a), plain)
  {
    match a
    case Begin(t, call) => BeginBudget(s, t, call, plain);
    case Lock(t) => LockBudget(s, t, plain);
    case Go(t, now, outcome, pick, order) => GoBudget(s, t, now, outcome, pick, order, plain);
    case Bump(n, now) => NextKeeps(s, a); if n in s.insts { BumpBudget(s, n, now, plain); }
  }

  lemma {:induction false} RunBudget(cfg: Config, threads: set<Thread>, run: seq<State>, steps: seq<Step>, i: nat,
                                     plain: bool)
    requires IsRun(cfg, threads, run, steps) && i < |run| && (plain ==> NonExclusive(steps))
    ensures run[i].cfg == cfg && Inv(run[i]) && BudgetInv(run[i], plain)
  {
    if i == 0 {
      InitBudget(cfg, threads, run[0], plain);
    } else {
      RunBudget(cfg, threads, run, steps, i - 1, plain);
      NextBudget(run[i-1], steps[i-1], plain);
    }
  }

  /** In every state of every run without exclusive starts, the estimates of the resident
      instances stay within the limit, if there is one. */
  lemma WithinBudget(cfg: Config, threads: set<Thread>, run: seq<State>, steps: seq<Step>, i: nat)
    requires IsRun(cfg, threads, run, steps) && i < |run| && NonExclusive(steps)
    ensures forall n :: n in run[i].insts ==> n in cfg.vram
    ensures cfg.limit > 0 ==> Sum(cfg.vram, Residents(run[i].insts)) <= cfg.limit
  {
    RunBudget(cfg, threads, run, steps, i, true);
  }
}
