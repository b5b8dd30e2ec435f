/** The unloading of idle providers: every decision of a timer handler leads to one call of Idle, a
    provider that is left alone is unloaded, and an unload meets a job exactly if it was decided
    before the job was dequeued. */
module QueueIdle {
  import opened QueueMachine
  import opened QueueInvariants
  import opened QueuePreservation
  import opened QueueTheorems

  // ---------- every decision is carried out once ----------

  /** The step is a handler that decides to unload p: it finds it quiet and warm. */
  predicate Decides(s: State, a: Step, p: ProviderId) {
    a == FireIdle(p) && p in s.prov && p in s.cfg.lifecycle && Quiet(s.prov[p]) && s.prov[p].warm
  }

  /** Unloads that are decided and not done. */
  function Due(v: Prov): nat { v.unloading + v.idling }

  function Decisions(run: seq<State>, steps: seq<Step>, p: ProviderId, n: nat): nat
    requires n <= |steps| <= |run|
  {
    if n == 0 then 0 else Decisions(run, steps, p, n - 1) + if Decides(run[n-1], steps[n-1], p) then 1 else 0
  }

  /** Calls of Idle that have returned. */
  function Unloads(steps: seq<Step>, p: ProviderId, n: nat): nat
    requires n <= |steps|
  {
    if n == 0 then 0 else Unloads(steps, p, n - 1) + if steps[n-1] == IdleDone(p) then 1 else 0
  }

  lemma RunIsNoUnload(s: State, w: WorkerId, id: JobId, stage: Stage, ok: bool, now: Time, p: ProviderId)
    requires At(s, w) && id in s.jobs && p in s.prov
    ensures var t := RunStep(s, w, id, stage, ok, now); p in t.prov && Due(t.prov[p]) == Due(s.prov[p])
  {}

  lemma AcquireIsNoUnload(s: State, w: WorkerId, now: Time, p: ProviderId)
    requires At(s, w) && GroupKnown(s, Of(s, w)) && p in s.prov
    ensures var t := AcquireStep(s, w, now); p in t.prov && Due(t.prov[p]) == Due(s.prov[p])
  {}

  lemma WorkIsNoUnload(s: State, w: WorkerId, ok: bool, now: Time, p: ProviderId)
    requires TypeOK(s) && CanWork(s, w) && p in s.prov
    ensures var t := WorkStep(s, w, ok, now); p in t.prov && Due(t.prov[p]) == Due(s.prov[p])
  {
    match s.pc[w]
    case Acquiring => AcquireIsNoUnload(s, w, now, p);
    case Busy(id, stage) => RunIsNoUnload(s, w, id, stage, ok, now, p);
    case _ =>
  }

  lemma StepUnloads(s: State, a: Step, p: ProviderId)
    requires TypeOK(s) && Enabled(s, a) && p in s.prov
    ensures p in Next(s, a).prov
    ensures Due(Next(s, a).prov[p]) ==
            Due(s.prov[p]) + Bit(Decides(s, a, p)) - Bit(a == IdleDone(p))
  {
    if a.Work? { WorkIsNoUnload(s, a.w, a.ok, a.now, p); }
  }

  /** Along every run, the decisions to unload are the calls of Idle that have returned and those
      that are still due. */
  lemma {:induction false} UnloadsAreConserved(cfg: Config, run: seq<State>, steps: seq<Step>, n: nat, p: ProviderId)
    requires IsRun(cfg, run, steps) && n < |run| && p in run[0].prov
    ensures p in run[n].prov && Decisions(run, steps, p, n) == Unloads(steps, p, n) + Due(run[n].prov[p])
  {
    if n > 0 {
      UnloadsAreConserved(cfg, run, steps, n - 1, p);
      RunKeepsInv(cfg, run, steps, n - 1);
      assert Enabled(run[n-1], steps[n-1]);
      StepUnloads(run[n-1], steps[n-1], p);
    }
  }

  /** While a job of p is between dequeue and finish nothing more is decided, so an unload that
      begins meanwhile was due at its dequeue. */
  lemma {:induction false} OnlyOldUnloads(cfg: Config, run: seq<State>, steps: seq<Step>, i: nat, j: nat, p: ProviderId)
    requires IsRun(cfg, run, steps) && i <= j < |run| && p in run[i].prov
    requires forall k :: i <= k < j && p in run[k].prov ==> run[k].prov[p].active > 0
    ensures p in run[j].prov && Due(run[j].prov[p]) <= Due(run[i].prov[p])
  {
    if i < j {
      OnlyOldUnloads(cfg, run, steps, i, j - 1, p);
      RunKeepsInv(cfg, run, steps, j - 1);
      assert Enabled(run[j-1], steps[j-1]);
      StepUnloads(run[j-1], steps[j-1], p);
    }
  }

  // ---------- sequences of steps ----------

  /** The steps can be taken one after the other and end in t. */
  ghost predicate Leads(s: State, steps: seq<Step>, t: State)
    decreases |steps|
  {
    if steps == [] then s == t else TypeOK(s) && Enabled(s, steps[0]) && Leads(Next(s, steps[0]), steps[1..], t)
  }

  lemma LeadsByStep(s: State, a: Step, m: State, rest: seq<Step>, t: State)
    requires TypeOK(s) && Enabled(s, a) && m == Next(s, a) && Leads(m, rest, t)
    ensures Leads(s, [a] + rest, t)
  {
    assert ([a] + rest)[1..] == rest;
  }

  // ---------- a provider that is left alone ----------

  /** The timer, its handler, and Idle once the lifecycle mutex is free. */
  function UnloadSteps(v: Prov, p: ProviderId): seq<Step> {
    (if v.timer.Armed? then [Expire(p)] else []) + FireSteps(v.idling, p)
  }

  function FireSteps(idling: nat, p: ProviderId): seq<Step> { [FireIdle(p)] + IdleSteps(idling, p) }

  function IdleSteps(idling: nat, p: ProviderId): seq<Step> {
    (if idling > 0 then [IdleDone(p)] else []) + ([LockIdle(p)] + [IdleDone(p)])
  }

  /** What a step of a timer or a handler makes of the provider. */
  function Handled(v: Prov, a: Step, lifecycle: bool): Prov
    requires a.FireIdle? ==> v.firing > 0
    requires a.LockIdle? ==> v.unloading > 0
    requires a.IdleDone? ==> v.idling > 0
  {
    match a
    case Expire(_) => v.(timer := Expired, firing := v.firing + 1)
    case FireIdle(_) => Fired(v, lifecycle)
    case LockIdle(_) => v.(unloading := v.unloading - 1, idling := v.idling + 1, locked := true)
    case IdleDone(_) => v.(idling := v.idling - 1, locked := false)
    case _ => v
  }

  lemma HandledIsNext(s: State, p: ProviderId, v: Prov, a: Step)
    requires TypeOK(Put(s, p, v)) && p in s.prov
    requires a == Expire(p) || a == FireIdle(p) || a == LockIdle(p) || a == IdleDone(p)
    requires Enabled(Put(s, p, v), a)
    ensures Next(Put(s, p, v), a) == Put(s, p, Handled(v, a, p in s.cfg.lifecycle))
  {
    assert s.prov[p := v][p := Handled(v, a, p in s.cfg.lifecycle)] == s.prov[p := Handled(v, a, p in s.cfg.lifecycle)];
  }

  lemma LeadsByPut(s: State, p: ProviderId, v: Prov, a: Step, rest: seq<Step>, t: State)
    requires TypeOK(s) && p in s.prov && v.queue == s.prov[p].queue
    requires a == Expire(p) || a == FireIdle(p) || a == LockIdle(p) || a == IdleDone(p)
    requires Enabled(Put(s, p, v), a)
    requires Leads(Put(s, p, Handled(v, a, p in s.cfg.lifecycle)), rest, t)
    ensures Leads(Put(s, p, v), [a] + rest, t)
  {
    PutTypes(s, p, v);
    HandledIsNext(s, p, v, a);
    LeadsByStep(Put(s, p, v), a, Put(s, p, Handled(v, a, p in s.cfg.lifecycle)), rest, t);
  }

  lemma NobodyInside(s: State, p: ProviderId)
    requires Inv(s) && p in s.prov && Quiet(s.prov[p])
    ensures s.prov[p].idling == Bit(s.prov[p].locked)
  {
    assert ProvOK(s.cfg, s.pc, p, s.prov[p]);
    assert BusyFor(s.cfg, s.pc, p) == {};
    assert Lockers(s.cfg, s.pc, p) <= BusyFor(s.cfg, s.pc, p);
  }

  /** Idle, from the decision on. */
  lemma IdleLeads(s: State, p: ProviderId, v: Prov) returns (t: State)
    requires TypeOK(s) && p in s.prov && v.queue == s.prov[p].queue
    requires v.unloading > 0 && v.idling == Bit(v.locked)
    ensures Leads(Put(s, p, v), IdleSteps(v.idling, p), t)
    ensures t == Put(s, p, v.(unloading := v.unloading - 1, idling := 0, locked := false))
  {
    var free := v.(idling := 0, locked := false);
    var inside := Handled(free, LockIdle(p), true);
    t := Put(s, p, Handled(inside, IdleDone(p), true));
    assert Leads(t, [], t);
    LeadsByPut(s, p, inside, IdleDone(p), [], t);
    LeadsByPut(s, p, free, LockIdle(p), [IdleDone(p)], t);
    if v.idling > 0 {
      assert Handled(v, IdleDone(p), true) == free;
      LeadsByPut(s, p, v, IdleDone(p), [LockIdle(p)] + [IdleDone(p)], t);
    } else {
      assert v == free;
      assert [] + ([LockIdle(p)] + [IdleDone(p)]) == [LockIdle(p)] + [IdleDone(p)];
    }
  }

  lemma FireLeads(s: State, p: ProviderId, u: Prov) returns (v: Prov)
    requires TypeOK(s) && p in s.prov && p in s.cfg.lifecycle && u.queue == s.prov[p].queue
    requires Quiet(u) && u.warm && u.firing > 0 && u.idling == Bit(u.locked)
    ensures Leads(Put(s, p, u), FireSteps(u.idling, p), Put(s, p, v))
    ensures !v.warm && v.timer.NoTimer? && !v.locked && v.idling == 0 && v.unloading == u.unloading
  {
    var w := Fired(u, true);
    v := w.(unloading := w.unloading - 1, idling := 0, locked := false);
    var t := IdleLeads(s, p, w);
    LeadsByPut(s, p, u, FireIdle(p), IdleSteps(u.idling, p), t);
  }

  /** A warm lifecycle provider that has an idle delay and is left alone is unloaded: its timer, its
      handler and Idle can go on one after the other, whatever old handlers there are, and leave it
      cold, without a timer, with its lifecycle mutex free. */
  lemma LeftAloneIsUnloaded(s: State, p: ProviderId) returns (v: Prov)
    requires Inv(s) && p in s.prov && Quiet(s.prov[p]) && s.prov[p].warm && p in s.cfg.idleDelay && p in s.cfg.lifecycle
    ensures Leads(s, UnloadSteps(s.prov[p], p), Put(s, p, v))
    ensures !v.warm && v.timer.NoTimer? && !v.locked && v.idling == 0 && v.unloading == s.prov[p].unloading
  {
    NobodyInside(s, p);
    assert ProvOK(s.cfg, s.pc, p, s.prov[p]);
    var u := s.prov[p];
    assert Put(s, p, u) == s by { assert s.prov[p := u] == s.prov; }
    if u.timer.Armed? {
      v := FireLeads(s, p, Handled(u, Expire(p), true));
      LeadsByPut(s, p, u, Expire(p), FireSteps(u.idling, p), Put(s, p, v));
    } else {
      v := FireLeads(s, p, u);
      assert [] + FireSteps(u.idling, p) == FireSteps(u.idling, p);
    }
  }
}
