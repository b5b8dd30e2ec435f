/** Every step of the job queue keeps the invariant. */
module QueuePreservation {
  import opened QueueMachine
  import opened QueueInvariants

  /** The same queue and histories. */
  predicate SameJobs(u: Prov, v: Prov) {
    u.queue == v.queue && u.submitted == v.submitted && u.dequeued == v.dequeued
  }

  predicate SameWork(u: Pc, v: Pc) { u.Busy? == v.Busy? && (u.Busy? ==> u.job == v.job) }

  /** A step that leaves jobs, queues and histories alone and keeps every busy worker at its job. */
  lemma JobsUntouched(s: State, t: State)
    requires JobInv(s)
    requires t.cfg == s.cfg && t.jobs == s.jobs && t.closed == s.closed && t.home == s.home
    requires t.prov.Keys == s.prov.Keys && forall p :: p in s.prov ==> SameJobs(s.prov[p], t.prov[p])
    requires t.pc.Keys == s.pc.Keys && forall w :: w in s.pc ==> SameWork(s.pc[w], t.pc[w])
    ensures JobInv(t)
  {
    forall p | p in t.prov ensures HistoryOK(t.prov[p], p, t.home) { assert HistoryOK(s.prov[p], p, s.home); }
    forall id | id in t.jobs ensures StatusOK(id, t.jobs[id], t.prov, t.closed, t.home) {
      assert StatusOK(id, s.jobs[id], s.prov, s.closed, s.home);
    }
    forall p, id | p in t.prov && id in t.prov[p].queue ensures id in t.jobs { assert id in s.prov[p].queue; }
    forall p, id | p in t.prov && id in t.prov[p].dequeued && id !in t.closed ensures exists w :: HeldBy(t.pc, w, id) {
      assert id in s.prov[p].dequeued;
      var w :| HeldBy(s.pc, w, id);
      assert HeldBy(t.pc, w, id);
    }
  }

  // ---------- workers ----------

  /** What a move of worker w from `at0` to `at` may do to its provider without touching jobs. */
  predicate LocalMove(at0: Pc, at: Pc, u: Prov, v: Prov, delay: bool, lifecycle: bool) {
    && SameWork(at0, at) && SameJobs(u, v)
    && v.active == u.active && v.idling == u.idling && v.broadcasts == u.broadcasts && (u.warm ==> v.warm)
    && Bit(v.locked) - Bit(u.locked) == Bit(at.LocksLifecycle()) - Bit(at0.LocksLifecycle())
    && TimerOK(v, delay) && WorkerOK(at, v, lifecycle)
  }

  lemma MoveTypes(s: State, w: WorkerId, at: Pc, v: Prov)
    requires TypeOK(s) && At(s, w) && SameWork(s.pc[w], at) && v.queue == s.prov[Of(s, w)].queue
    ensures TypeOK(Put(Move(s, w, at), Of(s, w), v))
  {}

  /** A worker moves and changes at most flags of its own provider. */
  lemma MoveKeeps(s: State, w: WorkerId, at: Pc, v: Prov)
    requires Inv(s) && At(s, w) && at.Holds() == s.pc[w].Holds()
    requires LocalMove(s.pc[w], at, s.prov[Of(s, w)], v, Of(s, w) in s.cfg.idleDelay, Of(s, w) in s.cfg.lifecycle)
    ensures Inv(Put(Move(s, w, at), Of(s, w), v))
  {
    MoveTypes(s, w, at, v);
    ResourceSame(s.cfg, s.pc, w, at, s.resources, s.clock, s.clock);
    ProvMove(s.cfg, s.pc, w, at, s.prov, Of(s, w), v);
    WorkerMove(s.cfg, s.pc, w, at, s.prov, Of(s, w), v);
    JobsUntouched(s, Put(Move(s, w, at), Of(s, w), v));
  }

  lemma CheckKeeps(s: State, w: WorkerId, now: Time)
    requires Inv(s) && CanWork(s, w) && s.pc[w].Checking? && s.clock <= now
    ensures Inv(WorkStep(s, w, true, now))
  {
    var v := s.prov[Of(s, w)];
    assert ProvOK(s.cfg, s.pc, Of(s, w), v);
    assert s.prov == s.prov[Of(s, w) := v];
    MoveKeeps(s, w, if v.queue == [] then Parked else Acquiring, v);
  }

  lemma WorkerCold(cfg: Config, pc: Pcs, prov: Provs, p: ProviderId)
    requires WorkerInv(cfg, pc, prov) && p in prov
    requires forall w :: w in pc && WorksFor(cfg, w, p) ==> !pc[w].Busy?
    ensures WorkerInv(cfg, pc, prov[p := prov[p].(warm := false)])
  {}

  /** While nobody holds a group, no worker of a provider in it is busy. */
  lemma NobodyBusy(s: State, g: Group, p: ProviderId)
    requires g in s.resources && GroupInv(s.cfg, s.pc, g, s.resources[g], s.clock) && s.resources[g].activeJobs == 0
    requires p in s.cfg.group && s.cfg.group[p] == g
    ensures forall w :: w in s.pc && WorksFor(s.cfg, w, p) ==> !s.pc[w].Busy?
  {
    forall w | w in s.pc && WorksFor(s.cfg, w, p) ensures !s.pc[w].Busy? {
      assert s.pc[w].Busy? ==> w in Holders(s.cfg, s.pc, g);
    }
  }

  /** A hand-over turns two providers of the group cold; nothing else about providers changes. */
  lemma ColdBoth(cfg: Config, pc: Pcs, prov: Provs, prev: ProviderId, p: ProviderId)
    requires ProvInv(cfg, pc, prov) && WorkerInv(cfg, pc, prov) && prev in prov && p in prov
    requires forall w :: w in pc && (WorksFor(cfg, w, prev) || WorksFor(cfg, w, p)) ==> !pc[w].Busy?
    ensures var u := prov[prev := prov[prev].(warm := false)][p := prov[p].(warm := false)];
            ProvInv(cfg, pc, u) && WorkerInv(cfg, pc, u)
  {
    ProvCold(cfg, pc, prov, prev);
    WorkerCold(cfg, pc, prov, prev);
    var m := prov[prev := prov[prev].(warm := false)];
    ProvCold(cfg, pc, m, p);
    WorkerCold(cfg, pc, m, p);
    assert prov[p].(warm := false) == m[p].(warm := false);
  }

  /** Granting the group leaves every provider consistent, also when two of them turn cold. */
  lemma GrantKeeps(s: State, p: ProviderId, g: Group, now: Time)
    requires s.prov.Keys == s.cfg.providers && g in s.resources && g in s.cfg.switchDelay
    requires GroupInv(s.cfg, s.pc, g, s.resources[g], s.clock)
    requires s.resources[g].activeProvider == NONE || s.resources[g].activeProvider in s.prov
    requires ProvInv(s.cfg, s.pc, s.prov) && WorkerInv(s.cfg, s.pc, s.prov)
    requires p in s.cfg.group && s.cfg.group[p] == g && p in s.prov && Available(s, p, g, now)
    ensures var u := Grant(s, p, g).prov;
            && u.Keys == s.prov.Keys && (forall q :: q in u ==> SameJobs(s.prov[q], u[q]))
            && ProvInv(s.cfg, s.pc, u) && WorkerInv(s.cfg, s.pc, u)
  {
    var prev := s.resources[g].activeProvider;
    if prev != NONE && prev != p {
      NobodyBusy(s, g, prev);
      NobodyBusy(s, g, p);
      ColdBoth(s.cfg, s.pc, s.prov, prev, p);
    }
  }

  /** A worker that is not busy before or after moves; its provider stays as it is. */
  lemma IdleMove(cfg: Config, pc: Pcs, w: WorkerId, at: Pc, prov: Provs)
    requires ProvInv(cfg, pc, prov) && WorkerInv(cfg, pc, prov)
    requires w in pc && w in cfg.workers && cfg.workers[w] in prov && !pc[w].Busy? && !at.Busy? && !at.Parked?
    ensures ProvInv(cfg, pc[w := at], prov) && WorkerInv(cfg, pc[w := at], prov)
  {
    var p := cfg.workers[w];
    assert prov[p := prov[p]] == prov;
    assert ProvOK(cfg, pc, p, prov[p]);
    ProvMove(cfg, pc, w, at, prov, p, prov[p]);
    WorkerMove(cfg, pc, w, at, prov, p, prov[p]);
  }

  /** A step that only moves worker w, between stages in which it has no job. */
  ghost predicate IdleStep(s: State, t: State, w: WorkerId) {
    && t.cfg == s.cfg && t.jobs == s.jobs && t.closed == s.closed && t.home == s.home
    && t.prov.Keys == s.prov.Keys && (forall q :: q in s.prov ==> SameJobs(s.prov[q], t.prov[q]))
    && t.pc.Keys == s.pc.Keys && (forall x :: x in s.pc ==> SameWork(s.pc[x], t.pc[x]))
  }

  lemma IdleStepKeepsJobs(s: State, t: State, w: WorkerId)
    requires TypeOK(s) && JobInv(s) && IdleStep(s, t, w)
    ensures JobInv(t)
  {
    JobsUntouched(s, t);
  }

  lemma IdleStepTypes(s: State, t: State, w: WorkerId)
    requires TypeOK(s) && IdleStep(s, t, w) && s.clock <= t.clock && t.resources.Keys == s.resources.Keys
    requires forall g :: g in t.resources ==>
      (t.resources[g].activeProvider == s.resources[g].activeProvider || t.resources[g].activeProvider in s.prov)
    ensures TypeOK(t)
  {
    forall p, id | p in t.prov && id in t.prov[p].queue ensures id in t.jobs { assert id in s.prov[p].queue; }
  }

  lemma GrantFrame(s: State, p: ProviderId, g: Group)
    requires p in s.prov && g in s.resources
    requires s.resources[g].activeProvider == NONE || s.resources[g].activeProvider in s.prov
    ensures var t := Grant(s, p, g);
            && t == s.(prov := t.prov, resources := t.resources)
            && t.prov.Keys == s.prov.Keys && forall q :: q in s.prov ==> SameJobs(s.prov[q], t.prov[q])
  {}

  lemma AcquireIsIdle(s: State, w: WorkerId, now: Time)
    requires TypeOK(s) && CanWork(s, w) && s.pc[w].Acquiring? && s.clock <= now
    ensures IdleStep(s, AcquireStep(s, w, now), w)
  {
    var p := Of(s, w);
    if p in s.cfg.group && Available(s, p, s.cfg.group[p], now) { GrantFrame(s, p, s.cfg.group[p]); }
  }

  lemma AcquireTypes(s: State, w: WorkerId, now: Time)
    requires TypeOK(s) && CanWork(s, w) && s.pc[w].Acquiring? && s.clock <= now
             && IdleStep(s, AcquireStep(s, w, now), w)
    ensures TypeOK(AcquireStep(s, w, now))
  {
    IdleStepTypes(s, AcquireStep(s, w, now), w);
  }

  lemma AcquireKeepsResources(s: State, w: WorkerId, now: Time)
    requires TypeOK(s) && ResourceInv(s.cfg, s.pc, s.resources, s.clock)
    requires CanWork(s, w) && s.pc[w].Acquiring? && s.clock <= now
    ensures var t := AcquireStep(s, w, now); ResourceInv(t.cfg, t.pc, t.resources, t.clock)
  {
    var p := Of(s, w);
    if p !in s.cfg.group {
      ResourceSame(s.cfg, s.pc, w, Popping, s.resources, s.clock, s.clock);
    } else if Available(s, p, s.cfg.group[p], now) {
      ResourceTaken(s.cfg, s.pc, w, Popping, s.cfg.group[p], s.resources, s.clock, now);
    } else {
      assert s.pc[w := s.pc[w]] == s.pc;
      ResourceSame(s.cfg, s.pc, w, s.pc[w], s.resources, s.clock, now);
    }
  }

  lemma AcquireKeepsProviders(s: State, w: WorkerId, now: Time)
    requires TypeOK(s) && ResourceInv(s.cfg, s.pc, s.resources, s.clock)
    requires ProvInv(s.cfg, s.pc, s.prov) && WorkerInv(s.cfg, s.pc, s.prov)
    requires CanWork(s, w) && s.pc[w].Acquiring?
    ensures var t := AcquireStep(s, w, now);
            ProvInv(t.cfg, t.pc, t.prov) && WorkerInv(t.cfg, t.pc, t.prov)
  {
    var p := Of(s, w);
    if p !in s.cfg.group {
      IdleMove(s.cfg, s.pc, w, Popping, s.prov);
    } else if Available(s, p, s.cfg.group[p], now) {
      GrantKeeps(s, p, s.cfg.group[p], now);
      IdleMove(s.cfg, s.pc, w, Popping, Grant(s, p, s.cfg.group[p]).prov);
    }
  }

  lemma AcquireKeeps(s: State, w: WorkerId, now: Time)
    requires Inv(s) && CanWork(s, w) && s.pc[w].Acquiring? && s.clock <= now
    ensures Inv(AcquireStep(s, w, now))
  {
    AcquireIsIdle(s, w, now);
    AcquireTypes(s, w, now);
    AcquireKeepsResources(s, w, now);
    AcquireKeepsProviders(s, w, now);
    IdleStepKeepsJobs(s, AcquireStep(s, w, now), w);
  }

  lemma ReleaseIsIdle(s: State, w: WorkerId, now: Time)
    requires TypeOK(s) && CanWork(s, w) && s.pc[w].Releasing? && s.clock <= now
    ensures IdleStep(s, ReleaseStep(s, w, now), w)
  {}

  lemma ReleaseTypes(s: State, w: WorkerId, now: Time)
    requires TypeOK(s) && CanWork(s, w) && s.pc[w].Releasing? && s.clock <= now
             && IdleStep(s, ReleaseStep(s, w, now), w)
    ensures var t := ReleaseStep(s, w, now); TypeOK(t) && t.prov == s.prov && t.pc == s.pc[w := Checking]
  {
    IdleStepTypes(s, ReleaseStep(s, w, now), w);
  }

  lemma ReleaseKeepsResources(s: State, w: WorkerId, now: Time)
    requires TypeOK(s) && ResourceInv(s.cfg, s.pc, s.resources, s.clock)
    requires CanWork(s, w) && s.pc[w].Releasing? && s.clock <= now
    ensures var t := ReleaseStep(s, w, now); ResourceInv(t.cfg, t.pc, t.resources, t.clock)
  {
    if Of(s, w) in s.cfg.group {
      ResourceGiven(s.cfg, s.pc, w, Checking, s.cfg.group[Of(s, w)], s.resources, s.clock, now);
    } else {
      ResourceSame(s.cfg, s.pc, w, Checking, s.resources, s.clock, s.clock);
    }
  }

  lemma ReleaseKeeps(s: State, w: WorkerId, now: Time)
    requires Inv(s) && CanWork(s, w) && s.pc[w].Releasing? && s.clock <= now
    ensures Inv(ReleaseStep(s, w, now))
  {
    ReleaseIsIdle(s, w, now);
    ReleaseTypes(s, w, now);
    ReleaseKeepsResources(s, w, now);
    IdleMove(s.cfg, s.pc, w, Checking, s.prov);
    IdleStepKeepsJobs(s, ReleaseStep(s, w, now), w);
  }

  /** `run` up to `finish` moves the worker and changes at most flags of its provider. */
  lemma RunIsLocal(cfg: Config, pc: Pcs, w: WorkerId, id: JobId, stage: Stage, p: ProviderId, v: Prov, ok: bool)
    requires ProvOK(cfg, pc, p, v) && w in pc && pc[w] == Busy(id, stage) && WorksFor(cfg, w, p) && !stage.Finishing?
    requires stage.WarmWait? ==> !v.locked
    requires WorkerOK(pc[w], v, p in cfg.lifecycle)
    ensures LocalMove(pc[w], Busy(id, RunStage(v, stage, p in cfg.lifecycle, ok)), v, RunProv(v, stage),
                      p in cfg.idleDelay, p in cfg.lifecycle)
  {
    assert w in BusyFor(cfg, pc, p);
    if stage.WarmRecheck? || stage.Warming? { assert w in Lockers(cfg, pc, p); }
  }

  lemma RunKeeps(s: State, w: WorkerId, id: JobId, stage: Stage, ok: bool, now: Time)
    requires Inv(s) && CanWork(s, w) && s.pc[w] == Busy(id, stage) && !stage.Finishing?
    ensures Inv(RunStep(s, w, id, stage, ok, now))
  {
    var p := Of(s, w);
    RunIsLocal(s.cfg, s.pc, w, id, stage, p, s.prov[p], ok);
    MoveKeeps(s, w, Busy(id, RunStage(s.prov[p], stage, p in s.cfg.lifecycle, ok)), RunProv(s.prov[p], stage));
  }

  // ---------- dequeue and finish ----------

  lemma PopKeepsHistory(v: Prov, p: ProviderId, home: map<JobId, ProviderId>)
    requires HistoryOK(v, p, home) && v.queue != []
    ensures HistoryOK(Popped(v), p, home)
    ensures v.queue[0] !in v.queue[1..] && v.queue[0] !in v.dequeued
  {
    assert v.dequeued + [v.queue[0]] + v.queue[1..] == v.submitted;
    var d := |v.dequeued|;
    assert v.submitted[d] == v.queue[0];
    forall i | 0 <= i < |v.queue[1..]| ensures v.queue[1..][i] != v.queue[0] {
      assert v.submitted[d + 1 + i] == v.queue[1..][i];
    }
    forall i | 0 <= i < d ensures v.dequeued[i] != v.queue[0] { assert v.submitted[i] == v.dequeued[i]; }
  }

  /** The popped job turns from queued to running. */
  lemma PopKeepsStatus(s: State, p: ProviderId, v: Prov, id: JobId)
    requires HistoryInv(s.prov, s.home) && StatusInv(s.prov, s.jobs, s.closed, s.home) && p in s.prov
    requires s.prov[p].queue == [id] + v.queue
    ensures id in s.jobs && id !in v.queue
    ensures StatusInv(s.prov[p := v], s.jobs[id := s.jobs[id].(status := Running)], s.closed, s.home)
  {
    var u := s.prov[p];
    assert HistoryOK(u, p, s.home);
    assert u.queue[0] == id && u.queue[1..] == v.queue;
    assert id in u.queue;
    PopKeepsHistory(u, p, s.home);
    var jobs := s.jobs[id := s.jobs[id].(status := Running)];
    var prov := s.prov[p := v];
    forall j | j in jobs ensures StatusOK(j, jobs[j], prov, s.closed, s.home) {
      assert StatusOK(j, s.jobs[j], s.prov, s.closed, s.home);
      assert forall q :: q in u.queue <==> q == id || q in v.queue;
      assert s.home[id] == p by { assert id in u.submitted; }
    }
  }

  lemma PutHistory(prov: Provs, home: map<JobId, ProviderId>, p: ProviderId, v: Prov)
    requires HistoryInv(prov, home) && p in prov && HistoryOK(v, p, home)
    ensures HistoryInv(prov[p := v], home)
  {}

  /** Worker w takes the queued job `id`, which no busy worker has. */
  lemma PopKeepsBusy(cfg: Config, pc: Pcs, w: WorkerId, prov: Provs, p: ProviderId, v: Prov, jobs: map<JobId, Job>,
                     id: JobId)
    requires BusyInv(cfg, pc, prov, jobs) && w in pc && WorksFor(cfg, w, p) && p in prov
    requires id in jobs && jobs[id].status.Queued? && !jobs[id].direct
    requires v.dequeued == prov[p].dequeued + [id]
    ensures BusyInv(cfg, pc[w := Busy(id, Gate)], prov[p := v], jobs[id := jobs[id].(status := Running)])
  {}

  lemma PopKeepsDelivery(pc: Pcs, w: WorkerId, prov: Provs, p: ProviderId, v: Prov, closed: seq<JobId>, id: JobId)
    requires DeliveryInv(pc, prov, closed) && w in pc && !pc[w].Busy? && p in prov
    requires v.dequeued == prov[p].dequeued + [id]
    ensures DeliveryInv(pc[w := Busy(id, Gate)], prov[p := v], closed)
  {
    var pc1, prov1 := pc[w := Busy(id, Gate)], prov[p := v];
    forall q, j | q in prov1 && j in prov1[q].dequeued && j !in closed ensures exists x :: HeldBy(pc1, x, j) {
      if q == p && j == id {
        assert HeldBy(pc1, w, id);
      } else {
        assert j in prov[q].dequeued;
        var x :| HeldBy(pc, x, j);
        assert HeldBy(pc1, x, j);
      }
    }
  }

  lemma PopIsQueued(s: State, p: ProviderId, id: JobId)
    requires HistoryInv(s.prov, s.home) && StatusInv(s.prov, s.jobs, s.closed, s.home) && p in s.prov
             && id in s.prov[p].queue
    ensures id in s.jobs && s.jobs[id].status.Queued? && !s.jobs[id].direct && s.home[id] == p
  {
    assert HistoryOK(s.prov[p], p, s.home);
    assert id in s.prov[p].submitted;
    assert StatusOK(id, s.jobs[id], s.prov, s.closed, s.home);
  }

  lemma PopKeepsJobs(s: State, w: WorkerId)
    requires TypeOK(s) && JobInv(s) && CanWork(s, w) && s.pc[w].Popping? && s.prov[Of(s, w)].queue != []
    ensures JobInv(PopStep(s, w))
  {
    var p := Of(s, w);
    var u := s.prov[p];
    var id := u.queue[0];
    assert id in u.queue;
    assert HistoryOK(u, p, s.home);
    PopKeepsHistory(u, p, s.home);
    PutHistory(s.prov, s.home, p, Popped(u));
    PopKeepsStatus(s, p, Popped(u), id);
    PopIsQueued(s, p, id);
    PopKeepsBusy(s.cfg, s.pc, w, s.prov, p, Popped(u), s.jobs, id);
    PopKeepsDelivery(s.pc, w, s.prov, p, Popped(u), s.closed, id);
  }

  lemma PopTypes(s: State, w: WorkerId)
    requires TypeOK(s) && CanWork(s, w) && s.pc[w].Popping? && s.prov[Of(s, w)].queue != []
    ensures TypeOK(PopStep(s, w))
  {
    var t := PopStep(s, w);
    assert s.jobs.Keys <= t.jobs.Keys;
    forall p, id | p in t.prov && id in t.prov[p].queue ensures id in t.jobs { assert id in s.prov[p].queue; }
  }

  lemma PopKeepsProviders(s: State, w: WorkerId, p: ProviderId, id: JobId)
    requires ResourceInv(s.cfg, s.pc, s.resources, s.clock)
    requires ProvInv(s.cfg, s.pc, s.prov) && WorkerInv(s.cfg, s.pc, s.prov)
    requires At(s, w) && s.pc[w].Popping? && p == Of(s, w) && s.prov[p].queue != []
    ensures var pc, prov := s.pc[w := Busy(id, Gate)], s.prov[p := Popped(s.prov[p])];
            ResourceInv(s.cfg, pc, s.resources, s.clock) && ProvInv(s.cfg, pc, prov) && WorkerInv(s.cfg, pc, prov)
  {
    assert ProvOK(s.cfg, s.pc, p, s.prov[p]);
    ResourceSame(s.cfg, s.pc, w, Busy(id, Gate), s.resources, s.clock, s.clock);
    ProvMove(s.cfg, s.pc, w, Busy(id, Gate), s.prov, p, Popped(s.prov[p]));
    WorkerMove(s.cfg, s.pc, w, Busy(id, Gate), s.prov, p, Popped(s.prov[p]));
  }

  lemma PopKeeps(s: State, w: WorkerId)
    requires Inv(s) && CanWork(s, w) && s.pc[w].Popping?
    ensures Inv(PopStep(s, w))
  {
    var p := Of(s, w);
    var u := s.prov[p];
    if u.queue == [] {
      NothingToPop(s, w);
    } else {
      PopTypes(s, w);
      PopKeepsProviders(s, w, p, u.queue[0]);
      PopKeepsJobs(s, w);
    }
  }

  lemma NothingToPop(s: State, w: WorkerId)
    requires Inv(s) && At(s, w) && s.pc[w].Popping?
    ensures Inv(Move(s, w, Releasing))
  {
    var u := s.prov[Of(s, w)];
    assert ProvOK(s.cfg, s.pc, Of(s, w), u);
    assert s.prov == s.prov[Of(s, w) := u];
    MoveKeeps(s, w, Releasing, u);
  }

  // ---------- the end of a job ----------

  /** The running job `id` is closed. */
  lemma EndKeepsStatus(prov: Provs, jobs: map<JobId, Job>, closed: seq<JobId>, home: map<JobId, ProviderId>, id: JobId,
                       j: Job)
    requires StatusInv(prov, jobs, closed, home) && id in jobs && jobs[id].status.Running?
    requires j.provider == jobs[id].provider && j.direct == jobs[id].direct && j.status.Done()
    ensures StatusInv(prov, jobs[id := j], closed + [id], home)
  {
    assert StatusOK(id, jobs[id], prov, closed, home);
    var jobs1, closed1 := jobs[id := j], closed + [id];
    forall k | k in jobs1 ensures StatusOK(k, jobs1[k], prov, closed1, home) {
      assert StatusOK(k, jobs[k], prov, closed, home);
    }
  }

  lemma FinishKeepsBusy(cfg: Config, pc: Pcs, w: WorkerId, at: Pc, prov: Provs, jobs: map<JobId, Job>, id: JobId,
                        j: Job)
    requires BusyInv(cfg, pc, prov, jobs) && HeldBy(pc, w, id) && !at.Busy?
    ensures BusyInv(cfg, pc[w := at], prov, jobs[id := j])
  {}

  lemma FinishKeepsDelivery(pc: Pcs, w: WorkerId, at: Pc, prov: Provs, closed: seq<JobId>, id: JobId)
    requires DeliveryInv(pc, prov, closed) && HeldBy(pc, w, id)
    ensures DeliveryInv(pc[w := at], prov, closed + [id])
  {
    var pc1 := pc[w := at];
    forall q, j | q in prov && j in prov[q].dequeued && j !in closed + [id] ensures exists x :: HeldBy(pc1, x, j) {
      var x :| HeldBy(pc, x, j);
      assert HeldBy(pc1, x, j);
    }
  }

  lemma FinishTypes(s: State, w: WorkerId, id: JobId, ok: bool, now: Time)
    requires TypeOK(s) && CanWork(s, w) && id in s.jobs && s.clock <= now
    ensures TypeOK(FinishStep(s, w, id, ok, now))
  {
    var t := FinishStep(s, w, id, ok, now);
    assert s.jobs.Keys <= t.jobs.Keys;
    forall p, id | p in t.prov && id in t.prov[p].queue ensures id in t.jobs { assert id in s.prov[p].queue; }
  }

  lemma FinishProvOK(cfg: Config, pc: Pcs, w: WorkerId, p: ProviderId, u: Prov)
    requires ProvOK(cfg, pc, p, u) && w in pc && pc[w].Busy? && WorksFor(cfg, w, p)
    ensures var v := Finished(u, p in cfg.idleDelay);
            && TimerOK(v, p in cfg.idleDelay) && SameJobs(u, v) && v.active == u.active - 1 && v.idling == u.idling
            && v.locked == u.locked && v.warm == u.warm && v.broadcasts == u.broadcasts
  {
    assert w in BusyFor(cfg, pc, p);
  }

  lemma FinishKeepsJobs(s: State, w: WorkerId, id: JobId, ok: bool, now: Time)
    requires TypeOK(s) && JobInv(s) && CanWork(s, w) && s.pc[w] == Busy(id, Finishing(ok)) && id in s.jobs
    requires SameJobs(s.prov[Of(s, w)], Finished(s.prov[Of(s, w)], Of(s, w) in s.cfg.idleDelay))
    ensures JobInv(FinishStep(s, w, id, ok, now))
  {
    var j := s.jobs[id].(status := if ok then Succeeded else Failed, finishedAt := now);
    var m := s.(pc := s.pc[w := Releasing], jobs := s.jobs[id := j], closed := s.closed + [id], clock := now);
    EndKeepsStatus(s.prov, s.jobs, s.closed, s.home, id, j);
    FinishKeepsBusy(s.cfg, s.pc, w, Releasing, s.prov, s.jobs, id, j);
    FinishKeepsDelivery(s.pc, w, Releasing, s.prov, s.closed, id);
    assert JobInv(m);
    var t := FinishStep(s, w, id, ok, now);
    assert t == m.(prov := s.prov[Of(s, w) := Finished(s.prov[Of(s, w)], Of(s, w) in s.cfg.idleDelay)]);
    JobsUntouched(m, t);
  }

  lemma FinishKeepsProviders(s: State, w: WorkerId, p: ProviderId, now: Time)
    requires ResourceInv(s.cfg, s.pc, s.resources, s.clock) && s.clock <= now
    requires ProvInv(s.cfg, s.pc, s.prov) && WorkerInv(s.cfg, s.pc, s.prov)
    requires At(s, w) && s.pc[w].Busy? && !s.pc[w].LocksLifecycle() && p == Of(s, w)
    ensures var v := Finished(s.prov[p], p in s.cfg.idleDelay);
            var pc, prov := s.pc[w := Releasing], s.prov[p := v];
            && SameJobs(s.prov[p], v)
            && ResourceInv(s.cfg, pc, s.resources, now) && ProvInv(s.cfg, pc, prov) && WorkerInv(s.cfg, pc, prov)
  {
    var v := Finished(s.prov[p], p in s.cfg.idleDelay);
    FinishProvOK(s.cfg, s.pc, w, p, s.prov[p]);
    ResourceSame(s.cfg, s.pc, w, Releasing, s.resources, s.clock, now);
    ProvMove(s.cfg, s.pc, w, Releasing, s.prov, p, v);
    WorkerMove(s.cfg, s.pc, w, Releasing, s.prov, p, v);
  }

  lemma FinishKeeps(s: State, w: WorkerId, id: JobId, ok: bool, now: Time)
    requires Inv(s) && CanWork(s, w) && s.pc[w] == Busy(id, Finishing(ok)) && s.clock <= now
    ensures Inv(FinishStep(s, w, id, ok, now))
  {
    FinishTypes(s, w, id, ok, now);
    FinishKeepsProviders(s, w, Of(s, w), now);
    FinishKeepsJobs(s, w, id, ok, now);
  }

  lemma WorkKeeps(s: State, w: WorkerId, ok: bool, now: Time)
    requires Inv(s) && CanWork(s, w) && s.clock <= now
    ensures Inv(WorkStep(s, w, ok, now))
  {
    match s.pc[w]
    case Checking => CheckKeeps(s, w, now);
    case Parked =>
    case Acquiring => AcquireKeeps(s, w, now);
    case Popping => PopKeeps(s, w);
    case Busy(id, stage) =>
      if stage.Finishing? { FinishKeeps(s, w, id, stage.ok, now); } else { RunKeeps(s, w, id, stage, ok, now); }
    case Releasing => ReleaseKeeps(s, w, now);
  }

  // ---------- callers, timers and the sweeper ----------

  /** What timers and idle handlers may do to a provider. */
  predicate LocalPut(u: Prov, v: Prov, delay: bool) {
    && SameJobs(u, v) && v.active == u.active && v.broadcasts == u.broadcasts
    && v.idling - u.idling == Bit(v.locked) - Bit(u.locked)
    && (u.warm && !v.warm ==> u.active == 0)
    && TimerOK(v, delay)
  }

  lemma PutKeeps(s: State, p: ProviderId, v: Prov)
    requires Inv(s) && p in s.prov && LocalPut(s.prov[p], v, p in s.cfg.idleDelay)
    ensures Inv(Put(s, p, v))
  {
    PutKeepsProviders(s.cfg, s.pc, s.prov, p, v);
    PutTypes(s, p, v);
    JobsUntouched(s, Put(s, p, v));
  }

  lemma PutTypes(s: State, p: ProviderId, v: Prov)
    requires TypeOK(s) && p in s.prov && v.queue == s.prov[p].queue
    ensures TypeOK(Put(s, p, v))
  {}

  lemma PutKeepsProviders(cfg: Config, pc: Pcs, prov: Provs, p: ProviderId, v: Prov)
    requires ProvInv(cfg, pc, prov) && WorkerInv(cfg, pc, prov) && p in prov && LocalPut(prov[p], v, p in cfg.idleDelay)
    ensures ProvInv(cfg, pc, prov[p := v]) && WorkerInv(cfg, pc, prov[p := v])
  {
    assert ProvOK(cfg, pc, p, prov[p]);
    forall w | w in pc && WorksFor(cfg, w, p) ensures WorkerOK(pc[w], v, p in cfg.lifecycle) {
      assert WorkerOK(pc[w], prov[p], p in cfg.lifecycle);
      if pc[w].Busy? { assert w in BusyFor(cfg, pc, p); }
    }
  }

  lemma TimerStepIsLocal(s: State, a: Step) returns (p: ProviderId, v: Prov)
    requires TypeOK(s) && ProvInv(s.cfg, s.pc, s.prov) && Enabled(s, a)
    requires a.Expire? || a.ExpireOrphan? || a.FireIdle? || a.LockIdle? || a.IdleDone?
    ensures p in s.prov && Next(s, a) == Put(s, p, v) && LocalPut(s.prov[p], v, p in s.cfg.idleDelay)
  {
    p := a.p;
    v := Next(s, a).prov[p];
    assert ProvOK(s.cfg, s.pc, p, s.prov[p]);
  }

  lemma SubmitKeepsProviders(cfg: Config, pc: Pcs, prov: Provs, p: ProviderId, id: JobId)
    requires ProvInv(cfg, pc, prov) && WorkerInv(cfg, pc, prov) && p in prov
    ensures ProvInv(cfg, pc, prov[p := Enqueued(prov[p], id)]) && WorkerInv(cfg, pc, prov[p := Enqueued(prov[p], id)])
  {
    assert ProvOK(cfg, pc, p, prov[p]);
  }

  lemma SubmitTypes(s: State, p: ProviderId, id: JobId)
    requires TypeOK(s)
    ensures TypeOK(SubmitStep(s, p, id))
  {
    var t := SubmitStep(s, p, id);
    forall q, j | q in t.prov && j in t.prov[q].queue ensures j in t.jobs { assert j == id || j in s.prov[q].queue; }
  }

  /** A fresh id: no queue, history or record mentions it. */
  lemma FreshId(s: State, id: JobId)
    requires JobInv(s) && id !in s.home
    ensures id !in s.jobs && id !in s.closed
    ensures forall p :: p in s.prov ==>
            id !in s.prov[p].submitted && id !in s.prov[p].queue && id !in s.prov[p].dequeued
  {
    assert id in s.jobs ==> StatusOK(id, s.jobs[id], s.prov, s.closed, s.home);
    forall p | p in s.prov ensures id !in s.prov[p].submitted && id !in s.prov[p].queue && id !in s.prov[p].dequeued {
      assert HistoryOK(s.prov[p], p, s.home);
      assert id !in s.prov[p].dequeued + s.prov[p].queue;
    }
  }

  lemma SubmitKeepsHistory(prov: Provs, p: ProviderId, id: JobId, home: map<JobId, ProviderId>)
    requires HistoryInv(prov, home) && p in prov && id !in home
    ensures HistoryInv(prov[p := Enqueued(prov[p], id)], home[id := p])
  {
    var u, v, home1 := prov[p], Enqueued(prov[p], id), home[id := p];
    assert HistoryOK(u, p, home);
    assert u.dequeued + u.queue + [id] == v.dequeued + v.queue;
    var prov1 := prov[p := v];
    forall q | q in prov1 ensures HistoryOK(prov1[q], q, home1) { assert HistoryOK(prov[q], q, home); }
  }

  lemma SubmitKeepsStatus(s: State, p: ProviderId, id: JobId)
    requires JobInv(s) && id !in s.home && p in s.prov
    ensures StatusInv(s.prov[p := Enqueued(s.prov[p], id)], s.jobs[id := Job(p, Queued, false, 0, 0)], s.closed,
                      s.home[id := p])
  {
    FreshId(s, id);
    var prov, jobs, home := s.prov[p := Enqueued(s.prov[p], id)], s.jobs[id := Job(p, Queued, false, 0, 0)],
        s.home[id := p];
    forall j | j in jobs ensures StatusOK(j, jobs[j], prov, s.closed, home) {
      if j == id { assert id in prov[p].queue by { assert prov[p].queue[|s.prov[p].queue|] == id; } }
      else { assert StatusOK(j, s.jobs[j], s.prov, s.closed, s.home); }
    }
  }

  /** Busy workers and deliveries are unmoved by a new job. */
  lemma NewJobKeepsBusy(s: State, prov: Provs, id: JobId, j: Job)
    requires BusyInv(s.cfg, s.pc, s.prov, s.jobs) && DeliveryInv(s.pc, s.prov, s.closed) && id !in s.jobs
    requires prov.Keys == s.prov.Keys && forall p :: p in prov ==> prov[p].dequeued == s.prov[p].dequeued
    ensures BusyInv(s.cfg, s.pc, prov, s.jobs[id := j]) && DeliveryInv(s.pc, prov, s.closed)
  {
    forall w | w in s.pc && s.pc[w].Busy?
      ensures s.cfg.workers[w] in prov && s.pc[w].job in prov[s.cfg.workers[w]].dequeued && s.pc[w].job != id
    {
      var p: ProviderId := s.cfg.workers[w];
      assert p in s.prov && p in prov && prov[p].dequeued == s.prov[p].dequeued;
    }
  }

  lemma SubmitKeeps(s: State, p: ProviderId, id: JobId)
    requires Inv(s) && id !in s.home
    ensures Inv(SubmitStep(s, p, id))
  {
    if p in s.prov {
      FreshId(s, id);
      SubmitTypes(s, p, id);
      SubmitKeepsProviders(s.cfg, s.pc, s.prov, p, id);
      SubmitKeepsHistory(s.prov, p, id, s.home);
      SubmitKeepsStatus(s, p, id);
      NewJobKeepsBusy(s, s.prov[p := Enqueued(s.prov[p], id)], id, Job(p, Queued, false, 0, 0));
    }
  }

  /** Unparking changes none of the counts. */
  lemma BroadcastCounts(s: State, p: ProviderId)
    requires TypeOK(s) && p in s.prov && s.prov[p].broadcasts > 0
    ensures var pc := BroadcastStep(s, p).pc;
            && pc.Keys == s.pc.Keys
            && (forall w :: w in pc ==> pc[w] == s.pc[w] || (s.pc[w].Parked? && pc[w].Checking?))
            && (forall w :: w in pc && WorksFor(s.cfg, w, p) ==> !pc[w].Parked?)
            && (forall g :: Holders(s.cfg, pc, g) == Holders(s.cfg, s.pc, g))
            && (forall q :: BusyFor(s.cfg, pc, q) == BusyFor(s.cfg, s.pc, q))
            && (forall q :: Lockers(s.cfg, pc, q) == Lockers(s.cfg, s.pc, q))
  {}

  lemma BroadcastKeepsProviders(s: State, p: ProviderId, t: State)
    requires ResourceInv(s.cfg, s.pc, s.resources, s.clock) && ProvInv(s.cfg, s.pc, s.prov)
             && WorkerInv(s.cfg, s.pc, s.prov)
    requires TypeOK(s) && p in s.prov && s.prov[p].broadcasts > 0 && t == BroadcastStep(s, p)
    ensures ResourceInv(t.cfg, t.pc, t.resources, t.clock) && ProvInv(t.cfg, t.pc, t.prov)
            && WorkerInv(t.cfg, t.pc, t.prov)
  {
    BroadcastCounts(s, p);
    forall g | g in t.resources ensures GroupInv(t.cfg, t.pc, g, t.resources[g], t.clock) {
      assert GroupInv(s.cfg, s.pc, g, s.resources[g], s.clock);
    }
    forall q | q in t.prov ensures ProvOK(t.cfg, t.pc, q, t.prov[q]) { assert ProvOK(s.cfg, s.pc, q, s.prov[q]); }
  }

  lemma BroadcastTypes(s: State, p: ProviderId)
    requires TypeOK(s) && p in s.prov && s.prov[p].broadcasts > 0
    ensures var t := BroadcastStep(s, p);
            && TypeOK(t) && t.pc.Keys == s.pc.Keys && (forall w :: w in s.pc ==> SameWork(s.pc[w], t.pc[w]))
            && t.prov.Keys == s.prov.Keys && (forall q :: q in s.prov ==> SameJobs(s.prov[q], t.prov[q]))
  {
    var t := BroadcastStep(s, p);
    forall q, id | q in t.prov && id in t.prov[q].queue ensures id in t.jobs { assert id in s.prov[q].queue; }
  }

  lemma BroadcastKeeps(s: State, p: ProviderId)
    requires Inv(s) && p in s.prov && s.prov[p].broadcasts > 0
    ensures Inv(BroadcastStep(s, p))
  {
    var t := BroadcastStep(s, p);
    BroadcastTypes(s, p);
    BroadcastKeepsProviders(s, p, t);
    JobsUntouched(s, t);
  }

  lemma BumpKeeps(s: State, id: JobId)
    requires Inv(s)
    ensures Inv(BumpStep(s, id))
  {
    var t := BumpStep(s, id);
    forall j | j in t.jobs ensures StatusOK(j, t.jobs[j], t.prov, t.closed, t.home) {
      assert StatusOK(j, s.jobs[j], s.prov, s.closed, s.home);
    }
  }

  lemma NewRunningKeeps(s: State, p: ProviderId, id: JobId)
    requires Inv(s) && id !in s.home
    ensures Inv(NewRunningStep(s, p, id))
  {
    var t := NewRunningStep(s, p, id);
    FreshId(s, id);
    forall j | j in t.jobs ensures StatusOK(j, t.jobs[j], t.prov, t.closed, t.home) {
      if j != id { assert StatusOK(j, s.jobs[j], s.prov, s.closed, s.home); }
    }
    forall q | q in t.prov ensures HistoryOK(t.prov[q], q, t.home) { assert HistoryOK(s.prov[q], q, s.home); }
    NewJobKeepsBusy(s, s.prov, id, t.jobs[id]);
  }

  lemma EndDirectKeeps(s: State, id: JobId, ok: bool, now: Time)
    requires Inv(s) && id in s.jobs && s.jobs[id].direct && !s.jobs[id].status.Done() && s.clock <= now
    ensures Inv(EndJob(s, id, ok, now))
  {
    var t := EndJob(s, id, ok, now);
    assert StatusOK(id, s.jobs[id], s.prov, s.closed, s.home);
    EndKeepsStatus(s.prov, s.jobs, s.closed, s.home, id, t.jobs[id]);
    ResourceLater(s, now);
  }

  lemma ResourceLater(s: State, now: Time)
    requires ResourceInv(s.cfg, s.pc, s.resources, s.clock) && s.clock <= now
    ensures ResourceInv(s.cfg, s.pc, s.resources, now)
  {
    forall g | g in s.resources ensures GroupInv(s.cfg, s.pc, g, s.resources[g], now) {
      assert GroupInv(s.cfg, s.pc, g, s.resources[g], s.clock);
    }
  }

  lemma SweepKeeps(s: State, now: Time)
    requires Inv(s)
    ensures Inv(SweepStep(s, now))
  {
    SweepKeepsJobs(s, now);
  }

  lemma SweepKeepsJobs(s: State, now: Time)
    requires TypeOK(s) && JobInv(s)
    ensures JobInv(SweepStep(s, now)) && TypeOK(SweepStep(s, now))
  {
    var t := SweepStep(s, now);
    forall id | id in s.jobs && id !in t.jobs ensures id in s.closed && s.jobs[id].status.Done() {
      assert StatusOK(id, s.jobs[id], s.prov, s.closed, s.home);
    }
    forall p, id | p in t.prov && id in t.prov[p].queue ensures id in t.jobs { PopIsQueued(s, p, id); }
    forall j | j in t.jobs ensures StatusOK(j, t.jobs[j], t.prov, t.closed, t.home) {
      assert StatusOK(j, s.jobs[j], s.prov, s.closed, s.home);
    }
  }

  // ---------- every step, every run ----------

  lemma NextKeeps(s: State, a: Step)
    requires Inv(s) && Enabled(s, a)
    ensures Inv(Next(s, a))
  {
    match a
    case Work(w, ok, now) => WorkKeeps(s, w, ok, now);
    case Submit(p, id) => SubmitKeeps(s, p, id);
    case Broadcast(p) => BroadcastKeeps(s, p);
    case BumpChunk(id) => BumpKeeps(s, id);
    case NewRunning(p, id) => NewRunningKeeps(s, p, id);
    case EndDirect(id, ok, now) => if id in s.jobs { EndDirectKeeps(s, id, ok, now); }
    case Sweep(now) => SweepKeeps(s, now);
    case _ =>
      var p, v := TimerStepIsLocal(s, a);
      PutKeeps(s, p, v);
  }

  /** The invariant holds in every state of every run. */
  lemma {:induction false} RunKeepsInv(cfg: Config, run: seq<State>, steps: seq<Step>, i: nat)
    requires IsRun(cfg, run, steps) && i < |run|
    ensures Inv(run[i])
  {
    if i == 0 {
      InitInv(cfg, run[0]);
    } else {
      RunKeepsInv(cfg, run, steps, i - 1);
      assert Enabled(run[i-1], steps[i-1]);
      NextKeeps(run[i-1], steps[i-1]);
    }
  }
}
