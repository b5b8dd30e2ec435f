/** The inductive invariants of the job queue, one predicate a concern. Each speaks only of the
    part of the state it needs, so that the lemmas below serve many steps. */
module QueueInvariants {
  import opened QueueMachine

  type Provs = map<ProviderId, Prov>
  type Pcs = map<WorkerId, Pc>

  // ---------- counting workers ----------

  predicate InGroup(cfg: Config, w: WorkerId, g: Group) {
    w in cfg.workers && cfg.workers[w] in cfg.group && cfg.group[cfg.workers[w]] == g
  }

  predicate WorksFor(cfg: Config, w: WorkerId, p: ProviderId) { w in cfg.workers && cfg.workers[w] == p }

  function Holders(cfg: Config, pc: Pcs, g: Group): set<WorkerId> {
    set w | w in pc && pc[w].Holds() && InGroup(cfg, w, g)
  }

  function BusyFor(cfg: Config, pc: Pcs, p: ProviderId): set<WorkerId> {
    set w | w in pc && pc[w].Busy? && WorksFor(cfg, w, p)
  }

  function Lockers(cfg: Config, pc: Pcs, p: ProviderId): set<WorkerId> {
    set w | w in pc && pc[w].LocksLifecycle() && WorksFor(cfg, w, p)
  }

  function Bit(b: bool): int { if b then 1 else 0 }

  lemma SetMove(a: set<WorkerId>, b: set<WorkerId>, w: WorkerId, here: bool)
    requires b == if here then a + {w} else a - {w}
    ensures |b| == |a| + Bit(here) - Bit(w in a)
  {
    if here && w in a { assert b == a; }
    if !here && w !in a { assert b == a; }
  }

  lemma HoldersMove(cfg: Config, pc: Pcs, w: WorkerId, at: Pc, g: Group)
    requires w in pc
    ensures var b := Holders(cfg, pc[w := at], g);
            && b == (if at.Holds() && InGroup(cfg, w, g) then Holders(cfg, pc, g) + {w} else Holders(cfg, pc, g) - {w})
            && |b| == |Holders(cfg, pc, g)| + Bit(at.Holds() && InGroup(cfg, w, g))
               - Bit(pc[w].Holds() && InGroup(cfg, w, g))
  {
    SetMove(Holders(cfg, pc, g), Holders(cfg, pc[w := at], g), w, at.Holds() && InGroup(cfg, w, g));
  }

  lemma BusyMove(cfg: Config, pc: Pcs, w: WorkerId, at: Pc, p: ProviderId)
    requires w in pc
    ensures |BusyFor(cfg, pc[w := at], p)| ==
            |BusyFor(cfg, pc, p)| + Bit(at.Busy? && WorksFor(cfg, w, p)) - Bit(pc[w].Busy? && WorksFor(cfg, w, p))
  {
    var a, b := BusyFor(cfg, pc, p), BusyFor(cfg, pc[w := at], p);
    assert b == if at.Busy? && WorksFor(cfg, w, p) then a + {w} else a - {w};
    SetMove(a, b, w, at.Busy? && WorksFor(cfg, w, p));
  }

  lemma LockersMove(cfg: Config, pc: Pcs, w: WorkerId, at: Pc, p: ProviderId)
    requires w in pc
    ensures |Lockers(cfg, pc[w := at], p)| ==
            |Lockers(cfg, pc, p)| + Bit(at.LocksLifecycle() && WorksFor(cfg, w, p))
                - Bit(pc[w].LocksLifecycle() && WorksFor(cfg, w, p))
  {
    var a, b := Lockers(cfg, pc, p), Lockers(cfg, pc[w := at], p);
    assert b == if at.LocksLifecycle() && WorksFor(cfg, w, p) then a + {w} else a - {w};
    SetMove(a, b, w, at.LocksLifecycle() && WorksFor(cfg, w, p));
  }

  // ---------- shared resources ----------

  /** `activeJobs` counts the workers that hold the group, all for `activeProvider`; a group
      that nobody holds knows since when. */
  ghost predicate GroupInv(cfg: Config, pc: Pcs, g: Group, r: Resource, clock: Time) {
    && r.activeJobs == |Holders(cfg, pc, g)|
    && (forall w :: w in Holders(cfg, pc, g) ==> cfg.workers[w] == r.activeProvider)
    && (r.activeProvider == NONE ==> r.activeJobs == 0)
    && (r.activeProvider != NONE ==> r.activeProvider in cfg.group && cfg.group[r.activeProvider] == g)
    && (r.activeProvider != NONE && r.activeJobs == 0 ==> 0 < r.idleSince <= clock)
  }

  ghost predicate ResourceInv(cfg: Config, pc: Pcs, res: map<Group, Resource>, clock: Time) {
    forall g :: g in res ==> GroupInv(cfg, pc, g, res[g], clock)
  }

  /** A worker moves without taking or giving back its group. */
  lemma ResourceSame(cfg: Config, pc: Pcs, w: WorkerId, at: Pc, res: map<Group, Resource>, clock: Time, now: Time)
    requires ResourceInv(cfg, pc, res, clock) && clock <= now
    requires w in pc && (at.Holds() == pc[w].Holds() || (w in cfg.workers && cfg.workers[w] !in cfg.group))
    ensures ResourceInv(cfg, pc[w := at], res, now)
  {
    forall g | g in res ensures GroupInv(cfg, pc[w := at], g, res[g], now) { HoldersMove(cfg, pc, w, at, g); }
  }

  lemma ResourceTaken(cfg: Config, pc: Pcs, w: WorkerId, at: Pc, g: Group, res: map<Group, Resource>, clock: Time,
                      now: Time)
    requires ResourceInv(cfg, pc, res, clock) && clock <= now && g in res && NONE !in cfg.providers
    requires w in pc && InGroup(cfg, w, g) && !pc[w].Holds() && at.Holds() && cfg.workers[w] in cfg.providers
    requires res[g].activeJobs == 0 || res[g].activeProvider == cfg.workers[w]
    ensures ResourceInv(cfg, pc[w := at], res[g := Resource(cfg.workers[w], res[g].activeJobs + 1, 0)], now)
  {
    forall h | h in res { HoldersMove(cfg, pc, w, at, h); }
    var t := res[g := Resource(cfg.workers[w], res[g].activeJobs + 1, 0)];
    forall h | h in t ensures GroupInv(cfg, pc[w := at], h, t[h], now) {
      HoldersMove(cfg, pc, w, at, h);
      if h == g && res[g].activeJobs == 0 { assert Holders(cfg, pc, g) == {}; }
    }
  }

  lemma ResourceGiven(cfg: Config, pc: Pcs, w: WorkerId, at: Pc, g: Group, res: map<Group, Resource>, clock: Time,
                      now: Time)
    requires ResourceInv(cfg, pc, res, clock) && 0 < clock <= now && g in res
    requires w in pc && InGroup(cfg, w, g) && pc[w].Holds() && !at.Holds()
    ensures res[g].activeProvider == cfg.workers[w] && res[g].activeJobs > 0
    ensures var r := res[g];
            ResourceInv(cfg, pc[w := at],
              res[g := r.(activeJobs := r.activeJobs - 1, idleSince := if r.activeJobs == 1 then now else r.idleSince)],
              if r.activeJobs == 1 then now else clock)
  {
    var r := res[g];
    var t := res[g := r.(activeJobs := r.activeJobs - 1, idleSince := if r.activeJobs == 1 then now else r.idleSince)];
    var c := if r.activeJobs == 1 then now else clock;
    assert w in Holders(cfg, pc, g);
    forall h | h in t ensures GroupInv(cfg, pc[w := at], h, t[h], c) { HoldersMove(cfg, pc, w, at, h); }
  }

  // ---------- providers ----------

  /** A provider with nothing running and nothing queued. */
  predicate Quiet(v: Prov) { v.active == 0 && v.queue == [] }

  /** Both directions of the idle-unload timer; `delay` says whether p has an idle delay. */
  predicate TimerOK(v: Prov, delay: bool) {
    && (!v.timer.NoTimer? ==> Quiet(v))
    && (delay && v.warm && Quiet(v) ==> v.timer.Armed? || (v.timer.Expired? && v.firing > 0))
  }

  /** `active` counts the jobs between dequeue and finish, and the lifecycle mutex is held by
      exactly one worker or handler when locked, by none otherwise. */
  ghost predicate ProvOK(cfg: Config, pc: Pcs, p: ProviderId, v: Prov) {
    && v.active == |BusyFor(cfg, pc, p)|
    && |Lockers(cfg, pc, p)| + v.idling == Bit(v.locked)
    && TimerOK(v, p in cfg.idleDelay)
  }

  ghost predicate ProvInv(cfg: Config, pc: Pcs, prov: Provs) {
    forall p :: p in prov ==> ProvOK(cfg, pc, p, prov[p])
  }

  lemma ProvMove(cfg: Config, pc: Pcs, w: WorkerId, at: Pc, prov: Provs, p: ProviderId, v: Prov)
    requires ProvInv(cfg, pc, prov) && w in pc && WorksFor(cfg, w, p) && p in prov
    requires v.active - prov[p].active == Bit(at.Busy?) - Bit(pc[w].Busy?)
    requires v.idling == prov[p].idling
    requires Bit(v.locked) - Bit(prov[p].locked) == Bit(at.LocksLifecycle()) - Bit(pc[w].LocksLifecycle())
    requires TimerOK(v, p in cfg.idleDelay)
    ensures ProvInv(cfg, pc[w := at], prov[p := v])
  {
    var t := prov[p := v];
    forall q | q in t ensures ProvOK(cfg, pc[w := at], q, t[q]) {
      BusyMove(cfg, pc, w, at, q);
      LockersMove(cfg, pc, w, at, q);
    }
  }

  /** A hand-over makes two quiet providers cold. */
  lemma ProvCold(cfg: Config, pc: Pcs, prov: Provs, p: ProviderId)
    requires ProvInv(cfg, pc, prov) && p in prov
    ensures ProvInv(cfg, pc, prov[p := prov[p].(warm := false)])
  {}

  // ---------- workers ----------

  /** A provider with a lifecycle is warm while one of its workers synthesizes, and a worker
      parked beside queued work has a broadcast coming: no wake-up is lost. */
  predicate WorkerOK(pc: Pc, v: Prov, lifecycle: bool) {
    && (pc.Is(Synthesizing) && lifecycle ==> v.warm)
    && (pc.Parked? && v.queue != [] ==> v.broadcasts > 0)
  }

  ghost predicate WorkerInv(cfg: Config, pc: Pcs, prov: Provs) {
    forall w :: w in pc && w in cfg.workers && cfg.workers[w] in prov ==>
      WorkerOK(pc[w], prov[cfg.workers[w]], cfg.workers[w] in cfg.lifecycle)
  }

  lemma WorkerMove(cfg: Config, pc: Pcs, w: WorkerId, at: Pc, prov: Provs, p: ProviderId, v: Prov)
    requires WorkerInv(cfg, pc, prov) && w in pc && WorksFor(cfg, w, p) && p in prov
    requires prov[p].warm ==> v.warm
    requires v.queue != [] ==> prov[p].queue != [] && v.broadcasts == prov[p].broadcasts
    requires WorkerOK(at, v, p in cfg.lifecycle)
    ensures WorkerInv(cfg, pc[w := at], prov[p := v])
  {}

  // ---------- jobs ----------

  predicate NoDup<T(==)>(q: seq<T>) { forall i, j :: 0 <= i < j < |q| ==> q[i] != q[j] }

  /** FIFO and conservation of submitted jobs. */
  ghost predicate HistoryOK(v: Prov, p: ProviderId, home: map<JobId, ProviderId>) {
    && v.submitted == v.dequeued + v.queue
    && NoDup(v.submitted)
    && (forall id :: id in v.submitted ==> id in home && home[id] == p)
  }

  ghost predicate HistoryInv(prov: Provs, home: map<JobId, ProviderId>) {
    forall p :: p in prov ==> HistoryOK(prov[p], p, home)
  }

  /** What the status of a job says about where it is. */
  ghost predicate StatusOK(id: JobId, j: Job, prov: Provs, closed: seq<JobId>, home: map<JobId, ProviderId>) {
    && id in home && j.provider == home[id]
    && (j.status.Queued? <==> (home[id] in prov && id in prov[home[id]].queue))
    && (j.status.Queued? ==> !j.direct)
    && (j.status.Done() <==> id in closed)
  }

  ghost predicate StatusInv(prov: Provs, jobs: map<JobId, Job>, closed: seq<JobId>, home: map<JobId, ProviderId>) {
    && (forall id :: id in jobs ==> StatusOK(id, jobs[id], prov, closed, home))
    && (forall p, id :: p in prov && id in prov[p].queue ==> id in jobs)
    && (forall id :: id in home && id !in jobs ==> id in closed)
    && (forall id :: id in closed ==> id in home)
    && NoDup(closed)
  }

  /** A busy worker has a dequeued, running job of its own provider, and of no other worker. */
  ghost predicate BusyInv(cfg: Config, pc: Pcs, prov: Provs, jobs: map<JobId, Job>) {
    && (forall w :: w in pc && pc[w].Busy? ==>
          && w in cfg.workers && cfg.workers[w] in prov && pc[w].job in prov[cfg.workers[w]].dequeued
          && pc[w].job in jobs && jobs[pc[w].job].status.Running? && !jobs[pc[w].job].direct)
    && (forall w, x :: w in pc && x in pc && pc[w].Busy? && pc[x].Busy? && w != x ==> pc[w].job != pc[x].job)
  }

  ghost predicate HeldBy(pc: Pcs, w: WorkerId, id: JobId) {
    w in pc && pc[w].Busy? && pc[w].job == id
  }

  /** Every dequeued job is finished or in the hands of a worker. */
  ghost predicate DeliveryInv(pc: Pcs, prov: Provs, closed: seq<JobId>) {
    forall p, id :: p in prov && id in prov[p].dequeued ==> id in closed || exists w :: HeldBy(pc, w, id)
  }

  ghost predicate JobInv(s: State) {
    && HistoryInv(s.prov, s.home)
    && StatusInv(s.prov, s.jobs, s.closed, s.home)
    && BusyInv(s.cfg, s.pc, s.prov, s.jobs)
    && DeliveryInv(s.pc, s.prov, s.closed)
  }

  ghost predicate Inv(s: State) {
    && TypeOK(s)
    && ResourceInv(s.cfg, s.pc, s.resources, s.clock)
    && ProvInv(s.cfg, s.pc, s.prov)
    && WorkerInv(s.cfg, s.pc, s.prov)
    && JobInv(s)
  }

  lemma InitInv(cfg: Config, s: State)
    requires cfg.Valid() && IsInit(cfg, s)
    ensures Inv(s)
  {
    forall g | g in s.resources ensures GroupInv(cfg, s.pc, g, s.resources[g], s.clock) {
      assert Holders(cfg, s.pc, g) == {};
    }
    forall p | p in s.prov ensures ProvOK(cfg, s.pc, p, s.prov[p]) {
      assert BusyFor(cfg, s.pc, p) == {};
      assert Lockers(cfg, s.pc, p) == {};
    }
  }
}
