/** The job queue as a state machine. Every critical section under the manager's mutex is one
    step; between two steps of one worker any steps of other workers, timers and callers may run. */
module QueueMachine {
  /** Provider ids and group names are only compared; NONE is the empty string. */
  type ProviderId = int
  type Group = int
  const NONE: ProviderId := 0
  type WorkerId = int
  type JobId = int
  /** Clock readings; 0 is the zero time that `IsZero` recognises. */
  type Time = int

  datatype Config = Config(
    providers: set<ProviderId>,
    lifecycle: set<ProviderId>,
    workers: map<WorkerId, ProviderId>,
    group: map<ProviderId, Group>,
    switchDelay: map<Group, int>,
    idleDelay: map<ProviderId, int>,
    jobTTL: int)
  {
    /** What the constructor establishes: every provider has at least one worker, groups and
        delays are only recorded for known providers, and provider ids are not empty. */
    ghost predicate Valid() {
      && NONE !in providers
      && (forall w :: w in workers ==> workers[w] in providers)
      && (forall p :: p in providers ==> exists w :: w in workers && workers[w] == p)
      && (forall p :: p in group ==> p in providers && group[p] in switchDelay)
      && (forall p :: p in idleDelay ==> p in providers && idleDelay[p] > 0)
    }
  }

  datatype Status = Queued | Running | Succeeded | Failed {
    predicate Done() { Succeeded? || Failed? }
  }

  /** `direct` marks a job made by NewRunningJob, which no worker ever handles. */
  datatype Job = Job(provider: ProviderId, status: Status, direct: bool, finishedAt: Time, chunks: nat)

  datatype Resource = Resource(activeProvider: ProviderId, activeJobs: int, idleSince: Time)

  /** The timer that `idleTimers[p]` points to. An expired timer has started its handler. */
  datatype Timer = NoTimer | Armed | Expired

  /** Everything kept for one provider: the manager's entries, the goroutines that act for it,
      and two histories that no guard reads. */
  datatype Prov = Prov(
    queue: seq<JobId>,
    active: int,
    warm: bool,
    timer: Timer,
    broadcasts: nat,   // Submit calls that have not yet broadcast
    orphans: nat,      // running timers that idleTimers no longer points to
    firing: nat,       // timer handlers that have not yet taken the mutex
    unloading: nat,    // handlers waiting for the lifecycle mutex
    idling: nat,       // handlers inside Lifecycle.Idle
    locked: bool,      // the lifecycle mutex
    submitted: seq<JobId>,
    dequeued: seq<JobId>)

  /** Where `run` stands. Between WarmRecheck and the end of Warming the worker has locked its
      provider's lifecycle mutex. */
  datatype Stage = Gate | WarmCheck | WarmWait | WarmRecheck | Warming | MarkWarm | Synthesizing | Finishing(ok: bool)

  /** Where a worker goroutine stands between two critical sections. `Busy` is the time from
      dequeue to finish of a job. */
  datatype Pc = Checking | Parked | Acquiring | Popping | Busy(job: JobId, stage: Stage) | Releasing {
    /** The worker is between acquireResource and releaseResource. */
    predicate Holds() { Popping? || Busy? || Releasing? }
    predicate LocksLifecycle() { Busy? && (stage.WarmRecheck? || stage.Warming?) }
    predicate Is(st: Stage) { Busy? && stage == st }
  }

  /** `closed` (the jobs whose done channel was closed, in order) and `home` (every id ever
      issued) are history. */
  datatype State = State(
    cfg: Config,
    prov: map<ProviderId, Prov>,
    jobs: map<JobId, Job>,
    resources: map<Group, Resource>,
    clock: Time,
    pc: map<WorkerId, Pc>,
    closed: seq<JobId>,
    home: map<JobId, ProviderId>)

  const FRESH: Prov := Prov([], 0, false, NoTimer, 0, 0, 0, 0, 0, false, [], [])

  /** Nothing is queued, held, warm or timed, and every worker begins its loop. */
  ghost predicate IsInit(cfg: Config, s: State) {
    && s.cfg == cfg && s.clock == 1
    && s.prov.Keys == cfg.providers && (forall p :: p in s.prov ==> s.prov[p] == FRESH)
    && s.resources.Keys == cfg.switchDelay.Keys
       && (forall g :: g in s.resources ==> s.resources[g] == Resource(NONE, 0, 0))
    && s.pc.Keys == cfg.workers.Keys && (forall w :: w in s.pc ==> s.pc[w] == Checking)
    && s.jobs == map[] && s.home == map[] && s.closed == []
  }

  /** `Work` is the next critical section of worker w, which its program counter determines; `ok`
      is what the run gate, Warm or the synthesis reported and `now` what the clock read, where
      the section uses one. */
  datatype Step =
    | Work(w: WorkerId, ok: bool, now: Time)
    | Submit(p: ProviderId, id: JobId)
    | Broadcast(p: ProviderId)
    | BumpChunk(id: JobId)
    | Expire(p: ProviderId)
    | ExpireOrphan(p: ProviderId)
    | FireIdle(p: ProviderId)
    | LockIdle(p: ProviderId)
    | IdleDone(p: ProviderId)
    | NewRunning(p: ProviderId, id: JobId)
    | EndDirect(id: JobId, ok: bool, now: Time)
    | Sweep(now: Time)

  /** Domains of the maps, and that every id in use is a known job. */
  ghost predicate TypeOK(s: State) {
    && s.cfg.Valid()
    && s.prov.Keys == s.cfg.providers
    && s.resources.Keys == s.cfg.switchDelay.Keys
    && s.pc.Keys == s.cfg.workers.Keys
    && (forall g :: g in s.resources ==>
        s.resources[g].activeProvider == NONE || s.resources[g].activeProvider in s.prov)
    && (forall w :: w in s.pc && s.pc[w].Busy? ==> s.pc[w].job in s.jobs)
    && (forall p, id :: p in s.prov && id in s.prov[p].queue ==> id in s.jobs)
    && 0 < s.clock
  }

  /** The provider of a worker. */
  function Of(s: State, w: WorkerId): ProviderId
    requires w in s.cfg.workers
  {
    s.cfg.workers[w]
  }

  predicate At(s: State, w: WorkerId) { w in s.pc && w in s.cfg.workers && Of(s, w) in s.prov }

  /** A worker can go on unless it is parked or waits for a locked lifecycle mutex. */
  predicate CanWork(s: State, w: WorkerId) {
    At(s, w) && !s.pc[w].Parked? && (s.pc[w].Is(WarmWait) ==> !s.prov[Of(s, w)].locked)
  }

  /** When a step may happen. Job ids are fresh and the clock is monotone. */
  predicate Enabled(s: State, a: Step) {
    match a
    case Work(w, ok, now) => CanWork(s, w) && s.clock <= now
    case Submit(p, id) => id !in s.home
    case Broadcast(p) => p in s.prov && s.prov[p].broadcasts > 0
    case BumpChunk(id) => true
    case Expire(p) => p in s.prov && s.prov[p].timer.Armed?
    case ExpireOrphan(p) => p in s.prov && s.prov[p].orphans > 0
    case FireIdle(p) => p in s.prov && s.prov[p].firing > 0
    case LockIdle(p) => p in s.prov && s.prov[p].unloading > 0 && !s.prov[p].locked
    case IdleDone(p) => p in s.prov && s.prov[p].idling > 0
    case NewRunning(p, id) => id !in s.home
    // the owner of a direct job ends it once
    case EndDirect(id, ok, now) => s.clock <= now && (id in s.jobs ==> s.jobs[id].direct && !s.jobs[id].status.Done())
    // the sweeper reads the clock before it takes the mutex
    case Sweep(now) => true
  }

  function Next(s: State, a: Step): State
    requires TypeOK(s) && Enabled(s, a)
  {
    match a
    case Work(w, ok, now) => WorkStep(s, w, ok, now)
    case Submit(p, id) => SubmitStep(s, p, id)
    case Broadcast(p) => BroadcastStep(s, p)
    case BumpChunk(id) => BumpStep(s, id)
    case Expire(p) => Put(s, p, s.prov[p].(timer := Expired, firing := s.prov[p].firing + 1))
    case ExpireOrphan(p) => Put(s, p, s.prov[p].(orphans := s.prov[p].orphans - 1, firing := s.prov[p].firing + 1))
    case FireIdle(p) => Put(s, p, Fired(s.prov[p], p in s.cfg.lifecycle))
    case LockIdle(p) =>
      Put(s, p, s.prov[p].(unloading := s.prov[p].unloading - 1, idling := s.prov[p].idling + 1, locked := true))
    case IdleDone(p) => Put(s, p, s.prov[p].(idling := s.prov[p].idling - 1, locked := false))
    case NewRunning(p, id) => NewRunningStep(s, p, id)
    case EndDirect(id, ok, now) => if id in s.jobs then EndJob(s, id, ok, now) else s
    case Sweep(now) => SweepStep(s, now)
  }

  function WorkStep(s: State, w: WorkerId, ok: bool, now: Time): State
    requires TypeOK(s) && CanWork(s, w)
  {
    match s.pc[w]
    case Checking => Move(s, w, if s.prov[Of(s, w)].queue == [] then Parked else Acquiring)
    case Parked => s
    case Acquiring => AcquireStep(s, w, now)
    case Popping => PopStep(s, w)
    case Busy(id, stage) => RunStep(s, w, id, stage, ok, now)
    case Releasing => ReleaseStep(s, w, now)
  }

  /** `run`, from the run gate to `finish`. */
  function RunStep(s: State, w: WorkerId, id: JobId, stage: Stage, ok: bool, now: Time): State
    requires At(s, w) && id in s.jobs
  {
    var p := Of(s, w);
    if stage.Finishing? then FinishStep(s, w, id, stage.ok, now)
    else Put(Move(s, w, Busy(id, RunStage(s.prov[p], stage, p in s.cfg.lifecycle, ok))), p, RunProv(s.prov[p], stage))
  }

  function RunStage(v: Prov, stage: Stage, lifecycle: bool, ok: bool): Stage {
    match stage
    case Gate => if ok then WarmCheck else Finishing(false)
    case WarmCheck => if lifecycle && !v.warm then WarmWait else Synthesizing
    case WarmWait => WarmRecheck
    case WarmRecheck => if v.warm then Synthesizing else Warming
    case Warming => if ok then MarkWarm else Finishing(false)
    case MarkWarm => Synthesizing
    case Synthesizing => Finishing(ok)
    case Finishing(_) => stage
  }

  function RunProv(v: Prov, stage: Stage): Prov {
    match stage
    case WarmWait => v.(locked := true)
    case WarmRecheck => if v.warm then v.(locked := false) else v
    case Warming => v.(locked := false)
    case MarkWarm => v.(warm := true)
    case _ => v
  }

  function BroadcastStep(s: State, p: ProviderId): State
    requires p in s.prov && s.prov[p].broadcasts > 0
  {
    Put(s, p, s.prov[p].(broadcasts := s.prov[p].broadcasts - 1)).(
      pc := map w | w in s.pc :: if s.pc[w].Parked? && w in s.cfg.workers && Of(s, w) == p then Checking else s.pc[w])
  }

  function BumpStep(s: State, id: JobId): State {
    if id in s.jobs then s.(jobs := s.jobs[id := s.jobs[id].(chunks := s.jobs[id].chunks + 1)]) else s
  }

  function Move(s: State, w: WorkerId, at: Pc): State {
    s.(pc := s.pc[w := at])
  }

  function Put(s: State, p: ProviderId, v: Prov): State {
    s.(prov := s.prov[p := v])
  }

  /** Submit and SubmitStream; an unknown provider is refused and nothing changes. */
  function SubmitStep(s: State, p: ProviderId, id: JobId): State {
    if p !in s.prov then s else
      Put(s, p, Enqueued(s.prov[p], id))
        .(jobs := s.jobs[id := Job(p, Queued, false, 0, 0)], home := s.home[id := p])
  }

  function Enqueued(v: Prov, id: JobId): Prov {
    v.(queue := v.queue + [id], timer := NoTimer, broadcasts := v.broadcasts + 1, submitted := v.submitted + [id])
  }

  /** The `available` condition of acquireResource. */
  predicate Available(s: State, p: ProviderId, g: Group, now: Time)
    requires g in s.resources && g in s.cfg.switchDelay
    requires s.resources[g].activeProvider == NONE || s.resources[g].activeProvider in s.prov
  {
    var r := s.resources[g];
    var delay := s.cfg.switchDelay[g];
    && (r.activeJobs == 0 || r.activeProvider == p)
    && (r.activeProvider != NONE && r.activeProvider != p ==>
          && s.prov[r.activeProvider].queue == []
          && (delay > 0 ==> r.idleSince != 0 && now - r.idleSince >= delay))
  }

  /** A grant of group `g` to `p`; taking it from another provider makes both cold. */
  function Grant(s: State, p: ProviderId, g: Group): State
    requires p in s.prov && g in s.resources
    requires s.resources[g].activeProvider == NONE || s.resources[g].activeProvider in s.prov
  {
    var prev := s.resources[g].activeProvider;
    var s1 := if prev == NONE || prev == p then s
              else s.(prov := s.prov[prev := s.prov[prev].(warm := false)][p := s.prov[p].(warm := false)]);
    s1.(resources := s.resources[g := Resource(p, s.resources[g].activeJobs + 1, 0)])
  }

  /** The group of p, if it has one, has an entry, which names no provider or a known one. */
  predicate GroupKnown(s: State, p: ProviderId) {
    p in s.cfg.group ==>
      var g := s.cfg.group[p];
      && g in s.resources && g in s.cfg.switchDelay
      && (s.resources[g].activeProvider == NONE || s.resources[g].activeProvider in s.prov)
  }

  function AcquireStep(s: State, w: WorkerId, now: Time): State
    requires At(s, w) && GroupKnown(s, Of(s, w))
  {
    var p := Of(s, w);
    if p !in s.cfg.group then Move(s, w, Popping)
    else if Available(s, p, s.cfg.group[p], now) then
      Move(Grant(s, p, s.cfg.group[p]), w, Popping).(clock := now)
    else s.(clock := now)
  }

  function PopStep(s: State, w: WorkerId): State
    requires At(s, w) && forall id :: id in s.prov[Of(s, w)].queue ==> id in s.jobs
  {
    var p := Of(s, w);
    var v := s.prov[p];
    if v.queue == [] then Move(s, w, Releasing)
    else
      var id := v.queue[0];
      Move(Put(s, p, Popped(v)), w, Busy(id, Gate))
        .(jobs := s.jobs[id := s.jobs[id].(status := Running)])
  }

  function Popped(v: Prov): Prov
    requires v.queue != []
  {
    v.(queue := v.queue[1..], active := v.active + 1, dequeued := v.dequeued + [v.queue[0]])
  }

  function EndJob(s: State, id: JobId, ok: bool, now: Time): State
    requires id in s.jobs
  {
    s.(jobs := s.jobs[id := s.jobs[id].(status := if ok then Succeeded else Failed, finishedAt := now)],
       closed := s.closed + [id], clock := now)
  }

  /** startIdleTimerLocked, for a provider whose idle delay is recorded or not. */
  function Started(v: Prov, hasDelay: bool): Prov {
    if hasDelay && v.warm && v.timer.NoTimer? then v.(timer := Armed) else v
  }

  /** What `finish` leaves of the provider. */
  function Finished(u: Prov, hasDelay: bool): Prov {
    var v := u.(active := u.active - 1);
    if v.active == 0 && v.queue == [] then Started(v, hasDelay) else v
  }

  function FinishStep(s: State, w: WorkerId, id: JobId, ok: bool, now: Time): State
    requires At(s, w) && id in s.jobs
  {
    var p := Of(s, w);
    Put(Move(EndJob(s, id, ok, now), w, Releasing), p, Finished(s.prov[p], p in s.cfg.idleDelay))
  }

  function ReleaseStep(s: State, w: WorkerId, now: Time): State
    requires At(s, w) && GroupKnown(s, Of(s, w))
  {
    var p := Of(s, w);
    if p !in s.cfg.group then Move(s, w, Checking)
    else
      var g := s.cfg.group[p];
      var r := s.resources[g];
      if r.activeProvider != p || r.activeJobs == 0 then Move(s, w, Checking)
      else
        var last := r.activeJobs == 1;
        Move(s, w, Checking).(
          resources := s.resources[g := r.(activeJobs := r.activeJobs - 1, idleSince := if last then now
                                           else r.idleSince)],
          clock := if last then now else s.clock)
  }

  /** fireIdle under the mutex. A timer that is still running when `idleTimers` drops it is an orphan. */
  function Fired(v: Prov, hasLifecycle: bool): Prov
    requires v.firing > 0
  {
    var t := v.(firing := v.firing - 1);
    if v.active != 0 || v.queue != [] || !v.warm then t
    else t.(warm := false, timer := NoTimer,
            orphans := if v.timer.Armed? then v.orphans + 1 else v.orphans,
            unloading := if hasLifecycle then v.unloading + 1 else v.unloading)
  }

  function NewRunningStep(s: State, p: ProviderId, id: JobId): State {
    s.(jobs := s.jobs[id := Job(p, Running, true, 0, 0)], home := s.home[id := p])
  }

  predicate Sweepable(s: State, j: Job, now: Time) {
    j.status.Done() && j.finishedAt < now - s.cfg.jobTTL
  }

  function SweepStep(s: State, now: Time): State {
    s.(jobs := map id | id in s.jobs && !Sweepable(s, s.jobs[id], now) :: s.jobs[id])
  }

  /** A run from the initial state by enabled steps. That TypeOK holds along it is proved, not
      demanded: where it failed, a step could lead anywhere. */
  ghost predicate IsRun(cfg: Config, run: seq<State>, steps: seq<Step>) {
    && cfg.Valid()
    && |run| == |steps| + 1
    && IsInit(cfg, run[0])
    && forall i {:trigger steps[i]} :: 0 <= i < |steps| && TypeOK(run[i]) ==>
         Enabled(run[i], steps[i]) && run[i+1] == Next(run[i], steps[i])
  }
}
