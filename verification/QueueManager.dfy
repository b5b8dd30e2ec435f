/** The manager itself: one method a critical section, each proved to take exactly the step of
    the state machine that the theorems are about, and to keep its invariant. */
module QueueManager {
  import opened QueueMachine
  import opened QueueInvariants
  import opened QueuePreservation
  import opened QueueTheorems

  /** The manager's maps hold what the providers of the state say. */
  ghost predicate Agree(prov: Provs, queues: map<ProviderId, seq<JobId>>, active: map<ProviderId, int>,
                        warm: map<ProviderId, bool>, timers: map<ProviderId, Timer>) {
    forall p :: p in prov ==>
      && p in queues && queues[p] == prov[p].queue
      && p in active && active[p] == prov[p].active
      && p in warm && warm[p] == prov[p].warm
      && p in timers && timers[p] == prov[p].timer
  }

  lemma AgreeAt(prov: Provs, queues: map<ProviderId, seq<JobId>>, active: map<ProviderId, int>,
                warm: map<ProviderId, bool>, timers: map<ProviderId, Timer>, p: ProviderId, v: Prov)
    requires Agree(prov, queues, active, warm, timers) && p in prov
    ensures Agree(prov[p := v], queues[p := v.queue], active[p := v.active], warm[p := v.warm], timers[p := v.timer])
  {}

  lemma AgreeCold(prov: Provs, queues: map<ProviderId, seq<JobId>>, active: map<ProviderId, int>,
                  warm: map<ProviderId, bool>, timers: map<ProviderId, Timer>, prev: ProviderId, p: ProviderId)
    requires Agree(prov, queues, active, warm, timers) && p in prov && prev in prov
    ensures Agree(prov[prev := prov[prev].(warm := false)][p := prov[p].(warm := false)], queues, active,
                  warm[prev := false][p := false], timers)
  {}

  lemma Unmoved<V>(m: map<ProviderId, V>, p: ProviderId)
    requires p in m
    ensures m[p := m[p]] == m
  {}

  /** Some element of a set. */
  ghost function Any<T>(s: set<T>): (x: T)
    requires s != {}
    ensures x in s
  {
    var x :| x in s; x
  }

  class Manager {
    const cfg: Config
    var queues: map<ProviderId, seq<JobId>>
    var jobs: map<JobId, Job>
    var active: map<ProviderId, int>
    var warm: map<ProviderId, bool>
    var idleTimers: map<ProviderId, Timer>
    var resources: map<Group, Resource>
    /** The state of the machine: these fields, the goroutines and the histories. */
    ghost var abs: State

    /** The fields hold what the state says. */
    ghost predicate Coupled()
      reads this
    {
      && abs.cfg == cfg && (forall p :: p in abs.prov <==> p in cfg.providers) && jobs == abs.jobs
         && resources == abs.resources
      && queues.Keys == cfg.providers && Agree(abs.prov, queues, active, warm, idleTimers)
    }

    constructor (cfg: Config)
      requires cfg.Valid()
      ensures Coupled() && IsInit(cfg, abs)
    {
      this.cfg := cfg;
      queues := map p | p in cfg.providers :: [];
      jobs := map[];
      active := map p | p in cfg.providers :: 0;
      warm := map p | p in cfg.providers :: false;
      idleTimers := map p | p in cfg.providers :: NoTimer;
      resources := map g | g in cfg.switchDelay :: Resource(NONE, 0, 0);
      abs := State(cfg, map p | p in cfg.providers :: FRESH, map[], map g | g in cfg.switchDelay ::
                   Resource(NONE, 0, 0), 1,
                   map w | w in cfg.workers :: Checking, [], map[]);
    }

    method Submit(p: ProviderId, id: JobId) returns (ok: bool)
      requires Coupled() && id !in abs.home
      modifies this
      ensures Coupled() && abs == SubmitStep(old(abs), p, id)
      ensures ok == (p in cfg.providers)
    {
      if p !in cfg.providers { return false; }
      jobs := jobs[id := Job(p, Queued, false, 0, 0)];
      queues := queues[p := queues[p] + [id]];
      CancelIdleTimer(p);
      abs := SubmitStep(abs, p, id);
      return true;
    }

    method CancelIdleTimer(p: ProviderId)
      requires p in idleTimers
      modifies this`idleTimers
      ensures idleTimers == old(idleTimers)[p := NoTimer]
    {
      if !idleTimers[p].NoTimer? {
        idleTimers := idleTimers[p := NoTimer];
      } else {
        assert idleTimers == idleTimers[p := NoTimer];
      }
    }

    method StartIdleTimer(p: ProviderId)
      requires p in warm && p in idleTimers
      modifies this`idleTimers
      ensures idleTimers == old(idleTimers)[p := if p in cfg.idleDelay && warm[p] && old(idleTimers)[p].NoTimer?
                                            then Armed
                                                 else old(idleTimers)[p]]
    {
      if p in cfg.idleDelay && warm[p] && idleTimers[p].NoTimer? {
        idleTimers := idleTimers[p := Armed];
      } else {
        assert idleTimers == idleTimers[p := idleTimers[p]];
      }
    }

    /** The first section of dequeue: wait while the queue is empty. */
    method CheckQueue(p: ProviderId, ghost w: WorkerId) returns (wait: bool)
      requires Coupled() && CanWork(abs, w) && Of(abs, w) == p && abs.pc[w].Checking?
      modifies this`abs
      ensures Coupled() && abs == Move(old(abs), w, if wait then Parked else Acquiring)
      ensures wait == (queues[p] == [])
    {
      wait := queues[p] == [];
      abs := Move(abs, w, if wait then Parked else Acquiring);
    }

    /** The condition that acquireResource evaluates in every turn. */
    method IsAvailable(p: ProviderId, g: Group, now: Time) returns (available: bool)
      requires Coupled() && g in resources && g in cfg.switchDelay
      requires resources[g].activeProvider == NONE || resources[g].activeProvider in abs.prov
      ensures available == Available(abs, p, g, now)
    {
      var state := resources[g];
      var delay := cfg.switchDelay[g];
      available := state.activeJobs == 0 || state.activeProvider == p;
      var other := state.activeProvider != NONE && state.activeProvider != p;
      if available && other {
        available := queues[state.activeProvider] == [];
      }
      if available && other && delay > 0 {
        available := state.idleSince != 0 && now - state.idleSince >= delay;
      }
    }

    /** One turn of the loop in acquireResource. */
    method TryAcquire(p: ProviderId, now: Time, ghost w: WorkerId) returns (acquired: bool)
      requires Coupled() && CanWork(abs, w) && Of(abs, w) == p && abs.pc[w].Acquiring? && abs.clock <= now
               && GroupKnown(abs, p)
      modifies this
      ensures Coupled() && abs == AcquireStep(old(abs), w, now)
      ensures acquired == abs.pc[w].Popping?
    {
      if p !in cfg.group {
        abs := AcquireStep(abs, w, now);
        return true;
      }
      var g := cfg.group[p];
      var state := resources[g];
      acquired := IsAvailable(p, g, now);
      ghost var next := AcquireStep(abs, w, now);
      if acquired {
        MakeCold(state.activeProvider, p);
        resources := resources[g := Resource(p, state.activeJobs + 1, 0)];
      }
      abs := next;
    }

    /** A hand-over makes both providers cold. */
    method MakeCold(prev: ProviderId, p: ProviderId)
      requires Agree(abs.prov, queues, active, warm, idleTimers) && p in abs.prov && (prev == NONE || prev in abs.prov)
      modifies this`warm
      ensures Agree(if prev == NONE || prev == p then abs.prov
                    else abs.prov[prev := abs.prov[prev].(warm := false)][p := abs.prov[p].(warm := false)],
                    queues, active, warm, idleTimers)
    {
      if prev != NONE && prev != p {
        AgreeCold(abs.prov, queues, active, warm, idleTimers, prev, p);
        warm := warm[prev := false];
        warm := warm[p := false];
      }
    }

    /** The last section of dequeue; it comes back empty-handed when another worker was faster. */
    method Pop(p: ProviderId, ghost w: WorkerId) returns (found: bool, id: JobId)
      requires Coupled() && CanWork(abs, w) && Of(abs, w) == p && abs.pc[w].Popping?
      requires forall id :: id in queues[p] ==> id in jobs
      modifies this
      ensures Coupled() && abs == PopStep(old(abs), w)
      ensures found == (old(queues)[p] != []) && (found ==> id == old(queues)[p][0])
    {
      if queues[p] == [] {
        abs := PopStep(abs, w);
        return false, 0;
      }
      var q := queues[p];
      id := q[0];
      queues := queues[p := q[1..]];
      active := active[p := active[p] + 1];
      jobs := jobs[id := jobs[id].(status := Running)];
      abs := PopStep(abs, w);
      return true, id;
    }

    /** The first look of run at the warm flag. */
    method NeedWarm(p: ProviderId, hasLifecycle: bool, ghost w: WorkerId, ghost id: JobId) returns (need: bool)
      requires Coupled() && CanWork(abs, w) && Of(abs, w) == p && abs.pc[w] == Busy(id, WarmCheck) && id in jobs
      requires hasLifecycle == (p in cfg.lifecycle)
      modifies this`abs
      ensures Coupled() && abs == RunStep(old(abs), w, id, WarmCheck, true, old(abs).clock)
      ensures need == (hasLifecycle && !warm[p]) && abs.pc[w] == Busy(id, if need then WarmWait else Synthesizing)
    {
      need := hasLifecycle && !warm[p];
      abs := RunStep(abs, w, id, WarmCheck, true, abs.clock);
    }

    /** The second look, with the lifecycle mutex locked, which stays locked exactly if Warm is due. */
    method StillCold(p: ProviderId, ghost w: WorkerId, ghost id: JobId) returns (need: bool)
      requires Coupled() && CanWork(abs, w) && Of(abs, w) == p && abs.pc[w] == Busy(id, WarmRecheck) && id in jobs
      modifies this`abs
      ensures Coupled() && abs == RunStep(old(abs), w, id, WarmRecheck, true, old(abs).clock)
      ensures need == !warm[p] && abs.pc[w] == Busy(id, if need then Warming else Synthesizing)
      ensures abs.prov[p].locked == (need && old(abs).prov[p].locked)
    {
      need := !warm[p];
      abs := RunStep(abs, w, id, WarmRecheck, true, abs.clock);
    }

    /** After a successful Warm. */
    method SetWarm(p: ProviderId, ghost w: WorkerId, ghost id: JobId)
      requires Coupled() && CanWork(abs, w) && Of(abs, w) == p && abs.pc[w] == Busy(id, MarkWarm) && id in jobs
      modifies this
      ensures Coupled() && abs == RunStep(old(abs), w, id, MarkWarm, true, old(abs).clock)
    {
      warm := warm[p := true];
      abs := RunStep(abs, w, id, MarkWarm, true, abs.clock);
    }

    method CloseJob(id: JobId, ok: bool, now: Time)
      requires id in jobs
      modifies this`jobs
      ensures jobs == old(jobs)[id := old(jobs)[id].(status := if ok then Succeeded else Failed, finishedAt := now)]
    {
      var job := jobs[id].(finishedAt := now);
      if ok {
        job := job.(status := Succeeded);
      } else {
        job := job.(status := Failed);
      }
      jobs := jobs[id := job];
    }

    /** The part of `finish` about the provider: one job fewer, and the idle timer after the last. */
    method EndActive(p: ProviderId, ghost u: Prov)
      requires p in queues && p in active && p in warm && p in idleTimers
      requires queues[p] == u.queue && active[p] == u.active && warm[p] == u.warm && idleTimers[p] == u.timer
      modifies this`active, this`idleTimers
      ensures var v := Finished(u, p in cfg.idleDelay);
              active == old(active)[p := v.active] && idleTimers == old(idleTimers)[p := v.timer]
    {
      active := active[p := active[p] - 1];
      Unmoved(idleTimers, p);
      if active[p] == 0 && queues[p] == [] {
        StartIdleTimer(p);
      }
    }

    method Finish(p: ProviderId, id: JobId, ok: bool, now: Time, ghost w: WorkerId)
      requires Coupled() && CanWork(abs, w) && Of(abs, w) == p && abs.pc[w] == Busy(id, Finishing(ok)) && id in jobs
               && abs.clock <= now
      modifies this
      ensures Coupled() && abs == FinishStep(old(abs), w, id, ok, now)
    {
      CloseJob(id, ok, now);
      ghost var v := Finished(abs.prov[p], p in cfg.idleDelay);
      AgreeAt(abs.prov, queues, active, warm, idleTimers, p, v);
      Unmoved(queues, p);
      Unmoved(warm, p);
      EndActive(p, abs.prov[p]);
      abs := FinishStep(abs, w, id, ok, now);
    }

    method ReleaseResource(p: ProviderId, now: Time, ghost w: WorkerId)
      requires Coupled() && CanWork(abs, w) && Of(abs, w) == p && abs.pc[w].Releasing? && abs.clock <= now
               && GroupKnown(abs, p)
      modifies this
      ensures Coupled() && abs == ReleaseStep(old(abs), w, now)
    {
      ghost var next := ReleaseStep(abs, w, now);
      if p in cfg.group {
        var g := cfg.group[p];
        var state := resources[g];
        if state.activeProvider == p && state.activeJobs != 0 {
          state := state.(activeJobs := state.activeJobs - 1);
          if state.activeJobs == 0 {
            state := state.(idleSince := now);
          }
          resources := resources[g := state];
        }
      }
      abs := next;
    }

    /** The part of fireIdle under the mutex; `unload` says whether Idle is to be called. */
    method FireIdle(p: ProviderId, hasLifecycle: bool) returns (unload: bool)
      requires Coupled() && p in abs.prov && abs.prov[p].firing > 0 && hasLifecycle == (p in cfg.lifecycle)
      modifies this
      ensures Coupled() && abs == Put(old(abs), p, Fired(old(abs).prov[p], hasLifecycle))
      ensures unload == (hasLifecycle && old(warm)[p] && !warm[p])
    {
      ghost var next := Put(abs, p, Fired(abs.prov[p], hasLifecycle));
      unload := false;
      if active[p] == 0 && queues[p] == [] && warm[p] {
        warm := warm[p := false];
        idleTimers := idleTimers[p := NoTimer];
        unload := hasLifecycle;
      }
      abs := next;
    }

    /** The scan of Position; a provider that is not registered has no queue. */
    method PositionOf(id: JobId) returns (k: int)
      requires Coupled()
      ensures k == Position(abs, id)
    {
      if id !in jobs { return -1; }
      if !jobs[id].status.Queued? { return 0; }
      var p := jobs[id].provider;
      var q := if p in queues then queues[p] else [];
      var i := 0;
      while i < |q|
        invariant 0 <= i <= |q|
        invariant id in q <==> id in q[i..]
        invariant id in q ==> IndexIn(q, id) == i + IndexIn(q[i..], id)
      {
        if q[i] == id {
          return i + 1;
        }
        assert q[i..][1..] == q[i + 1..];
        i := i + 1;
      }
      return 0;
    }

    method NewRunningJob(p: ProviderId, id: JobId)
      requires Coupled() && id !in abs.home
      modifies this
      ensures Coupled() && abs == NewRunningStep(old(abs), p, id)
    {
      jobs := jobs[id := Job(p, Running, true, 0, 0)];
      abs := NewRunningStep(abs, p, id);
    }

    /** CompleteJob and FailJob; an unknown id is ignored. A job that was ended before has its channel
        closed twice, which panics after the fields are written. */
    method EndDirectJob(id: JobId, ok: bool, now: Time) returns (panics: bool)
      requires Coupled() && abs.clock <= now
      modifies this
      ensures Coupled() && panics == (id in old(jobs) && old(jobs)[id].status.Done())
      ensures abs == if id !in old(jobs) then old(abs)
                     else if panics then EndJob(old(abs), id, ok, now).(closed := old(abs).closed)
                     else EndJob(old(abs), id, ok, now)
    {
      panics := id in jobs && jobs[id].status.Done();
      if id in jobs {
        CloseJob(id, ok, now);
        ghost var ended := EndJob(abs, id, ok, now);
        abs := if panics then ended.(closed := abs.closed) else ended;
      }
    }

    method BumpChunk(id: JobId)
      requires Coupled()
      modifies this
      ensures Coupled() && abs == BumpStep(old(abs), id)
    {
      if id in jobs {
        jobs := jobs[id := jobs[id].(chunks := jobs[id].chunks + 1)];
      }
      abs := BumpStep(abs, id);
    }

    /** `now` was read before the mutex was taken. */
    method Sweep(now: Time)
      requires Coupled()
      modifies this
      ensures Coupled() && abs == SweepStep(old(abs), now)
    {
      ghost var start := jobs;
      var cutoff := now - cfg.jobTTL;
      var rest := jobs.Keys;
      while |rest| != 0
        invariant rest <= start.Keys
        invariant jobs == map id | id in start && (id in rest || !Sweepable(abs, start[id], now)) :: start[id]
        modifies this`jobs
        decreases rest
      {
        ghost var some: JobId := Any(rest);
        assert some in rest;
        var id :| id in rest;
        if jobs[id].status.Done() && jobs[id].finishedAt < cutoff {
          jobs := jobs - {id};
        }
        rest := rest - {id};
      }
      abs := SweepStep(abs, now);
    }
  }
}
