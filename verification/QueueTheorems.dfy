/** What the job queue promises in every state of every run. */
module QueueTheorems {
  import opened QueueMachine
  import opened QueueInvariants
  import opened QueuePreservation

  lemma GroupOf(s: State, w: WorkerId, g: Group)
    requires TypeOK(s) && ResourceInv(s.cfg, s.pc, s.resources, s.clock) && InGroup(s.cfg, w, g)
    ensures g in s.resources && GroupInv(s.cfg, s.pc, g, s.resources[g], s.clock)
  {
    var p := s.cfg.workers[w];
    assert p in s.cfg.providers && s.cfg.group[p] in s.cfg.switchDelay;
  }

  /** Workers that hold the same group work for the same provider, so queued jobs of two
      providers of one group are never between dequeue and release together. */
  lemma MutualExclusion(cfg: Config, run: seq<State>, steps: seq<Step>, i: nat, w: WorkerId, x: WorkerId, g: Group)
    requires IsRun(cfg, run, steps) && i < |run|
    requires w in run[i].pc && x in run[i].pc && run[i].pc[w].Holds() && run[i].pc[x].Holds()
    requires InGroup(run[i].cfg, w, g) && InGroup(run[i].cfg, x, g)
    ensures run[i].cfg.workers[w] == run[i].cfg.workers[x]
  {
    RunKeepsInv(cfg, run, steps, i);
    var s := run[i];
    GroupOf(s, w, g);
    assert w in Holders(s.cfg, s.pc, g) && x in Holders(s.cfg, s.pc, g);
  }

  /** `activeJobs` is the number of holders, and a release always gives one back: its early
      return for a foreign or free group is never taken. */
  lemma ReleaseIsEffective(cfg: Config, run: seq<State>, steps: seq<Step>, i: nat, g: Group)
    requires IsRun(cfg, run, steps) && i < |run| && g in run[i].resources
    ensures run[i].resources[g].activeJobs == |Holders(run[i].cfg, run[i].pc, g)|
    ensures forall w :: w in run[i].pc && run[i].pc[w].Holds() && InGroup(run[i].cfg, w, g) ==>
              run[i].resources[g].activeProvider == run[i].cfg.workers[w] && run[i].resources[g].activeJobs > 0
  {
    RunKeepsInv(cfg, run, steps, i);
    var s := run[i];
    assert GroupInv(s.cfg, s.pc, g, s.resources[g], s.clock);
    forall w | w in s.pc && s.pc[w].Holds() && InGroup(s.cfg, w, g)
      ensures s.resources[g].activeProvider == s.cfg.workers[w] && s.resources[g].activeJobs > 0
    {
      assert w in Holders(s.cfg, s.pc, g);
    }
  }

  lemma RunGoesOn(s: State, x: WorkerId, id: JobId, stage: Stage, ok: bool, now: Time)
    requires At(s, x) && id in s.jobs
    ensures var t := RunStep(s, x, id, stage, ok, now);
            t.cfg == s.cfg && (forall j :: j in s.closed ==> j in t.closed) && (stage.Finishing? ==> id in t.closed)
  {}

  lemma WorkGoesOn(s: State, x: WorkerId, ok: bool, now: Time)
    requires TypeOK(s) && CanWork(s, x) && s.clock <= now
    ensures var t := WorkStep(s, x, ok, now); t.cfg == s.cfg && forall j :: j in s.closed ==> j in t.closed
  {
    match s.pc[x]
    case Acquiring => AcquireIsIdle(s, x, now);
    case Busy(id, stage) => RunGoesOn(s, x, id, stage, ok, now);
    case _ =>
  }

  /** The configuration stays, and a closed job stays closed. */
  lemma StepGoesOn(s: State, a: Step)
    requires TypeOK(s) && Enabled(s, a)
    ensures Next(s, a).cfg == s.cfg && forall j :: j in s.closed ==> j in Next(s, a).closed
  {
    if a.Work? { WorkGoesOn(s, a.w, a.ok, a.now); }
  }

  /** Nobody else moves a worker on from its job. */
  lemma StaysBusy(s: State, a: Step, w: WorkerId)
    requires TypeOK(s) && Enabled(s, a) && At(s, w) && s.pc[w].Busy?
    ensures w in Next(s, a).pc && (Next(s, a).pc[w].Busy? || s.pc[w].job in Next(s, a).closed)
    ensures Next(s, a).pc[w].Busy? ==> Next(s, a).pc[w].job == s.pc[w].job
  {
    if a.Work? { WorkStaysBusy(s, a.w, a.ok, a.now, w); }
  }

  lemma WorkStaysBusy(s: State, x: WorkerId, ok: bool, now: Time, w: WorkerId)
    requires TypeOK(s) && CanWork(s, x) && s.clock <= now && At(s, w) && s.pc[w].Busy?
    ensures var t := WorkStep(s, x, ok, now);
            && w in t.pc && (t.pc[w].Busy? || s.pc[w].job in t.closed) && (t.pc[w].Busy? ==> t.pc[w].job == s.pc[w].job)
  {
    match s.pc[x]
    case Acquiring => AcquireIsIdle(s, x, now);
    case Busy(id, stage) => RunGoesOn(s, x, id, stage, ok, now);
    case _ =>
  }

  /** A step that turns nobody cold, forgets no job and moves no group to another provider. */
  ghost predicate Tame(s: State, t: State) {
    && t.jobs.Keys == s.jobs.Keys && t.prov.Keys == s.prov.Keys && t.resources.Keys == s.resources.Keys
    && (forall p :: p in s.prov && s.prov[p].warm ==> t.prov[p].warm)
    && (forall g :: g in s.resources ==> t.resources[g].activeProvider == s.resources[g].activeProvider)
  }

  lemma PopIsTame(s: State, w: WorkerId)
    requires TypeOK(s) && At(s, w)
    ensures Tame(s, PopStep(s, w))
  {}

  lemma ReleaseIsTame(s: State, w: WorkerId, now: Time)
    requires At(s, w) && GroupKnown(s, Of(s, w))
    ensures Tame(s, ReleaseStep(s, w, now))
  {}

  lemma RunIsTame(s: State, w: WorkerId, id: JobId, stage: Stage, ok: bool, now: Time)
    requires At(s, w) && id in s.jobs
    ensures Tame(s, RunStep(s, w, id, stage, ok, now))
  {}

  /** Every critical section of a worker but the grant of acquireResource is tame. */
  lemma WorkIsTame(s: State, w: WorkerId, ok: bool, now: Time)
    requires TypeOK(s) && CanWork(s, w) && !s.pc[w].Acquiring?
    ensures Tame(s, WorkStep(s, w, ok, now))
  {
    match s.pc[w]
    case Checking =>
    case Parked =>
    case Acquiring =>
    case Popping => PopIsTame(s, w);
    case Busy(id, stage) => RunIsTame(s, w, id, stage, ok, now);
    case Releasing => ReleaseIsTame(s, w, now);
  }

  /** Only acquireResource changes the active provider of a group, and only when it was available. */
  lemma OnlyAcquireSwitches(s: State, a: Step, g: Group)
    requires TypeOK(s) && Enabled(s, a) && g in s.resources
    ensures g in Next(s, a).resources
    ensures Next(s, a).resources[g].activeProvider != s.resources[g].activeProvider ==>
              a.Work? && s.pc[a.w].Acquiring? && InGroup(s.cfg, a.w, g) && Available(s, Of(s, a.w), g, a.now)
              && Next(s, a).resources[g].activeProvider == Of(s, a.w)
  {
    if a.Work? && !s.pc[a.w].Acquiring? { WorkIsTame(s, a.w, a.ok, a.now); }
  }

  /** A group changes hands only from a provider without queued or running work, and only after
      the quiet period. */
  lemma SwitchOnlyWhenDrained(s: State, a: Step, g: Group)
    requires Inv(s) && Enabled(s, a) && g in s.resources && g in Next(s, a).resources
    requires s.resources[g].activeProvider != NONE
             && Next(s, a).resources[g].activeProvider != s.resources[g].activeProvider
    ensures a.Work? && s.resources[g].activeProvider in s.prov && Quiet(s.prov[s.resources[g].activeProvider])
    ensures Holders(s.cfg, s.pc, g) == {}
    ensures s.cfg.switchDelay[g] > 0 ==> a.now - s.resources[g].idleSince >= s.cfg.switchDelay[g]
  {
    OnlyAcquireSwitches(s, a, g);
    DrainedWhenAvailable(s, Of(s, a.w), g, a.now);
  }

  lemma DrainedWhenAvailable(s: State, p: ProviderId, g: Group, now: Time)
    requires TypeOK(s) && ResourceInv(s.cfg, s.pc, s.resources, s.clock) && ProvInv(s.cfg, s.pc, s.prov)
    requires g in s.resources && s.resources[g].activeProvider != NONE && s.resources[g].activeProvider != p
    requires Available(s, p, g, now)
    ensures Quiet(s.prov[s.resources[g].activeProvider]) && Holders(s.cfg, s.pc, g) == {}
  {
    var r := s.resources[g];
    assert GroupInv(s.cfg, s.pc, g, r, s.clock);
    NobodyBusy(s, g, r.activeProvider);
    assert BusyFor(s.cfg, s.pc, r.activeProvider) == {};
    assert ProvOK(s.cfg, s.pc, r.activeProvider, s.prov[r.activeProvider]);
  }

  // ---------- progress of the hand-over ----------

  /** Who may take a free group while q waits: the provider it is already with, if that one has
      work, otherwise q. */
  function Taker(s: State, g: Group, q: ProviderId): ProviderId
    requires g in s.resources
  {
    var a := s.resources[g].activeProvider;
    if a in s.prov && s.prov[a].queue != [] then a else q
  }

  /** From when it may: at once, unless q has to wait for the quiet period. */
  function ReadyAt(s: State, g: Group, q: ProviderId): Time
    requires g in s.resources && g in s.cfg.switchDelay
  {
    var r := s.resources[g];
    var ready := r.idleSince + s.cfg.switchDelay[g];
    if r.activeProvider == NONE || r.activeProvider == Taker(s, g, q) || ready < s.clock then s.clock else ready
  }

  lemma FreeGroupIsAvailable(s: State, g: Group, q: ProviderId, now: Time)
    requires TypeOK(s) && ResourceInv(s.cfg, s.pc, s.resources, s.clock) && g in s.resources
             && Holders(s.cfg, s.pc, g) == {}
    requires q in s.cfg.group && s.cfg.group[q] == g && s.prov[q].queue != [] && ReadyAt(s, g, q) <= now
    ensures var p := Taker(s, g, q);
            p in s.cfg.group && s.cfg.group[p] == g && s.prov[p].queue != [] && Available(s, p, g, now)
  {
    assert GroupInv(s.cfg, s.pc, g, s.resources[g], s.clock);
  }

  /** The steps can be taken one after the other, and then worker w has `id` to run. */
  ghost predicate Starts(s: State, steps: seq<Step>, w: WorkerId, id: JobId)
    decreases |steps|
  {
    if steps == [] then w in s.pc && s.pc[w] == Busy(id, Gate)
    else TypeOK(s) && Enabled(s, steps[0]) && Starts(Next(s, steps[0]), steps[1..], w, id)
  }

  lemma StartsByStep(s: State, a: Step, t: State, rest: seq<Step>, w: WorkerId, id: JobId)
    requires TypeOK(s) && Enabled(s, a) && t == Next(s, a) && Starts(t, rest, w, id)
    ensures Starts(s, [a] + rest, w, id)
  {
    assert ([a] + rest)[1..] == rest;
  }

  /** The next k critical sections of worker w. */
  function Turns(w: WorkerId, now: Time, k: nat): seq<Step> {
    if k == 0 then [] else [Work(w, true, now)] + Turns(w, now, k - 1)
  }

  /** What a worker of p does from outside the group to the dequeue of the next job. */
  function Schedule(pc: Pc, w: WorkerId, p: ProviderId, now: Time): seq<Step> {
    match pc
    case Parked => [Broadcast(p)] + Turns(w, now, 3)
    case Checking => Turns(w, now, 3)
    case _ => Turns(w, now, 2)
  }

  lemma PopStarts(s: State, w: WorkerId, now: Time)
    requires TypeOK(s) && At(s, w) && s.pc[w].Popping? && s.prov[Of(s, w)].queue != [] && s.clock <= now
    ensures Starts(s, Turns(w, now, 1), w, s.prov[Of(s, w)].queue[0])
  {
    StartsByStep(s, Work(w, true, now), PopStep(s, w), Turns(w, now, 0), w, s.prov[Of(s, w)].queue[0]);
  }

  lemma AcquireLeads(s: State, w: WorkerId, g: Group, now: Time)
    requires TypeOK(s) && At(s, w) && InGroup(s.cfg, w, g) && s.pc[w].Acquiring? && s.clock <= now
    requires Available(s, Of(s, w), g, now)
    ensures var t := AcquireStep(s, w, now);
            && TypeOK(t) && At(t, w) && t.cfg == s.cfg && t.clock == now && t.pc[w].Popping?
            && t.prov[Of(s, w)].queue == s.prov[Of(s, w)].queue
  {
    AcquireIsIdle(s, w, now);
    AcquireTypes(s, w, now);
  }

  lemma AcquireStarts(s: State, w: WorkerId, g: Group, now: Time)
    requires TypeOK(s) && At(s, w) && InGroup(s.cfg, w, g) && s.pc[w].Acquiring? && s.clock <= now
    requires s.prov[Of(s, w)].queue != [] && Available(s, Of(s, w), g, now)
    ensures Starts(s, Turns(w, now, 2), w, s.prov[Of(s, w)].queue[0])
  {
    AcquireLeads(s, w, g, now);
    PopStarts(AcquireStep(s, w, now), w, now);
    StartsByStep(s, Work(w, true, now), AcquireStep(s, w, now), Turns(w, now, 1), w, s.prov[Of(s, w)].queue[0]);
  }

  lemma CheckStarts(s: State, w: WorkerId, g: Group, now: Time)
    requires TypeOK(s) && At(s, w) && InGroup(s.cfg, w, g) && s.pc[w].Checking? && s.clock <= now
    requires s.prov[Of(s, w)].queue != [] && Available(s, Of(s, w), g, now)
    ensures Starts(s, Turns(w, now, 3), w, s.prov[Of(s, w)].queue[0])
  {
    AcquireStarts(Move(s, w, Acquiring), w, g, now);
    StartsByStep(s, Work(w, true, now), Move(s, w, Acquiring), Turns(w, now, 2), w, s.prov[Of(s, w)].queue[0]);
  }

  lemma BroadcastLeads(s: State, w: WorkerId)
    requires TypeOK(s) && At(s, w) && s.pc[w].Parked? && s.prov[Of(s, w)].broadcasts > 0
    ensures var t := BroadcastStep(s, Of(s, w));
            && TypeOK(t) && At(t, w) && t.cfg == s.cfg && t.clock == s.clock && t.pc[w].Checking?
               && t.resources == s.resources
            && t.prov.Keys == s.prov.Keys && (forall p :: p in s.prov ==> t.prov[p].queue == s.prov[p].queue)
  {
    var t := BroadcastStep(s, Of(s, w));
    forall p, id | p in t.prov && id in t.prov[p].queue ensures id in t.jobs { assert id in s.prov[p].queue; }
  }

  lemma ParkedStarts(s: State, w: WorkerId, g: Group, now: Time)
    requires TypeOK(s) && At(s, w) && InGroup(s.cfg, w, g) && s.pc[w].Parked? && s.clock <= now
    requires s.prov[Of(s, w)].queue != [] && Available(s, Of(s, w), g, now) && s.prov[Of(s, w)].broadcasts > 0
    ensures Starts(s, [Broadcast(Of(s, w))] + Turns(w, now, 3), w, s.prov[Of(s, w)].queue[0])
  {
    var p := Of(s, w);
    BroadcastLeads(s, w);
    CheckStarts(BroadcastStep(s, p), w, g, now);
    StartsByStep(s, Broadcast(p), BroadcastStep(s, p), Turns(w, now, 3), w, s.prov[p].queue[0]);
  }

  /** A free group with queued work is never stuck. From `ReadyAt` on, every worker of `Taker`
      can, by its own next critical sections and at most one broadcast that is already due,
      dequeue the job at the head of the queue. */
  lemma HandOverNeverStuck(s: State, g: Group, q: ProviderId, w: WorkerId, now: Time)
    requires Inv(s) && g in s.resources && Holders(s.cfg, s.pc, g) == {}
    requires q in s.cfg.group && s.cfg.group[q] == g && s.prov[q].queue != [] && ReadyAt(s, g, q) <= now
    requires At(s, w) && Of(s, w) == Taker(s, g, q)
    ensures var p := Taker(s, g, q);
            p in s.prov && s.prov[p].queue != [] && Starts(s, Schedule(s.pc[w], w, p, now), w, s.prov[p].queue[0])
  {
    var p := Taker(s, g, q);
    FreeGroupIsAvailable(s, g, q, now);
    assert s.pc[w].Holds() ==> w in Holders(s.cfg, s.pc, g);
    if s.pc[w].Parked? {
      assert WorkerOK(s.pc[w], s.prov[p], p in s.cfg.lifecycle);
      ParkedStarts(s, w, g, now);
    } else if s.pc[w].Checking? {
      CheckStarts(s, w, g, now);
    } else {
      AcquireStarts(s, w, g, now);
    }
  }

  // ---------- warmth ----------

  /** A provider does not turn cold while one of its jobs is between dequeue and finish. */
  lemma WarmWhileBusy(s: State, a: Step, w: WorkerId)
    requires Inv(s) && Enabled(s, a) && At(s, w) && s.pc[w].Busy? && s.prov[Of(s, w)].warm
    ensures Of(s, w) in Next(s, a).prov && Next(s, a).prov[Of(s, w)].warm
  {
    var p := Of(s, w);
    assert ProvOK(s.cfg, s.pc, p, s.prov[p]);
    assert w in BusyFor(s.cfg, s.pc, p);
    if a.Work? {
      if s.pc[a.w].Acquiring? { WarmAcrossAcquire(s, a.w, a.now, w); } else { WorkIsTame(s, a.w, a.ok, a.now); }
    } else {
      WarmAcrossOthers(s, a, p);
    }
  }

  lemma WarmAcrossOthers(s: State, a: Step, p: ProviderId)
    requires TypeOK(s) && Enabled(s, a) && !a.Work? && p in s.prov && s.prov[p].warm && s.prov[p].active > 0
    ensures p in Next(s, a).prov && Next(s, a).prov[p].warm
  {}

  lemma WarmAcrossAcquire(s: State, x: WorkerId, now: Time, w: WorkerId)
    requires TypeOK(s) && ResourceInv(s.cfg, s.pc, s.resources, s.clock) && CanWork(s, x) && s.pc[x].Acquiring?
    requires At(s, w) && s.pc[w].Busy? && s.prov[Of(s, w)].warm
    ensures var t := AcquireStep(s, x, now); t.prov.Keys == s.prov.Keys && t.prov[Of(s, w)].warm
  {
    var p := Of(s, x);
    if p in s.cfg.group && Available(s, p, s.cfg.group[p], now) {
      var g := s.cfg.group[p];
      assert GroupInv(s.cfg, s.pc, g, s.resources[g], s.clock);
      if s.resources[g].activeProvider != NONE && s.resources[g].activeProvider != p {
        NobodyBusy(s, g, s.resources[g].activeProvider);
        NobodyBusy(s, g, p);
      }
    }
  }

  /** In all states from i to j worker w is busy, and so with one job. */
  ghost predicate BusyAlong(run: seq<State>, w: WorkerId, i: nat, j: nat) {
    i <= j < |run| && forall k :: i <= k <= j ==> w in run[k].pc && run[k].pc[w].Busy?
  }

  /** Every synthesis of a lifecycle provider runs warm, and the provider stays warm until the job is
      finished. */
  lemma {:induction false} SynthesisRunsWarm(cfg: Config, run: seq<State>, steps: seq<Step>, i: nat, j: nat,
                                             w: WorkerId)
    requires IsRun(cfg, run, steps) && BusyAlong(run, w, i, j)
    requires At(run[i], w) && run[i].pc[w].Is(Synthesizing) && Of(run[i], w) in run[i].cfg.lifecycle
    ensures At(run[j], w) && Of(run[j], w) == Of(run[i], w) && run[j].prov[Of(run[i], w)].warm
    ensures run[j].pc[w].job == run[i].pc[w].job
    decreases j
  {
    if i == j {
      RunKeepsInv(cfg, run, steps, i);
      assert WorkerOK(run[i].pc[w], run[i].prov[Of(run[i], w)], Of(run[i], w) in run[i].cfg.lifecycle);
    } else {
      SynthesisRunsWarm(cfg, run, steps, i, j - 1, w);
      RunKeepsInv(cfg, run, steps, j - 1);
      WarmNext(run[j-1], steps[j-1], w);
    }
  }

  lemma WarmNext(s: State, a: Step, w: WorkerId)
    requires Inv(s) && Enabled(s, a) && At(s, w) && s.pc[w].Busy? && s.prov[Of(s, w)].warm
    requires w in Next(s, a).pc && Next(s, a).pc[w].Busy?
    ensures At(Next(s, a), w) && Of(Next(s, a), w) == Of(s, w) && Next(s, a).prov[Of(s, w)].warm
    ensures Next(s, a).pc[w].job == s.pc[w].job
  {
    StepGoesOn(s, a);
    WarmWhileBusy(s, a, w);
    StaysBusy(s, a, w);
  }

  /** The lifecycle mutex: at most one worker is inside Warm or about to enter it, and none while
      a handler is inside Idle. */
  lemma WarmAndIdleExclude(cfg: Config, run: seq<State>, steps: seq<Step>, i: nat, p: ProviderId)
    requires IsRun(cfg, run, steps) && i < |run| && p in run[i].prov
    ensures |Lockers(run[i].cfg, run[i].pc, p)| + run[i].prov[p].idling <= 1
  {
    RunKeepsInv(cfg, run, steps, i);
    assert ProvOK(run[i].cfg, run[i].pc, p, run[i].prov[p]);
  }

  // ---------- idle unload ----------

  /** A timer is set only for a quiet provider, and a quiet warm provider with an idle delay
      always has one running, or a handler of it on its way. */
  lemma IdleTimerBothWays(cfg: Config, run: seq<State>, steps: seq<Step>, i: nat, p: ProviderId)
    requires IsRun(cfg, run, steps) && i < |run| && p in run[i].prov
    ensures var v := run[i].prov[p];
            && (!v.timer.NoTimer? ==> v.active == 0 && v.queue == [])
            && (p in run[i].cfg.idleDelay && v.warm && v.active == 0 && v.queue == [] ==>
                  v.timer.Armed? || (v.timer.Expired? && v.firing > 0))
  {
    RunKeepsInv(cfg, run, steps, i);
    assert ProvOK(run[i].cfg, run[i].pc, p, run[i].prov[p]);
  }

  // ---------- jobs ----------

  /** Jobs start in the order of submission: what was dequeued, followed by the queue, is what was
      submitted, without repetition. Every dequeued job is closed or in the hands of exactly one
      worker, and no job is closed twice. */
  lemma JobsAreConserved(cfg: Config, run: seq<State>, steps: seq<Step>, i: nat, p: ProviderId)
    requires IsRun(cfg, run, steps) && i < |run| && p in run[i].prov
    ensures var s, v := run[i], run[i].prov[p];
            && v.submitted == v.dequeued + v.queue && NoDup(v.submitted) && NoDup(s.closed)
            && (forall id :: id in v.queue ==> id !in s.closed)
            && (forall id :: id in v.dequeued ==> (id in s.closed <==> !exists w :: HeldBy(s.pc, w, id)))
            && (forall w, x, id :: HeldBy(s.pc, w, id) && HeldBy(s.pc, x, id) ==> w == x)
  {
    RunKeepsInv(cfg, run, steps, i);
    var s, v := run[i], run[i].prov[p];
    assert HistoryOK(v, p, s.home);
    forall id | id in v.queue ensures id !in s.closed {
      PopIsQueued(s, p, id);
      assert StatusOK(id, s.jobs[id], s.prov, s.closed, s.home);
    }
    forall id, w | id in v.dequeued && id in s.closed ensures !HeldBy(s.pc, w, id) {
      assert HeldBy(s.pc, w, id) ==> StatusOK(id, s.jobs[id], s.prov, s.closed, s.home);
    }
  }

  /** No step forgets a job before it is finished; in particular the sweeper does not. */
  lemma UnfinishedJobsStay(s: State, a: Step, id: JobId)
    requires TypeOK(s) && Enabled(s, a) && id in s.jobs && !s.jobs[id].status.Done()
    ensures id in Next(s, a).jobs
  {
    if a.Work? {
      if s.pc[a.w].Acquiring? { AcquireIsIdle(s, a.w, a.now); } else { WorkIsTame(s, a.w, a.ok, a.now); }
    }
  }

  /** A status says queued exactly while the job is in its provider's queue, and done exactly when
      its done channel is closed; only finished jobs are ever forgotten. */
  lemma StatusMeansPlace(cfg: Config, run: seq<State>, steps: seq<Step>, i: nat, id: JobId)
    requires IsRun(cfg, run, steps) && i < |run| && id in run[i].home
    ensures var s := run[i];
            && (id !in s.jobs ==> id in s.closed)
            && (id in s.jobs ==>
                  && (s.jobs[id].status.Queued? <==> s.home[id] in s.prov && id in s.prov[s.home[id]].queue)
                  && (s.jobs[id].status.Done() <==> id in s.closed))
  {
    RunKeepsInv(cfg, run, steps, i);
    if id in run[i].jobs { assert StatusOK(id, run[i].jobs[id], run[i].prov, run[i].closed, run[i].home); }
  }

  /** Position: the scan of the queue for the id. */
  function IndexIn(q: seq<JobId>, id: JobId): (k: nat)
    ensures k <= |q| && (k < |q| <==> id in q) && (k < |q| ==> q[k] == id)
    ensures forall i :: 0 <= i < k ==> q[i] != id
  {
    if q == [] || q[0] == id then 0 else 1 + IndexIn(q[1..], id)
  }

  function Position(s: State, id: JobId): int {
    if id !in s.jobs then -1
    else if !s.jobs[id].status.Queued? then 0
    else if s.jobs[id].provider !in s.prov then 0
    else
      var q := s.prov[s.jobs[id].provider].queue;
      if id in q then IndexIn(q, id) + 1 else 0
  }

  /** Position numbers the queue: position k names the k-th queued job and nothing else. */
  lemma PositionNumbersTheQueue(s: State, p: ProviderId, id: JobId, k: int)
    requires Inv(s) && p in s.prov && 1 <= k
    ensures (k <= |s.prov[p].queue| && s.prov[p].queue[k-1] == id) <==>
            (id in s.jobs && s.jobs[id].provider == p && Position(s, id) == k)
  {
    var q := s.prov[p].queue;
    if k <= |q| && q[k-1] == id {
      assert id in q;
      PopIsQueued(s, p, id);
      assert StatusOK(id, s.jobs[id], s.prov, s.closed, s.home) && HistoryOK(s.prov[p], p, s.home);
      NoDupSuffix(s.prov[p].dequeued, q);
      assert IndexIn(q, id) == k - 1;
    }
  }

  lemma NoDupSuffix(a: seq<JobId>, b: seq<JobId>)
    requires NoDup(a + b)
    ensures NoDup(b)
  {
    forall i, j | 0 <= i < j < |b| ensures b[i] != b[j] { assert (a + b)[|a| + i] == b[i] && (a + b)[|a| + j] == b[j]; }
  }

  /** Queues change only by a submission at the end or a dequeue at the front. */
  lemma QueueChanges(s: State, a: Step, p: ProviderId)
    requires TypeOK(s) && Enabled(s, a) && p in s.prov
    ensures p in Next(s, a).prov
    ensures var q, r := s.prov[p].queue, Next(s, a).prov[p].queue;
            || r == q
            || (a.Submit? && a.p == p && r == q + [a.id])
            || (a.Work? && s.pc[a.w].Popping? && Of(s, a.w) == p && q != [] && r == q[1..])
  {
    if a.Work? { WorkQueues(s, a.w, a.ok, a.now, p); }
  }

  lemma WorkQueues(s: State, w: WorkerId, ok: bool, now: Time, p: ProviderId)
    requires TypeOK(s) && CanWork(s, w) && p in s.prov && s.clock <= now
    ensures var t := WorkStep(s, w, ok, now);
            && p in t.prov
            && (t.prov[p].queue == s.prov[p].queue
                || (s.pc[w].Popping? && Of(s, w) == p && s.prov[p].queue != []
                    && t.prov[p].queue == s.prov[p].queue[1..]))
  {
    match s.pc[w]
    case Acquiring => AcquireIsIdle(s, w, now);
    case Releasing => ReleaseIsIdle(s, w, now);
    case Busy(id, stage) => RunQueues(s, w, id, stage, ok, now, p);
    case _ =>
  }

  lemma RunQueues(s: State, w: WorkerId, id: JobId, stage: Stage, ok: bool, now: Time, p: ProviderId)
    requires At(s, w) && id in s.jobs && p in s.prov
    ensures var t := RunStep(s, w, id, stage, ok, now); p in t.prov && t.prov[p].queue == s.prov[p].queue
  {}

  /** The position of a waiting job never grows: every dequeue of its provider lowers it by one,
      from one to not waiting, and no other step moves it. */
  lemma PositionDropsByDequeue(s: State, a: Step, p: ProviderId, id: JobId)
    requires TypeOK(s) && Enabled(s, a) && p in s.prov && id in s.prov[p].queue && NoDup(s.prov[p].queue)
    requires a.Submit? ==> a.id != id
    ensures p in Next(s, a).prov
    ensures var q, r := s.prov[p].queue, Next(s, a).prov[p].queue;
            if a.Work? && s.pc[a.w].Popping? && Of(s, a.w) == p
            then (if IndexIn(q, id) == 0 then id !in r else id in r && IndexIn(r, id) == IndexIn(q, id) - 1)
            else id in r && IndexIn(r, id) == IndexIn(q, id)
  {
    QueueChanges(s, a, p);
    var q, r := s.prov[p].queue, Next(s, a).prov[p].queue;
    IndexUnique(q, id, IndexIn(q, id));
    if a.Work? && s.pc[a.w].Popping? && Of(s, a.w) == p {
      PopTakesHead(s, a.w, a.ok, a.now);
    } else if r != q {
      assert r[IndexIn(q, id)] == id;
      IndexFirst(r, id, IndexIn(q, id));
    }
  }

  lemma PopTakesHead(s: State, w: WorkerId, ok: bool, now: Time)
    requires TypeOK(s) && CanWork(s, w) && s.pc[w].Popping? && s.prov[Of(s, w)].queue != [] && s.clock <= now
    ensures Next(s, Work(w, ok, now)).prov[Of(s, w)].queue == s.prov[Of(s, w)].queue[1..]
  {}

  lemma {:induction false} IndexFirst(q: seq<JobId>, id: JobId, k: nat)
    requires k < |q| && q[k] == id && forall i :: 0 <= i < k ==> q[i] != id
    ensures IndexIn(q, id) == k
  {
    if k > 0 { IndexFirst(q[1..], id, k - 1); }
  }

  lemma IndexUnique(q: seq<JobId>, id: JobId, k: nat)
    requires NoDup(q) && k < |q| && q[k] == id
    ensures IndexIn(q, id) == k && (k > 0 ==> IndexIn(q[1..], id) == k - 1) && (k == 0 ==> id !in q[1..])
  {
    IndexFirst(q, id, k);
    if k > 0 { IndexFirst(q[1..], id, k - 1); }
  }
}
