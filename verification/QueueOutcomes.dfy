/** What becomes of jobs and groups, told from the outcomes and the clocks along the run alone. */
module QueueOutcomes {
  import opened QueueMachine
  import opened QueueInvariants
  import opened QueuePreservation
  import opened QueueTheorems

  // ---------- success and failure of queued jobs ----------

  /** At step k a worker is at this stage of job `id`. */
  ghost predicate Tries(run: seq<State>, steps: seq<Step>, id: JobId, k: nat, stage: Stage)
    requires |run| == |steps| + 1
  {
    k < |steps| && steps[k].Work? && steps[k].w in run[k].pc && run[k].pc[steps[k].w] == Busy(id, stage)
  }

  /** Before state n, the gate, Warm or the synthesis reported a failure for job `id`. */
  ghost predicate SomethingFailed(run: seq<State>, steps: seq<Step>, id: JobId, n: nat)
    requires |run| == |steps| + 1
  {
    exists k: nat :: k < n && Reports(run, steps, id, k) && !steps[k].ok
  }

  /** The run gate, Warm and the synthesis report an outcome. */
  ghost predicate Reports(run: seq<State>, steps: seq<Step>, id: JobId, k: nat)
    requires |run| == |steps| + 1
  {
    k < |steps| &&
    (Tries(run, steps, id, k, Gate) || Tries(run, steps, id, k, Warming) || Tries(run, steps, id, k, Synthesizing))
  }

  ghost predicate Reached(run: seq<State>, steps: seq<Step>, id: JobId, stage: Stage, n: nat)
    requires |run| == |steps| + 1
  {
    exists k: nat :: k < n && Tries(run, steps, id, k, stage)
  }

  /** The same three facts, step by step. */
  datatype Trail = Trail(gate: bool, synth: bool, failed: bool)

  function Noted(v: Trail, s: State, a: Step, id: JobId): Trail {
    if !a.Work? || a.w !in s.pc || !s.pc[a.w].Busy? || s.pc[a.w].job != id then v
    else match s.pc[a.w].stage
      case Gate => Trail(true, v.synth, v.failed || !a.ok)
      case Warming => Trail(v.gate, v.synth, v.failed || !a.ok)
      case Synthesizing => Trail(v.gate, true, v.failed || !a.ok)
      case _ => v
  }

  ghost function TrailOf(run: seq<State>, steps: seq<Step>, id: JobId, n: nat): Trail
    requires |run| == |steps| + 1 && n <= |steps|
  {
    if n == 0 then Trail(false, false, false) else Noted(TrailOf(run, steps, id, n - 1), run[n-1], steps[n-1], id)
  }

  lemma {:induction false} TrailMeaning(run: seq<State>, steps: seq<Step>, id: JobId, n: nat)
    requires |run| == |steps| + 1 && n <= |steps|
    ensures var v := TrailOf(run, steps, id, n);
            && (v.gate <==> Reached(run, steps, id, Gate, n)) && (v.synth <==> Reached(run, steps, id, Synthesizing, n))
            && (v.failed <==> SomethingFailed(run, steps, id, n))
  {
    if n > 0 {
      TrailMeaning(run, steps, id, n - 1);
      if Tries(run, steps, id, n - 1, Gate) || Tries(run, steps, id, n - 1, Synthesizing) { assert n - 1 < n; }
      if Reports(run, steps, id, n - 1) && !steps[n-1].ok { assert n - 1 < n; }
    }
  }

  /** What the trail of a job says of a worker that has it. */
  predicate StageOK(stage: Stage, v: Trail) {
    match stage
    case Gate => v == Trail(false, false, false)
    case Finishing(ok) => ok == (v.gate && v.synth && !v.failed)
    case _ => v == Trail(true, false, false)
  }

  /** What it says of the job. */
  predicate EndOK(j: Job, v: Trail) {
    && (j.status.Queued? ==> v == Trail(false, false, false))
    && (!j.direct && j.status.Done() ==> (j.status.Succeeded? <==> v.gate && v.synth && !v.failed))
  }

  ghost predicate OutcomeInv(s: State, id: JobId, v: Trail) {
    && (id in s.jobs ==> EndOK(s.jobs[id], v))
    && (id !in s.home ==> v == Trail(false, false, false))
    && (forall w :: w in s.pc && s.pc[w].Busy? && s.pc[w].job == id ==> StageOK(s.pc[w].stage, v))
  }

  // ---------- step by step ----------

  /** What a step does to job `id` and to the workers that have it. */
  ghost predicate Untouched(s: State, t: State, id: JobId) {
    && (id in t.jobs ==>
        id in s.jobs && t.jobs[id].status == s.jobs[id].status && t.jobs[id].direct == s.jobs[id].direct)
    && (id in t.home <==> id in s.home)
    && (forall w :: w in t.pc && t.pc[w].Busy? && t.pc[w].job == id ==> w in s.pc && t.pc[w] == s.pc[w])
  }

  lemma UntouchedKeeps(s: State, t: State, id: JobId, v: Trail)
    requires OutcomeInv(s, id, v) && Untouched(s, t, id)
    ensures OutcomeInv(t, id, v)
  {}

  lemma OneHas(s: State, w: WorkerId, x: WorkerId)
    requires Inv(s) && w in s.pc && x in s.pc && s.pc[w].Busy? && s.pc[x].Busy? && s.pc[w].job == s.pc[x].job
    ensures w == x
  {}

  lemma IdleUntouched(s: State, w: WorkerId, ok: bool, now: Time, id: JobId)
    requires TypeOK(s) && CanWork(s, w) && s.clock <= now && !s.pc[w].Busy? && !s.pc[w].Popping?
    ensures Untouched(s, WorkStep(s, w, ok, now), id)
  {
    match s.pc[w]
    case Acquiring => AcquireIsIdle(s, w, now);
    case Releasing => ReleaseIsIdle(s, w, now); ReleaseTypes(s, w, now);
    case _ =>
  }

  lemma PopOutcome(s: State, w: WorkerId, id: JobId, v: Trail)
    requires Inv(s) && At(s, w) && s.pc[w].Popping? && OutcomeInv(s, id, v)
    ensures OutcomeInv(PopStep(s, w), id, v)
  {
    var q := s.prov[Of(s, w)].queue;
    if q != [] && q[0] == id {
      PopIsQueued(s, Of(s, w), id);
      assert StatusOK(id, s.jobs[id], s.prov, s.closed, s.home);
      assert HistoryOK(s.prov[Of(s, w)], Of(s, w), s.home);
      assert s.jobs[id].status.Queued?;
      assert forall x :: x in s.pc && s.pc[x].Busy? ==> s.pc[x].job != id;
    } else {
      UntouchedKeeps(s, PopStep(s, w), id, v);
    }
  }

  lemma FinishOutcome(s: State, w: WorkerId, id: JobId, ok: bool, now: Time, v: Trail)
    requires Inv(s) && At(s, w) && s.pc[w] == Busy(id, Finishing(ok)) && OutcomeInv(s, id, v)
    ensures OutcomeInv(FinishStep(s, w, id, ok, now), id, v)
  {
    forall x | x in s.pc && x != w && s.pc[x].Busy?
      ensures s.pc[x].job != id { if s.pc[x].job == id { OneHas(s, w, x); } }
  }

  lemma RunOutcome(s: State, w: WorkerId, id: JobId, stage: Stage, ok: bool, now: Time, v: Trail)
    requires Inv(s) && At(s, w) && s.pc[w] == Busy(id, stage) && !stage.Finishing? && OutcomeInv(s, id, v)
    ensures OutcomeInv(RunStep(s, w, id, stage, ok, now), id, Noted(v, s, Work(w, ok, now), id))
  {
    assert StageOK(stage, v);
    forall x | x in s.pc && x != w && s.pc[x].Busy?
      ensures s.pc[x].job != id { if s.pc[x].job == id { OneHas(s, w, x); } }
    assert StatusOK(id, s.jobs[id], s.prov, s.closed, s.home);
  }

  /** A section of a job is none of another. */
  lemma RunUntouched(s: State, w: WorkerId, job: JobId, stage: Stage, ok: bool, now: Time, id: JobId)
    requires At(s, w) && job in s.jobs && s.pc[w] == Busy(job, stage) && id != job
    ensures Untouched(s, RunStep(s, w, job, stage, ok, now), id)
  {}

  lemma WorkOutcome(s: State, w: WorkerId, ok: bool, now: Time, id: JobId, v: Trail)
    requires Inv(s) && CanWork(s, w) && s.clock <= now && OutcomeInv(s, id, v)
    ensures OutcomeInv(WorkStep(s, w, ok, now), id, Noted(v, s, Work(w, ok, now), id))
  {
    if s.pc[w].Popping? {
      PopOutcome(s, w, id, v);
    } else if !s.pc[w].Busy? {
      IdleUntouched(s, w, ok, now, id);
      UntouchedKeeps(s, WorkStep(s, w, ok, now), id, v);
    } else if s.pc[w].job != id {
      RunUntouched(s, w, s.pc[w].job, s.pc[w].stage, ok, now, id);
      UntouchedKeeps(s, WorkStep(s, w, ok, now), id, v);
    } else if s.pc[w].stage.Finishing? {
      FinishOutcome(s, w, id, s.pc[w].stage.ok, now, v);
    } else {
      RunOutcome(s, w, id, s.pc[w].stage, ok, now, v);
    }
  }

  lemma OthersOutcome(s: State, a: Step, id: JobId, v: Trail)
    requires Inv(s) && Enabled(s, a) && !a.Work? && OutcomeInv(s, id, v)
    ensures OutcomeInv(Next(s, a), id, v)
  {
    if (a.Submit? || a.NewRunning?) && a.id == id { FreshId(s, id); }
  }

  lemma StepOutcome(s: State, a: Step, id: JobId, v: Trail)
    requires Inv(s) && Enabled(s, a) && OutcomeInv(s, id, v)
    ensures OutcomeInv(Next(s, a), id, Noted(v, s, a, id))
  {
    if a.Work? { WorkOutcome(s, a.w, a.ok, a.now, id, v); } else { OthersOutcome(s, a, id, v); }
  }

  lemma {:induction false} RunOutcomes(cfg: Config, run: seq<State>, steps: seq<Step>, id: JobId, n: nat)
    requires IsRun(cfg, run, steps) && n < |run|
    ensures OutcomeInv(run[n], id, TrailOf(run, steps, id, n))
  {
    if n > 0 {
      RunOutcomes(cfg, run, steps, id, n - 1);
      RunKeepsInv(cfg, run, steps, n - 1);
      assert Enabled(run[n-1], steps[n-1]);
      StepOutcome(run[n-1], steps[n-1], id, TrailOf(run, steps, id, n - 1));
    }
  }

  /** A queued job that is done has succeeded if and only if it has passed the run gate and been
      synthesized, and the gate, the synthesis, and Warm if there was one, all reported success.
      Otherwise it has failed. */
  lemma OutcomeOfJob(cfg: Config, run: seq<State>, steps: seq<Step>, id: JobId, n: nat)
    requires IsRun(cfg, run, steps) && n < |run|
    requires id in run[n].jobs && !run[n].jobs[id].direct && run[n].jobs[id].status.Done()
    ensures run[n].jobs[id].status == Succeeded <==>
              && Reached(run, steps, id, Gate, n) && Reached(run, steps, id, Synthesizing, n)
              && forall k: nat :: k < n && Reports(run, steps, id, k) ==> steps[k].ok
    ensures run[n].jobs[id].status != Succeeded ==> run[n].jobs[id].status == Failed
  {
    RunOutcomes(cfg, run, steps, id, n);
    TrailMeaning(run, steps, id, n);
    if !SomethingFailed(run, steps, id, n) {
      forall k: nat | k < n && Reports(run, steps, id, k) ensures steps[k].ok {}
    }
  }

  // ---------- when a job ended, and when it is forgotten ----------

  lemma DoneStaysByWork(s: State, w: WorkerId, ok: bool, now: Time, id: JobId)
    requires Inv(s) && CanWork(s, w) && s.clock <= now && id in s.jobs && s.jobs[id].status.Done()
    ensures var t := WorkStep(s, w, ok, now);
            id in t.jobs && t.jobs[id].status == s.jobs[id].status && t.jobs[id].finishedAt == s.jobs[id].finishedAt
  {
    match s.pc[w]
    case Acquiring => AcquireIsIdle(s, w, now);
    case Releasing => ReleaseIsIdle(s, w, now);
    case Popping =>
      if s.prov[Of(s, w)].queue != [] {
        var head := s.prov[Of(s, w)].queue[0];
        PopIsQueued(s, Of(s, w), head);
        assert StatusOK(head, s.jobs[head], s.prov, s.closed, s.home) && HistoryOK(s.prov[Of(s, w)], Of(s, w), s.home);
      }
    case _ =>
  }

  /** A job that is done keeps its outcome and its time for as long as it is known. */
  lemma DoneStays(s: State, a: Step, id: JobId)
    requires Inv(s) && Enabled(s, a) && id in s.jobs && s.jobs[id].status.Done() && id in Next(s, a).jobs
    ensures Next(s, a).jobs[id].status == s.jobs[id].status && Next(s, a).jobs[id].finishedAt == s.jobs[id].finishedAt
  {
    if a.Work? { DoneStaysByWork(s, a.w, a.ok, a.now, id); }
    else if a.Submit? || a.NewRunning? { FreshId(s, a.id); }
  }

  /** The step has ended the job: the clock it read is the job's time. */
  ghost predicate Ends(s: State, a: Step, t: State, id: JobId)
    requires id in t.jobs
  {
    && id !in s.closed && id in t.closed && (a.Work? || a.EndDirect?) && t.jobs[id].finishedAt == a.now
    && (a.EndDirect? ==> a.id == id && (t.jobs[id].status == Succeeded <==> a.ok))
  }

  lemma WorkEnds(s: State, w: WorkerId, ok: bool, now: Time, id: JobId)
    requires Inv(s) && CanWork(s, w) && s.clock <= now
    requires var t := WorkStep(s, w, ok, now);
             id in t.jobs && t.jobs[id].status.Done() && !(id in s.jobs && s.jobs[id].status.Done())
    ensures Ends(s, Work(w, ok, now), WorkStep(s, w, ok, now), id)
  {
    match s.pc[w]
    case Acquiring => AcquireIsIdle(s, w, now);
    case Releasing => ReleaseIsIdle(s, w, now);
    case Busy(job, stage) => if job == id { assert StatusOK(id, s.jobs[id], s.prov, s.closed, s.home); }
    case _ =>
  }

  lemma JustEnded(s: State, a: Step, id: JobId)
    requires Inv(s) && Enabled(s, a)
    requires id in Next(s, a).jobs && Next(s, a).jobs[id].status.Done() && !(id in s.jobs && s.jobs[id].status.Done())
    ensures Ends(s, a, Next(s, a), id)
  {
    if a.Work? {
      WorkEnds(s, a.w, a.ok, a.now, id);
    } else if a.EndDirect? && a.id == id {
      assert StatusOK(id, s.jobs[id], s.prov, s.closed, s.home);
    }
  }

  /** A job that is done was so before and has not changed, or the step ended it. */
  ghost predicate KeepsOrEnds(s: State, a: Step, t: State, id: JobId) {
    id in t.jobs && t.jobs[id].status.Done() ==>
      if id in s.jobs && s.jobs[id].status.Done()
      then t.jobs[id].status == s.jobs[id].status && t.jobs[id].finishedAt == s.jobs[id].finishedAt
      else Ends(s, a, t, id)
  }

  lemma RunKeepsOrEnds(cfg: Config, run: seq<State>, steps: seq<Step>, id: JobId, i: nat)
    requires IsRun(cfg, run, steps) && i < |steps|
    ensures KeepsOrEnds(run[i], steps[i], run[i+1], id)
  {
    RunKeepsInv(cfg, run, steps, i);
    var s, a, t := run[i], steps[i], run[i+1];
    assert Enabled(s, a) && t == Next(s, a);
    if id in t.jobs && t.jobs[id].status.Done() {
      if id in s.jobs && s.jobs[id].status.Done() { DoneStays(s, a, id); } else { JustEnded(s, a, id); }
    }
  }

  lemma {:induction false} EndAmong(run: seq<State>, steps: seq<Step>, id: JobId, n: nat) returns (k: nat)
    requires |run| == |steps| + 1 && n < |run| && id in run[n].jobs && run[n].jobs[id].status.Done()
    requires forall i {:trigger steps[i]} :: 0 <= i < |steps| ==> KeepsOrEnds(run[i], steps[i], run[i+1], id)
    requires id !in run[0].jobs
    ensures k < n && id !in run[k].closed && id in run[k+1].closed && (steps[k].Work? || steps[k].EndDirect?)
    ensures run[n].jobs[id].finishedAt == steps[k].now
    ensures steps[k].EndDirect? ==> steps[k].id == id && (run[n].jobs[id].status == Succeeded <==> steps[k].ok)
  {
    k := n - 1;
    assert KeepsOrEnds(run[k], steps[k], run[k+1], id);
    if id in run[k].jobs && run[k].jobs[id].status.Done() { k := EndAmong(run, steps, id, n - 1); }
  }

  /** The step that ended a job: `finishedAt` is what it read, and a job of NewRunningJob has succeeded
      exactly if it was ended as a success. */
  lemma EndOfJob(cfg: Config, run: seq<State>, steps: seq<Step>, id: JobId, n: nat) returns (k: nat)
    requires IsRun(cfg, run, steps) && n < |run| && id in run[n].jobs && run[n].jobs[id].status.Done()
    ensures k < n && id !in run[k].closed && id in run[k+1].closed && (steps[k].Work? || steps[k].EndDirect?)
    ensures run[n].jobs[id].finishedAt == steps[k].now
    ensures steps[k].EndDirect? ==> steps[k].id == id && (run[n].jobs[id].status == Succeeded <==> steps[k].ok)
  {
    forall i | 0 <= i < |steps| ensures KeepsOrEnds(run[i], steps[i], run[i+1], id) {
      RunKeepsOrEnds(cfg, run, steps, id, i);
    }
    k := EndAmong(run, steps, id, n);
  }

  /** A sweep forgets a job if and only if it is done and ended more than the time to live before. */
  lemma SweptAfterTimeToLive(cfg: Config, run: seq<State>, steps: seq<Step>, m: nat, id: JobId) returns (k: nat)
    requires IsRun(cfg, run, steps) && m < |steps| && steps[m].Sweep? && id in run[m].jobs
    ensures run[m].jobs[id].status.Done() ==>
              && k < m && id !in run[k].closed && id in run[k+1].closed && (steps[k].Work? || steps[k].EndDirect?)
              && (id !in run[m+1].jobs <==> steps[m].now - steps[k].now > run[m].cfg.jobTTL)
    ensures !run[m].jobs[id].status.Done() ==> id in run[m+1].jobs
  {
    RunKeepsInv(cfg, run, steps, m);
    assert run[m+1] == Next(run[m], steps[m]);
    k := 0;
    if run[m].jobs[id].status.Done() { k := EndOfJob(cfg, run, steps, id, m); }
  }

  // ---------- chunks ----------

  /** The chunks reported for a known job before state n. */
  ghost function Reported(run: seq<State>, steps: seq<Step>, id: JobId, n: nat): nat
    requires |run| == |steps| + 1 && n <= |steps|
  {
    if n == 0 then 0
    else Reported(run, steps, id, n - 1) + if steps[n-1] == BumpChunk(id) && id in run[n-1].jobs then 1 else 0
  }

  lemma WorkKeepsChunks(s: State, w: WorkerId, ok: bool, now: Time, id: JobId)
    requires Inv(s) && CanWork(s, w) && s.clock <= now
    ensures var t := WorkStep(s, w, ok, now);
            (id in t.jobs <==> id in s.jobs) && (id in s.jobs ==> t.jobs[id].chunks == s.jobs[id].chunks)
  {
    match s.pc[w]
    case Acquiring => AcquireIsIdle(s, w, now);
    case Releasing => ReleaseIsIdle(s, w, now);
    case _ =>
  }

  lemma StepChunks(s: State, a: Step, id: JobId)
    requires Inv(s) && Enabled(s, a) && id in Next(s, a).jobs
    ensures Next(s, a).jobs[id].chunks ==
            (if id in s.jobs then s.jobs[id].chunks else 0) + (if a == BumpChunk(id) && id in s.jobs then 1 else 0)
    ensures id !in s.jobs ==> id !in s.home
  {
    if a.Work? { WorkKeepsChunks(s, a.w, a.ok, a.now, id); }
    else if (a.Submit? || a.NewRunning?) && a.id == id { FreshId(s, id); }
  }

  lemma {:induction false} UnknownReportsNothing(cfg: Config, run: seq<State>, steps: seq<Step>, id: JobId, n: nat)
    requires IsRun(cfg, run, steps) && n < |run| && id !in run[n].home
    ensures Reported(run, steps, id, n) == 0
  {
    if n > 0 {
      RunKeepsInv(cfg, run, steps, n - 1);
      assert Enabled(run[n-1], steps[n-1]);
      if id in run[n-1].home { HomeGrows(run[n-1], steps[n-1], id); }
      UnknownReportsNothing(cfg, run, steps, id, n - 1);
      assert id in run[n-1].jobs ==> StatusOK(id, run[n-1].jobs[id], run[n-1].prov, run[n-1].closed, run[n-1].home);
    }
  }

  lemma HomeGrows(s: State, a: Step, id: JobId)
    requires Inv(s) && Enabled(s, a) && id in s.home
    ensures id in Next(s, a).home
  {
    if a.Work? { WorkKeepsHome(s, a.w, a.ok, a.now); }
  }

  lemma WorkKeepsHome(s: State, w: WorkerId, ok: bool, now: Time)
    requires TypeOK(s) && CanWork(s, w) && s.clock <= now
    ensures WorkStep(s, w, ok, now).home == s.home
  {
    match s.pc[w]
    case Acquiring => AcquireIsIdle(s, w, now);
    case Releasing => ReleaseIsIdle(s, w, now);
    case _ =>
  }

  /** The chunk counter of a known job counts the chunks reported for it. */
  lemma {:induction false} ChunksAreCounted(cfg: Config, run: seq<State>, steps: seq<Step>, id: JobId, n: nat)
    requires IsRun(cfg, run, steps) && n < |run| && id in run[n].jobs
    ensures run[n].jobs[id].chunks == Reported(run, steps, id, n)
  {
    if n == 0 {
      assert false;
    } else {
      RunKeepsInv(cfg, run, steps, n - 1);
      assert Enabled(run[n-1], steps[n-1]);
      StepChunks(run[n-1], steps[n-1], id);
      if id in run[n-1].jobs {
        ChunksAreCounted(cfg, run, steps, id, n - 1);
      } else {
        UnknownReportsNothing(cfg, run, steps, id, n - 1);
      }
    }
  }

  // ---------- who calls Warm ----------

  predicate OnTheWayToWarm(stage: Stage) { stage.WarmWait? || stage.WarmRecheck? || stage.Warming? || stage.MarkWarm? }

  ghost predicate LifecycleInv(s: State) {
    forall w :: w in s.pc && s.pc[w].Busy? && OnTheWayToWarm(s.pc[w].stage) ==> At(s, w) && Of(s, w) in s.cfg.lifecycle
  }

  lemma RunWarms(s: State, w: WorkerId, id: JobId, stage: Stage, ok: bool, now: Time)
    requires LifecycleInv(s) && At(s, w) && id in s.jobs && s.pc[w] == Busy(id, stage)
    ensures LifecycleInv(RunStep(s, w, id, stage, ok, now))
    ensures RunStep(s, w, id, stage, ok, now).pc[w].Is(Warming) ==> stage.WarmRecheck? && !s.prov[Of(s, w)].warm
  {}

  /** Only a section of `run` changes the stage of a busy worker. */
  ghost predicate SameStages(s: State, t: State) {
    && t.cfg == s.cfg && t.prov.Keys == s.prov.Keys && t.pc.Keys == s.pc.Keys
    && forall w :: w in t.pc && t.pc[w].Busy? && OnTheWayToWarm(t.pc[w].stage) ==> w in s.pc && t.pc[w] == s.pc[w]
  }

  lemma AcquireStages(s: State, w: WorkerId, now: Time)
    requires TypeOK(s) && CanWork(s, w) && s.pc[w].Acquiring? && s.clock <= now
    ensures SameStages(s, AcquireStep(s, w, now))
  {
    AcquireIsIdle(s, w, now);
    AcquireMoves(s, w, now);
  }

  lemma AcquireMoves(s: State, w: WorkerId, now: Time)
    requires At(s, w) && GroupKnown(s, Of(s, w)) && s.pc[w].Acquiring?
    ensures AcquireStep(s, w, now).pc == s.pc || AcquireStep(s, w, now).pc == s.pc[w := Popping]
  {}

  lemma PopStages(s: State, w: WorkerId)
    requires TypeOK(s) && At(s, w)
    ensures SameStages(s, PopStep(s, w))
  {}

  lemma ReleaseStages(s: State, w: WorkerId, now: Time)
    requires At(s, w) && GroupKnown(s, Of(s, w))
    ensures SameStages(s, ReleaseStep(s, w, now))
  {}

  lemma WorkStages(s: State, w: WorkerId, ok: bool, now: Time)
    requires TypeOK(s) && CanWork(s, w) && s.clock <= now && !s.pc[w].Busy?
    ensures SameStages(s, WorkStep(s, w, ok, now))
  {
    match s.pc[w]
    case Acquiring => AcquireStages(s, w, now);
    case Popping => PopStages(s, w);
    case Releasing => ReleaseStages(s, w, now);
    case _ =>
  }

  lemma WorkWarms(s: State, w: WorkerId, ok: bool, now: Time)
    requires TypeOK(s) && LifecycleInv(s) && CanWork(s, w) && s.clock <= now
    ensures LifecycleInv(WorkStep(s, w, ok, now))
  {
    if s.pc[w].Busy? { RunWarms(s, w, s.pc[w].job, s.pc[w].stage, ok, now); } else { WorkStages(s, w, ok, now); }
  }

  lemma OthersWarm(s: State, a: Step)
    requires TypeOK(s) && LifecycleInv(s) && Enabled(s, a) && !a.Work?
    ensures LifecycleInv(Next(s, a))
  {
    StepGoesOn(s, a);
  }

  lemma {:induction false} RunLifecycle(cfg: Config, run: seq<State>, steps: seq<Step>, n: nat)
    requires IsRun(cfg, run, steps) && n < |run|
    ensures LifecycleInv(run[n])
  {
    if n > 0 {
      RunLifecycle(cfg, run, steps, n - 1);
      RunKeepsInv(cfg, run, steps, n - 1);
      var s, a := run[n-1], steps[n-1];
      assert Enabled(s, a);
      if a.Work? { WorkWarms(s, a.w, a.ok, a.now); } else { OthersWarm(s, a); }
    }
  }

  /** Warm is called only for a provider that has a lifecycle and is not marked warm at the second look. */
  lemma WarmOnlyWhenCold(cfg: Config, run: seq<State>, steps: seq<Step>, k: nat, w: WorkerId)
    requires IsRun(cfg, run, steps) && k < |steps| && w in run[k].pc && w in run[k+1].pc
    requires !run[k].pc[w].Is(Warming) && run[k+1].pc[w].Is(Warming)
    ensures At(run[k], w) && Of(run[k], w) in run[k].cfg.lifecycle && !run[k].prov[Of(run[k], w)].warm
  {
    RunKeepsInv(cfg, run, steps, k);
    RunLifecycle(cfg, run, steps, k);
    assert Enabled(run[k], steps[k]) && run[k+1] == Next(run[k], steps[k]);
    EntersWarm(run[k], steps[k], w);
  }

  lemma EntersWarm(s: State, a: Step, w: WorkerId)
    requires Inv(s) && LifecycleInv(s) && Enabled(s, a) && w in s.pc && w in Next(s, a).pc
    requires !s.pc[w].Is(Warming) && Next(s, a).pc[w].Is(Warming)
    ensures At(s, w) && Of(s, w) in s.cfg.lifecycle && !s.prov[Of(s, w)].warm
  {
    if a.Work? { WorkEntersWarm(s, a.w, a.ok, a.now, w); }
  }

  lemma WorkEntersWarm(s: State, x: WorkerId, ok: bool, now: Time, w: WorkerId)
    requires Inv(s) && LifecycleInv(s) && CanWork(s, x) && s.clock <= now && w in s.pc
             && w in WorkStep(s, x, ok, now).pc
    requires !s.pc[w].Is(Warming) && WorkStep(s, x, ok, now).pc[w].Is(Warming)
    ensures At(s, w) && Of(s, w) in s.cfg.lifecycle && !s.prov[Of(s, w)].warm
  {
    if s.pc[x].Busy? {
      RunEntersWarm(s, x, s.pc[x].job, s.pc[x].stage, ok, now, w);
    } else {
      WorkStages(s, x, ok, now);
    }
  }

  lemma RunEntersWarm(s: State, x: WorkerId, id: JobId, stage: Stage, ok: bool, now: Time, w: WorkerId)
    requires LifecycleInv(s) && At(s, x) && id in s.jobs && s.pc[x] == Busy(id, stage)
    requires w in s.pc && w in RunStep(s, x, id, stage, ok, now).pc
    requires !s.pc[w].Is(Warming) && RunStep(s, x, id, stage, ok, now).pc[w].Is(Warming)
    ensures At(s, w) && Of(s, w) in s.cfg.lifecycle && !s.prov[Of(s, w)].warm
  {
    RunWarms(s, x, id, stage, ok, now);
  }

  // ---------- the quiet period ----------

  lemma WorkKeepsGroups(s: State, w: WorkerId, ok: bool, now: Time)
    requires TypeOK(s) && CanWork(s, w) && !s.pc[w].Acquiring? && !s.pc[w].Releasing?
    ensures WorkStep(s, w, ok, now).resources == s.resources
  {}

  lemma ReleaseFrees(s: State, w: WorkerId, now: Time, g: Group)
    requires Inv(s) && At(s, w) && s.pc[w].Releasing? && g in s.resources
    ensures var t := ReleaseStep(s, w, now);
            && g in t.resources
            && (t.resources[g].activeJobs == 0 ==>
                  t.resources[g].idleSince == if s.resources[g].activeJobs > 0 then now else s.resources[g].idleSince)
  {}

  lemma AcquireFrees(s: State, w: WorkerId, now: Time, g: Group)
    requires Inv(s) && At(s, w) && s.pc[w].Acquiring? && g in s.resources
    ensures var t := AcquireStep(s, w, now);
            g in t.resources && (t.resources[g].activeJobs == 0 ==> t.resources[g] == s.resources[g])
  {}

  /** A group that nobody holds after the step: the step has freed it, or left its clock alone. */
  ghost predicate Frees(s: State, a: Step, t: State, g: Group)
    requires g in s.resources && g in t.resources
  {
    Holders(t.cfg, t.pc, g) == {} && t.resources[g].activeProvider != NONE ==>
      if Holders(s.cfg, s.pc, g) != {} then a.Work? && t.resources[g].idleSince == a.now
      else t.resources[g].idleSince == s.resources[g].idleSince && s.resources[g].activeProvider != NONE
  }

  lemma StepFrees(s: State, a: Step, g: Group)
    requires Inv(s) && Enabled(s, a) && g in s.resources
    ensures var t := Next(s, a);
            && g in t.resources
            && (t.resources[g].activeJobs == 0 ==>
                  if s.resources[g].activeJobs > 0 then a.Work? && t.resources[g].idleSince == a.now
                  else t.resources[g].idleSince == s.resources[g].idleSince
                       && t.resources[g].activeProvider == s.resources[g].activeProvider)
  {
    if a.Work? {
      if s.pc[a.w].Releasing? { ReleaseFrees(s, a.w, a.now, g); }
      else if s.pc[a.w].Acquiring? { AcquireFrees(s, a.w, a.now, g); }
      else { WorkKeepsGroups(s, a.w, a.ok, a.now); }
    }
  }

  lemma {:induction false} RunConfig(cfg: Config, run: seq<State>, steps: seq<Step>, n: nat)
    requires IsRun(cfg, run, steps) && n < |run|
    ensures run[n].cfg == cfg
  {
    if n > 0 {
      RunConfig(cfg, run, steps, n - 1);
      RunKeepsInv(cfg, run, steps, n - 1);
      assert Enabled(run[n-1], steps[n-1]);
      StepGoesOn(run[n-1], steps[n-1]);
    }
  }

  lemma RunFrees(cfg: Config, run: seq<State>, steps: seq<Step>, g: Group, i: nat)
    requires IsRun(cfg, run, steps) && i < |steps| && g in cfg.switchDelay
    ensures g in run[i].resources && g in run[i+1].resources && Frees(run[i], steps[i], run[i+1], g)
  {
    RunKeepsInv(cfg, run, steps, i);
    RunKeepsInv(cfg, run, steps, i + 1);
    var s, t := run[i], run[i+1];
    RunConfig(cfg, run, steps, i);
    RunConfig(cfg, run, steps, i + 1);
    assert Enabled(s, steps[i]) && t == Next(s, steps[i]);
    assert GroupInv(s.cfg, s.pc, g, s.resources[g], s.clock) && GroupInv(t.cfg, t.pc, g, t.resources[g], t.clock);
    StepFrees(s, steps[i], g);
    assert Holders(s.cfg, s.pc, g) != {} ==> s.resources[g].activeJobs > 0;
  }

  lemma {:induction false} LastFreed(run: seq<State>, steps: seq<Step>, g: Group, n: nat) returns (k: nat)
    requires |run| == |steps| + 1 && n < |run| && forall i :: 0 <= i < |run| ==> g in run[i].resources
    requires forall i {:trigger steps[i]} :: 0 <= i < |steps| ==> Frees(run[i], steps[i], run[i+1], g)
    requires run[0].resources[g].activeProvider == NONE
    requires Holders(run[n].cfg, run[n].pc, g) == {} && run[n].resources[g].activeProvider != NONE
    ensures k < n && Holders(run[k].cfg, run[k].pc, g) != {} && steps[k].Work?
    ensures forall i :: k < i <= n ==> Holders(run[i].cfg, run[i].pc, g) == {}
    ensures run[n].resources[g].idleSince == steps[k].now
  {
    k := n - 1;
    assert Frees(run[k], steps[k], run[k+1], g);
    if Holders(run[k].cfg, run[k].pc, g) == {} { k := LastFreed(run, steps, g, n - 1); }
  }

  /** The quiet period counts from the last release: when a group changes hands, some step freed it, nobody
      has held it since, and the clock has moved on by the delay of the group. */
  lemma QuietSinceRelease(cfg: Config, run: seq<State>, steps: seq<Step>, m: nat, g: Group) returns (k: nat)
    requires IsRun(cfg, run, steps) && m < |steps| && g in run[m].resources && g in run[m+1].resources
    requires run[m].resources[g].activeProvider != NONE
             && run[m+1].resources[g].activeProvider != run[m].resources[g].activeProvider
    ensures k < m && Holders(cfg, run[k].pc, g) != {} && steps[k].Work? && steps[m].Work? && g in cfg.switchDelay
    ensures forall i :: k < i <= m ==> Holders(cfg, run[i].pc, g) == {}
    ensures cfg.switchDelay[g] > 0 ==> steps[m].now - steps[k].now >= cfg.switchDelay[g]
  {
    RunKeepsInv(cfg, run, steps, m);
    RunConfig(cfg, run, steps, m);
    assert Enabled(run[m], steps[m]) && run[m+1] == Next(run[m], steps[m]);
    SwitchOnlyWhenDrained(run[m], steps[m], g);
    forall i | 0 <= i < |run| ensures g in run[i].resources && run[i].cfg == cfg {
      RunKeepsInv(cfg, run, steps, i);
      RunConfig(cfg, run, steps, i);
    }
    forall i {:trigger steps[i]} | 0 <= i < |steps| ensures Frees(run[i], steps[i], run[i+1], g) {
      RunFrees(cfg, run, steps, g, i);
    }
    k := LastFreed(run, steps, g, m);
  }
}
