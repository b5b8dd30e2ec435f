/** Warm and Idle exclude each other, but an unload that was decided before a job came in may run
    after the Warm of that job and beside its synthesis. */
module QueueLateIdle {
  import opened QueueMachine
  import opened QueueInvariants
  import opened QueuePreservation
  import opened QueueTheorems
  import opened QueueIdle

  /** The state with worker w at a stage of its job and `v` for its provider. */
  function RunAt(s: State, w: WorkerId, id: JobId, stage: Stage, v: Prov): State
    requires At(s, w)
  {
    Put(Move(s, w, Busy(id, stage)), Of(s, w), v)
  }

  /** The next k critical sections of w, all successful, and then `rest`. */
  function Turned(w: WorkerId, now: Time, k: nat, rest: seq<Step>): seq<Step> {
    if k == 0 then rest else [Work(w, true, now)] + Turned(w, now, k - 1, rest)
  }

  lemma TurnIsNext(s: State, w: WorkerId, id: JobId, stage: Stage, v: Prov)
    requires At(s, w) && id in s.jobs && !stage.Finishing?
    ensures RunStep(RunAt(s, w, id, stage, v), w, id, stage, true, s.clock) ==
            RunAt(s, w, id, RunStage(v, stage, Of(s, w) in s.cfg.lifecycle, true), RunProv(v, stage))
  {
    var p := Of(s, w);
    var at := Busy(id, RunStage(v, stage, p in s.cfg.lifecycle, true));
    assert s.pc[w := Busy(id, stage)][w := at] == s.pc[w := at];
    assert s.prov[p := v][p := RunProv(v, stage)] == s.prov[p := RunProv(v, stage)];
  }

  lemma TurnLeads(s: State, w: WorkerId, id: JobId, stage: Stage, v: Prov, rest: seq<Step>, t: State)
    requires TypeOK(s) && At(s, w) && s.pc[w].Busy? && s.pc[w].job == id && v.queue == s.prov[Of(s, w)].queue
    requires !stage.Finishing? && (stage.WarmWait? ==> !v.locked)
    requires Leads(RunAt(s, w, id, RunStage(v, stage, Of(s, w) in s.cfg.lifecycle, true), RunProv(v, stage)), rest, t)
    ensures Leads(RunAt(s, w, id, stage, v), [Work(w, true, s.clock)] + rest, t)
  {
    MoveTypes(s, w, Busy(id, stage), v);
    TurnIsNext(s, w, id, stage, v);
    var u := RunAt(s, w, id, stage, v);
    assert CanWork(u, w);
    LeadsByStep(u, Work(w, true, s.clock), RunStep(u, w, id, stage, true, s.clock), rest, t);
  }

  lemma TwoTurns(s: State, w: WorkerId, id: JobId, stage: Stage, v: Prov, rest: seq<Step>, t: State)
    requires TypeOK(s) && At(s, w) && s.pc[w].Busy? && s.pc[w].job == id && v.queue == s.prov[Of(s, w)].queue
    requires !stage.Finishing? && !stage.Synthesizing? && (stage.WarmWait? ==> !v.locked)
    requires var lifecycle := Of(s, w) in s.cfg.lifecycle;
             var next, u := RunStage(v, stage, lifecycle, true), RunProv(v, stage);
             !next.WarmWait? && Leads(RunAt(s, w, id, RunStage(u, next, lifecycle, true), RunProv(u, next)), rest, t)
    ensures Leads(RunAt(s, w, id, stage, v), Turned(w, s.clock, 2, rest), t)
  {
    var next := RunStage(v, stage, Of(s, w) in s.cfg.lifecycle, true);
    TurnLeads(s, w, id, next, RunProv(v, stage), rest, t);
    TurnLeads(s, w, id, stage, v, [Work(w, true, s.clock)] + rest, t);
    assert Turned(w, s.clock, 1, rest) == [Work(w, true, s.clock)] + rest;
  }

  /** A job of a cold provider whose lifecycle mutex is free warms it. */
  lemma WarmsUp(s: State, w: WorkerId, id: JobId, v: Prov, rest: seq<Step>, t: State)
    requires TypeOK(s) && At(s, w) && s.pc[w].Busy? && s.pc[w].job == id && v.queue == s.prov[Of(s, w)].queue
    requires !v.warm && !v.locked
    requires Leads(RunAt(s, w, id, Synthesizing, v.(warm := true)), rest, t)
    ensures Leads(RunAt(s, w, id, WarmWait, v), Turned(w, s.clock, 2, Turned(w, s.clock, 2, rest)), t)
  {
    var held := v.(locked := true);
    assert RunProv(held, Warming) == v;
    TwoTurns(s, w, id, Warming, held, rest, t);
    TwoTurns(s, w, id, WarmWait, v, Turned(w, s.clock, 2, rest), t);
  }

  /** From the run gate to the synthesis. */
  function ToSynthesis(w: WorkerId, now: Time, warm: bool, rest: seq<Step>): seq<Step> {
    Turned(w, now, 2, if warm then rest else Turned(w, now, 2, Turned(w, now, 2, rest)))
  }

  lemma Synthesizes(s: State, w: WorkerId, id: JobId, rest: seq<Step>, t: State)
    requires TypeOK(s) && At(s, w) && s.pc[w] == Busy(id, Gate)
    requires Of(s, w) in s.cfg.lifecycle && !s.prov[Of(s, w)].locked
    requires Leads(RunAt(s, w, id, Synthesizing, s.prov[Of(s, w)].(warm := true)), rest, t)
    ensures Leads(s, ToSynthesis(w, s.clock, s.prov[Of(s, w)].warm, rest), t)
  {
    var v := s.prov[Of(s, w)];
    assert RunAt(s, w, id, Gate, v) == s by { assert s.pc[w := s.pc[w]] == s.pc && s.prov[Of(s, w) := v] == s.prov; }
    if v.warm {
      assert v.(warm := true) == v;
      TwoTurns(s, w, id, Gate, v, rest, t);
    } else {
      WarmsUp(s, w, id, v, rest, t);
      TwoTurns(s, w, id, Gate, v, Turned(w, s.clock, 2, Turned(w, s.clock, 2, rest)), t);
    }
  }

  lemma IdleBegins(s: State, w: WorkerId, id: JobId, v: Prov) returns (t: State)
    requires TypeOK(s) && At(s, w) && s.pc[w].Busy? && s.pc[w].job == id && v.queue == s.prov[Of(s, w)].queue
    requires v.unloading > 0 && !v.locked
    ensures Leads(RunAt(s, w, id, Synthesizing, v), [LockIdle(Of(s, w))], t)
    ensures w in t.pc && t.pc[w] == Busy(id, Synthesizing) && t.cfg == s.cfg && Of(s, w) in t.prov
            && t.prov[Of(s, w)].idling > 0
  {
    var r := RunAt(s, w, id, Synthesizing, v);
    MoveTypes(s, w, Busy(id, Synthesizing), v);
    t := Next(r, LockIdle(Of(s, w)));
    LeadsByStep(r, LockIdle(Of(s, w)), t, [], t);
    assert [LockIdle(Of(s, w))] + [] == [LockIdle(Of(s, w))];
  }

  /** Whenever a job begins while an unload is due and the lifecycle mutex is free, Idle can run
      beside its synthesis, after the Warm of the job if the provider was cold. */
  lemma UnloadMeetsJob(s: State, w: WorkerId, id: JobId) returns (t: State)
    requires TypeOK(s) && At(s, w) && s.pc[w] == Busy(id, Gate) && Of(s, w) in s.cfg.lifecycle
    requires s.prov[Of(s, w)].unloading > 0 && !s.prov[Of(s, w)].locked
    ensures Leads(s, ToSynthesis(w, s.clock, s.prov[Of(s, w)].warm, [LockIdle(Of(s, w))]), t)
    ensures w in t.pc && t.pc[w] == Busy(id, Synthesizing) && t.cfg == s.cfg && Of(s, w) in t.prov
            && t.prov[Of(s, w)].idling > 0
  {
    t := IdleBegins(s, w, id, s.prov[Of(s, w)].(warm := true));
    Synthesizes(s, w, id, [LockIdle(Of(s, w))], t);
  }

  // ---------- a run in which it happens ----------

  /** A checking worker has taken job `id`, the first of its idle provider. */
  function Took(s: State, w: WorkerId, id: JobId): State
    requires At(s, w)
  {
    var p := Of(s, w);
    var v := s.prov[p];
    var u := v.(timer := NoTimer, broadcasts := v.broadcasts + 1, active := v.active + 1,
                submitted := v.submitted + [id], dequeued := v.dequeued + [id]);
    Put(Move(s, w, Busy(id, Gate)), p, u).(jobs := s.jobs[id := Job(p, Running, false, 0, 0)], home := s.home[id := p])
  }

  lemma PopTakes(s: State, w: WorkerId, id: JobId)
    requires At(s, w) && s.prov[Of(s, w)].queue == []
    ensures PopStep(Move(SubmitStep(s, Of(s, w), id), w, Popping), w) == Took(s, w, id)
  {
    var p := Of(s, w);
    var queued := Enqueued(s.prov[p], id);
    assert queued.queue == [id] && queued.queue[1..] == [];
    assert s.prov[p := queued][p := Popped(queued)] == s.prov[p := Popped(queued)];
    assert s.pc[w := Popping][w := Busy(id, Gate)] == s.pc[w := Busy(id, Gate)];
    var j := Job(p, Queued, false, 0, 0);
    assert s.jobs[id := j][id := j.(status := Running)] == s.jobs[id := j.(status := Running)];
  }

  lemma MovesOn(s: State, w: WorkerId, at: Pc, next: Pc)
    requires TypeOK(s) && At(s, w) && !s.pc[w].Busy? && s.prov[Of(s, w)].queue != [] && Of(s, w) !in s.cfg.group
    requires (at.Checking? && next.Acquiring?) || (at.Acquiring? && next.Popping?)
    ensures TypeOK(Move(s, w, at)) && Enabled(Move(s, w, at), Work(w, true, s.clock))
    ensures Next(Move(s, w, at), Work(w, true, s.clock)) == Move(s, w, next)
  {
    assert s.pc[w := at][w := next] == s.pc[w := next];
  }

  lemma MoveLeads(s: State, w: WorkerId, at: Pc, next: Pc, rest: seq<Step>, t: State)
    requires TypeOK(s) && At(s, w) && !s.pc[w].Busy? && s.prov[Of(s, w)].queue != [] && Of(s, w) !in s.cfg.group
    requires (at.Checking? && next.Acquiring?) || (at.Acquiring? && next.Popping?)
    requires Leads(Move(s, w, next), rest, t)
    ensures Leads(Move(s, w, at), [Work(w, true, s.clock)] + rest, t)
  {
    MovesOn(s, w, at, next);
    LeadsByStep(Move(s, w, at), Work(w, true, s.clock), Move(s, w, next), rest, t);
  }

  lemma CheckLeads(s: State, w: WorkerId, rest: seq<Step>, t: State)
    requires TypeOK(s) && At(s, w) && s.pc[w].Checking? && s.prov[Of(s, w)].queue != [] && Of(s, w) !in s.cfg.group
    requires Leads(Move(s, w, Acquiring), rest, t)
    ensures Leads(s, [Work(w, true, s.clock)] + rest, t)
  {
    assert Move(s, w, Checking) == s by { assert s.pc[w := Checking] == s.pc; }
    MoveLeads(s, w, Checking, Acquiring, rest, t);
  }

  lemma PopLeads(s: State, w: WorkerId, rest: seq<Step>, t: State)
    requires TypeOK(s) && At(s, w) && !s.pc[w].Busy? && s.prov[Of(s, w)].queue != []
    requires Leads(PopStep(Move(s, w, Popping), w), rest, t)
    ensures Leads(Move(s, w, Popping), [Work(w, true, s.clock)] + rest, t)
  {
    LeadsByStep(Move(s, w, Popping), Work(w, true, s.clock), PopStep(Move(s, w, Popping), w), rest, t);
  }

  lemma AcquireTakes(s: State, w: WorkerId, rest: seq<Step>, t: State)
    requires TypeOK(s) && At(s, w) && !s.pc[w].Busy? && s.prov[Of(s, w)].queue != [] && Of(s, w) !in s.cfg.group
    requires Leads(PopStep(Move(s, w, Popping), w), rest, t)
    ensures Leads(Move(s, w, Acquiring), Turned(w, s.clock, 2, rest), t)
  {
    PopLeads(s, w, rest, t);
    MoveLeads(s, w, Acquiring, Popping, [Work(w, true, s.clock)] + rest, t);
    assert Turned(w, s.clock, 1, rest) == [Work(w, true, s.clock)] + rest;
  }

  lemma QueuedTakes(s: State, w: WorkerId, rest: seq<Step>, t: State)
    requires TypeOK(s) && At(s, w) && s.pc[w].Checking? && s.prov[Of(s, w)].queue != [] && Of(s, w) !in s.cfg.group
    requires Leads(PopStep(Move(s, w, Popping), w), rest, t)
    ensures Leads(s, Turned(w, s.clock, 3, rest), t)
  {
    AcquireTakes(s, w, rest, t);
    CheckLeads(s, w, Turned(w, s.clock, 2, rest), t);
  }

  lemma TakesJob(s: State, w: WorkerId, id: JobId, rest: seq<Step>, t: State)
    requires TypeOK(s) && At(s, w) && s.pc[w].Checking? && s.prov[Of(s, w)].queue == [] && Of(s, w) !in s.cfg.group
             && id !in s.home
    requires Leads(Took(s, w, id), rest, t)
    ensures Leads(s, [Submit(Of(s, w), id)] + Turned(w, s.clock, 3, rest), t)
  {
    var u := SubmitStep(s, Of(s, w), id);
    PopTakes(s, w, id);
    SubmitTypes(s, Of(s, w), id);
    QueuedTakes(u, w, rest, t);
    LeadsByStep(s, Submit(Of(s, w), id), u, Turned(w, s.clock, 3, rest), t);
  }

  /** The job has ended well, and the worker of the quiet provider is back. */
  function Ended(s: State, w: WorkerId, id: JobId, v: Prov): State
    requires At(s, w) && id in s.jobs
  {
    Put(Move(EndJob(s, id, true, s.clock), w, Checking), Of(s, w), v.(active := v.active - 1, timer := Armed))
  }

  lemma FinishEnds(s: State, w: WorkerId, id: JobId, v: Prov)
    requires At(s, w) && id in s.jobs && v.warm && v.active == 1 && v.queue == [] && v.timer.NoTimer?
    requires Of(s, w) in s.cfg.idleDelay && Of(s, w) !in s.cfg.group
    ensures var u := FinishStep(RunAt(s, w, id, Finishing(true), v), w, id, true, s.clock);
            At(u, w) && GroupKnown(u, Of(s, w)) && u.pc[w].Releasing? && u.clock == s.clock
                && ReleaseStep(u, w, s.clock) == Ended(s, w, id, v)
  {
    var p := Of(s, w);
    var at := Finished(v, true);
    assert s.pc[w := Busy(id, Finishing(true))][w := Releasing][w := Checking] == s.pc[w := Checking];
    assert s.prov[p := v][p := at] == s.prov[p := at];
  }

  lemma EndTypes(s: State, w: WorkerId, id: JobId, v: Prov)
    requires TypeOK(s) && At(s, w) && s.pc[w].Busy? && s.pc[w].job == id && v.queue == s.prov[Of(s, w)].queue
    ensures var r := RunAt(s, w, id, Finishing(true), v); TypeOK(r) && TypeOK(FinishStep(r, w, id, true, s.clock))
  {
    MoveTypes(s, w, Busy(id, Finishing(true)), v);
    FinishTypes(RunAt(s, w, id, Finishing(true), v), w, id, true, s.clock);
  }

  lemma ReleaseLeads(s: State, w: WorkerId, rest: seq<Step>, t: State)
    requires TypeOK(s) && At(s, w) && s.pc[w].Releasing? && Leads(ReleaseStep(s, w, s.clock), rest, t)
    ensures Leads(s, [Work(w, true, s.clock)] + rest, t)
  {
    LeadsByStep(s, Work(w, true, s.clock), ReleaseStep(s, w, s.clock), rest, t);
  }

  lemma EndLeads(s: State, w: WorkerId, id: JobId, rest: seq<Step>, t: State)
    requires TypeOK(s) && At(s, w) && s.pc[w] == Busy(id, Finishing(true))
             && Leads(FinishStep(s, w, id, true, s.clock), rest, t)
    ensures Leads(s, [Work(w, true, s.clock)] + rest, t)
  {
    LeadsByStep(s, Work(w, true, s.clock), FinishStep(s, w, id, true, s.clock), rest, t);
  }

  lemma FinishLeads(s: State, w: WorkerId, id: JobId, v: Prov, rest: seq<Step>, t: State)
    requires TypeOK(s) && At(s, w) && s.pc[w].Busy? && s.pc[w].job == id && v.queue == s.prov[Of(s, w)].queue
    requires v.warm && v.active == 1 && v.queue == [] && v.timer.NoTimer? && Of(s, w) in s.cfg.idleDelay
             && Of(s, w) !in s.cfg.group
    requires Leads(Ended(s, w, id, v), rest, t)
    ensures Leads(RunAt(s, w, id, Finishing(true), v), Turned(w, s.clock, 2, rest), t)
  {
    var r := RunAt(s, w, id, Finishing(true), v);
    FinishEnds(s, w, id, v);
    EndTypes(s, w, id, v);
    ReleaseLeads(FinishStep(r, w, id, true, s.clock), w, rest, t);
    EndLeads(r, w, id, [Work(w, true, s.clock)] + rest, t);
    assert Turned(w, s.clock, 1, rest) == [Work(w, true, s.clock)] + rest;
  }

  /** From the synthesis to the end of the job. */
  lemma EndsJob(s: State, w: WorkerId, id: JobId, v: Prov, rest: seq<Step>, t: State)
    requires TypeOK(s) && At(s, w) && s.pc[w].Busy? && s.pc[w].job == id && v.queue == s.prov[Of(s, w)].queue
    requires v.warm && v.active == 1 && v.queue == [] && v.timer.NoTimer? && Of(s, w) in s.cfg.idleDelay
             && Of(s, w) !in s.cfg.group
    requires Leads(Ended(s, w, id, v), rest, t)
    ensures Leads(RunAt(s, w, id, Synthesizing, v), Turned(w, s.clock, 3, rest), t)
  {
    FinishLeads(s, w, id, v, rest, t);
    TurnLeads(s, w, id, Synthesizing, v, Turned(w, s.clock, 2, rest), t);
  }

  /** A run goes on along a sequence of steps. */
  lemma {:induction false} Extend(cfg: Config, run0: seq<State>, steps0: seq<Step>, more: seq<Step>, t: State)
    returns (run: seq<State>, steps: seq<Step>)
    requires IsRun(cfg, run0, steps0) && Leads(run0[|run0|-1], more, t)
    ensures IsRun(cfg, run, steps) && run[|run|-1] == t && steps == steps0 + more
    decreases |more|
  {
    run, steps := run0, steps0;
    if more == [] {
      assert steps0 + more == steps0;
    } else {
      var s, a := run0[|run0|-1], more[0];
      Grow(cfg, run0, steps0, a, Next(s, a));
      run, steps := Extend(cfg, run0 + [Next(s, a)], steps0 + [a], more[1..], t);
      assert steps0 + [a] + more[1..] == steps0 + more;
    }
  }

  lemma Grow(cfg: Config, run: seq<State>, steps: seq<Step>, a: Step, t: State)
    requires IsRun(cfg, run, steps) && TypeOK(run[|run|-1]) && Enabled(run[|run|-1], a) && t == Next(run[|run|-1], a)
    ensures IsRun(cfg, run + [t], steps + [a])
  {
    var r, p := run + [t], steps + [a];
    forall i | 0 <= i < |p| && TypeOK(r[i]) ensures Enabled(r[i], p[i]) && r[i+1] == Next(r[i], p[i]) {
      if i < |steps| { assert p[i] == steps[i] && r[i] == run[i] && r[i+1] == run[i+1]; }
    }
  }

  // ---------- the whole run ----------

  /** One job of a cold, quiet provider, from its submission to the end. */
  function JobSteps(p: ProviderId, w: WorkerId, id: JobId, now: Time, rest: seq<Step>): seq<Step> {
    [Submit(p, id)] + Turned(w, now, 3, ToSynthesis(w, now, false, Turned(w, now, 3, rest)))
  }

  /** The state after it. */
  function Served(s: State, w: WorkerId, id: JobId): State
    requires At(s, w)
  {
    var t := Took(s, w, id);
    Ended(t, w, id, t.prov[Of(s, w)].(warm := true))
  }

  lemma ServesJob(s: State, w: WorkerId, id: JobId, rest: seq<Step>, t: State)
    requires TypeOK(s) && At(s, w) && s.pc[w].Checking? && id !in s.home
    requires Of(s, w) in s.cfg.lifecycle && Of(s, w) in s.cfg.idleDelay && Of(s, w) !in s.cfg.group
    requires Quiet(s.prov[Of(s, w)]) && !s.prov[Of(s, w)].warm && !s.prov[Of(s, w)].locked
    requires Leads(Served(s, w, id), rest, t)
    ensures Leads(s, JobSteps(Of(s, w), w, id, s.clock, rest), t)
  {
    var u := Took(s, w, id);
    TookTypes(s, w, id);
    EndsJob(u, w, id, u.prov[Of(s, w)].(warm := true), rest, t);
    Synthesizes(u, w, id, Turned(w, s.clock, 3, rest), t);
    TakesJob(s, w, id, ToSynthesis(w, s.clock, false, Turned(w, s.clock, 3, rest)), t);
  }

  lemma TookTypes(s: State, w: WorkerId, id: JobId)
    requires TypeOK(s) && At(s, w) && s.prov[Of(s, w)].queue == []
    ensures TypeOK(Took(s, w, id))
  {
    var u := Took(s, w, id);
    forall q, j | q in u.prov && j in u.prov[q].queue ensures j in u.jobs { assert j in s.prov[q].queue; }
  }

  lemma ServedTypes(s: State, w: WorkerId, id: JobId)
    requires TypeOK(s) && At(s, w) && s.prov[Of(s, w)].queue == []
    ensures TypeOK(Served(s, w, id)) && At(Served(s, w, id), w) && Served(s, w, id).pc[w].Checking?
  {
    var u := Served(s, w, id);
    forall q, j | q in u.prov && j in u.prov[q].queue ensures j in u.jobs { assert j in s.prov[q].queue; }
  }

  /** What the handler leaves after the first job: a cold provider and an unload that is due. */
  function Left(s: State, w: WorkerId): Prov
    requires At(s, w)
  {
    Fired(Handled(s.prov[Of(s, w)], Expire(Of(s, w)), true), true)
  }

  lemma HandlerLeads(s: State, w: WorkerId, rest: seq<Step>, t: State)
    requires TypeOK(s) && At(s, w) && s.prov[Of(s, w)].timer.Armed? && Of(s, w) in s.cfg.lifecycle
    requires Leads(Put(s, Of(s, w), Left(s, w)), rest, t)
    ensures Leads(s, [Expire(Of(s, w))] + ([FireIdle(Of(s, w))] + rest), t)
  {
    var p, v := Of(s, w), s.prov[Of(s, w)];
    assert Put(s, p, v) == s by { assert s.prov[p := v] == s.prov; }
    LeadsByPut(s, p, Handled(v, Expire(p), true), FireIdle(p), rest, t);
    LeadsByPut(s, p, v, Expire(p), [FireIdle(p)] + rest, t);
  }

  /** A job, the unload decided after it, a second job up to its synthesis, and Idle. */
  function LateSteps(p: ProviderId, w: WorkerId, now: Time): seq<Step> {
    var second := [Submit(p, 1)] + Turned(w, now, 3, ToSynthesis(w, now, false, [LockIdle(p)]));
    JobSteps(p, w, 0, now, [Expire(p)] + ([FireIdle(p)] + second))
  }

  /** The second job, with the unload due. */
  lemma SecondMeets(s: State, w: WorkerId) returns (t: State)
    requires TypeOK(s) && At(s, w) && s.pc[w].Checking? && 1 !in s.home
    requires Of(s, w) in s.cfg.lifecycle && Of(s, w) !in s.cfg.group
    requires var v := s.prov[Of(s, w)]; v.queue == [] && !v.warm && !v.locked && v.unloading > 0
    ensures var p := Of(s, w);
            Leads(s, [Submit(p, 1)] + Turned(w, s.clock, 3, ToSynthesis(w, s.clock, false, [LockIdle(p)])), t)
    ensures w in t.pc && t.pc[w] == Busy(1, Synthesizing) && Of(s, w) in t.prov && t.prov[Of(s, w)].idling > 0
  {
    TookTypes(s, w, 1);
    t := UnloadMeetsJob(Took(s, w, 1), w, 1);
    TakesJob(s, w, 1, ToSynthesis(w, s.clock, false, [LockIdle(Of(s, w))]), t);
  }

  lemma LateLeads(cfg: Config, s: State, w: WorkerId) returns (t: State)
    requires TypeOK(s) && IsInit(cfg, s) && w in cfg.workers
    requires cfg.workers[w] in cfg.lifecycle && cfg.workers[w] in cfg.idleDelay && cfg.workers[w] !in cfg.group
    ensures Leads(s, LateSteps(cfg.workers[w], w, 1), t)
    ensures w in t.pc && t.pc[w] == Busy(1, Synthesizing) && cfg.workers[w] in t.prov
            && t.prov[cfg.workers[w]].idling > 0
  {
    var p := cfg.workers[w];
    ServedTypes(s, w, 0);
    var u := Served(s, w, 0);
    PutTypes(u, p, Left(u, w));
    t := SecondMeets(Put(u, p, Left(u, w)), w);
    var second := [Submit(p, 1)] + Turned(w, 1, 3, ToSynthesis(w, 1, false, [LockIdle(p)]));
    HandlerLeads(u, w, second, t);
    ServesJob(s, w, 0, [Expire(p)] + ([FireIdle(p)] + second), t);
  }

  /** In every configuration with a lifecycle provider that has an idle delay and shares no group,
      there is a run in which Idle is inside while a worker synthesizes, after a newer Warm. */
  lemma LateUnload(cfg: Config, s: State, w: WorkerId) returns (run: seq<State>, steps: seq<Step>)
    requires cfg.Valid() && IsInit(cfg, s) && w in cfg.workers
    requires cfg.workers[w] in cfg.lifecycle && cfg.workers[w] in cfg.idleDelay && cfg.workers[w] !in cfg.group
    ensures IsRun(cfg, run, steps) && steps == LateSteps(cfg.workers[w], w, 1)
    ensures var t, p := run[|run|-1], cfg.workers[w];
            w in t.pc && t.pc[w] == Busy(1, Synthesizing) && p in t.prov && t.prov[p].idling > 0
  {
    InitInv(cfg, s);
    var t := LateLeads(cfg, s, w);
    run, steps := Extend(cfg, [s], [], LateSteps(cfg.workers[w], w, 1), t);
  }
}
