/** When can an unload run beside the synthesis of a job? Exactly if, as the job begins, an unload is
    due, or Idle is inside already while the provider is warm or about to be marked so. */
module QueueIdleMeets {
  import opened QueueMachine
  import opened QueueInvariants
  import opened QueuePreservation
  import opened QueueTheorems
  import opened QueueIdle
  import opened QueueLateIdle

  /** Worker w synthesizes job `id` while Idle is inside. */
  ghost predicate Beside(t: State, w: WorkerId, id: JobId) {
    At(t, w) && t.pc[w] == Busy(id, Synthesizing) && t.prov[Of(t, w)].idling > 0
  }

  ghost predicate CanMeet(s: State, w: WorkerId, id: JobId) {
    exists steps, t :: Leads(s, steps, t) && Beside(t, w, id)
  }

  /** Warm has returned to a worker of p that has not set the flag yet. */
  ghost predicate Waking(s: State, p: ProviderId) {
    exists x :: x in s.pc && WorksFor(s.cfg, x, p) && s.pc[x].Is(MarkWarm)
  }

  ghost predicate Threatened(s: State, p: ProviderId)
    requires p in s.prov
  {
    s.prov[p].unloading > 0 || (s.prov[p].idling > 0 && (s.prov[p].warm || Waking(s, p)))
  }

  // ---------- how it comes about ----------

  lemma MeetsLater(s: State, a: Step, m: State, w: WorkerId, id: JobId)
    requires TypeOK(s) && Enabled(s, a) && m == Next(s, a) && CanMeet(m, w, id)
    ensures CanMeet(s, w, id)
  {
    var steps, t :| Leads(m, steps, t) && Beside(t, w, id);
    LeadsByStep(s, a, m, steps, t);
  }

  lemma FreeMeets(s: State, w: WorkerId, id: JobId)
    requires TypeOK(s) && At(s, w) && s.pc[w] == Busy(id, Gate) && Of(s, w) in s.cfg.lifecycle
    requires s.prov[Of(s, w)].unloading > 0 && !s.prov[Of(s, w)].locked
    ensures CanMeet(s, w, id)
  {
    var t := UnloadMeetsJob(s, w, id);
    assert Beside(t, w, id);
  }

  /** Idle is inside, and the provider is warm: the job goes straight to its synthesis. */
  lemma WarmMeets(s: State, w: WorkerId, id: JobId)
    requires TypeOK(s) && At(s, w) && s.pc[w] == Busy(id, Gate)
    requires s.prov[Of(s, w)].idling > 0 && s.prov[Of(s, w)].warm
    ensures CanMeet(s, w, id)
  {
    var v := s.prov[Of(s, w)];
    var t := RunAt(s, w, id, Synthesizing, v);
    assert RunAt(s, w, id, Gate, v) == s by { assert s.pc[w := s.pc[w]] == s.pc && s.prov[Of(s, w) := v] == s.prov; }
    TwoTurns(s, w, id, Gate, v, [], t);
    assert Beside(t, w, id);
  }

  /** The turn of another worker of the same provider. */
  lemma TurnOf(s: State, x: WorkerId, w: WorkerId)
    requires TypeOK(s) && At(s, x) && At(s, w) && x != w && Of(s, x) == Of(s, w)
    requires s.pc[x].Busy? && !s.pc[x].stage.Finishing? && !s.pc[x].stage.WarmWait?
    ensures var p, stage, v := Of(s, x), s.pc[x].stage, s.prov[Of(s, x)];
            var m := RunStep(s, x, s.pc[x].job, stage, true, s.clock);
            && Enabled(s, Work(x, true, s.clock)) && m == Next(s, Work(x, true, s.clock)) && TypeOK(m)
            && At(m, w) && Of(m, w) == p && m.cfg == s.cfg && m.pc[w] == s.pc[w] && At(m, x)
            && m.pc[x] == Busy(s.pc[x].job, RunStage(v, stage, p in s.cfg.lifecycle, true))
               && m.prov[p] == RunProv(v, stage)
  {
    var p, v := Of(s, x), s.prov[Of(s, x)];
    MoveTypes(s, x, Busy(s.pc[x].job, RunStage(v, s.pc[x].stage, p in s.cfg.lifecycle, true)),
              RunProv(v, s.pc[x].stage));
  }

  lemma WakingMeets(s: State, w: WorkerId, id: JobId)
    requires TypeOK(s) && At(s, w) && s.pc[w] == Busy(id, Gate)
    requires s.prov[Of(s, w)].idling > 0 && Waking(s, Of(s, w))
    ensures CanMeet(s, w, id)
  {
    var x :| x in s.pc && WorksFor(s.cfg, x, Of(s, w)) && s.pc[x].Is(MarkWarm);
    TurnOf(s, x, w);
    var m := Next(s, Work(x, true, s.clock));
    WarmMeets(m, w, id);
    MeetsLater(s, Work(x, true, s.clock), m, w, id);
  }

  lemma WarmingMeets(s: State, x: WorkerId, w: WorkerId, id: JobId)
    requires TypeOK(s) && At(s, w) && s.pc[w] == Busy(id, Gate) && Of(s, w) in s.cfg.lifecycle
    requires At(s, x) && Of(s, x) == Of(s, w) && s.pc[x].Is(Warming) && s.prov[Of(s, w)].unloading > 0
    ensures CanMeet(s, w, id)
  {
    TurnOf(s, x, w);
    var m := Next(s, Work(x, true, s.clock));
    FreeMeets(m, w, id);
    MeetsLater(s, Work(x, true, s.clock), m, w, id);
  }

  lemma RecheckMeets(s: State, x: WorkerId, w: WorkerId, id: JobId)
    requires TypeOK(s) && At(s, w) && s.pc[w] == Busy(id, Gate) && Of(s, w) in s.cfg.lifecycle
    requires At(s, x) && Of(s, x) == Of(s, w) && s.pc[x].Is(WarmRecheck) && s.prov[Of(s, w)].unloading > 0
    ensures CanMeet(s, w, id)
  {
    TurnOf(s, x, w);
    var m := Next(s, Work(x, true, s.clock));
    if s.prov[Of(s, w)].warm { FreeMeets(m, w, id); } else { WarmingMeets(m, x, w, id); }
    MeetsLater(s, Work(x, true, s.clock), m, w, id);
  }

  /** Whoever holds the lifecycle mutex gives it back first. */
  lemma LockedMeets(s: State, w: WorkerId, id: JobId)
    requires Inv(s) && At(s, w) && s.pc[w] == Busy(id, Gate) && Of(s, w) in s.cfg.lifecycle
    requires s.prov[Of(s, w)].unloading > 0 && s.prov[Of(s, w)].locked
    ensures CanMeet(s, w, id)
  {
    var p := Of(s, w);
    assert ProvOK(s.cfg, s.pc, p, s.prov[p]);
    if s.prov[p].idling > 0 {
      var m := Next(s, IdleDone(p));
      PutTypes(s, p, m.prov[p]);
      FreeMeets(m, w, id);
      MeetsLater(s, IdleDone(p), m, w, id);
    } else {
      var x :| x in Lockers(s.cfg, s.pc, p);
      if s.pc[x].Is(Warming) { WarmingMeets(s, x, w, id); } else { RecheckMeets(s, x, w, id); }
    }
  }

  lemma ThreatMeets(s: State, w: WorkerId, id: JobId)
    requires Inv(s) && At(s, w) && s.pc[w] == Busy(id, Gate) && Of(s, w) in s.cfg.lifecycle && Threatened(s, Of(s, w))
    ensures CanMeet(s, w, id)
  {
    var v := s.prov[Of(s, w)];
    if v.unloading > 0 {
      if v.locked { LockedMeets(s, w, id); } else { FreeMeets(s, w, id); }
    } else if v.warm {
      WarmMeets(s, w, id);
    } else {
      WakingMeets(s, w, id);
    }
  }

  // ---------- why it cannot come about otherwise ----------

  /** The job is over, or still runs and its provider is not threatened. */
  ghost predicate Spared(s: State, w: WorkerId, id: JobId) {
    && At(s, w) && Of(s, w) in s.cfg.lifecycle
    && (id in s.closed || (s.pc[w].Busy? && s.pc[w].job == id && !Threatened(s, Of(s, w))))
  }

  lemma SparedIsNotBeside(s: State, w: WorkerId, id: JobId)
    requires Inv(s) && Spared(s, w, id)
    ensures !Beside(s, w, id)
  {
    if s.pc[w] == Busy(id, Synthesizing) {
      assert WorkerOK(s.pc[w], s.prov[Of(s, w)], true);
      assert id in s.jobs ==> StatusOK(id, s.jobs[id], s.prov, s.closed, s.home);
    }
  }

  /** The threat depends on four things. */
  lemma StillSafe(s: State, t: State, p: ProviderId)
    requires t.cfg == s.cfg && p in s.prov && p in t.prov && !Threatened(s, p)
    requires t.prov[p].unloading == 0 && t.prov[p].idling <= s.prov[p].idling
    requires t.prov[p].idling > 0 ==> (t.prov[p].warm ==> s.prov[p].warm)
    requires t.prov[p].idling > 0 ==> forall x :: x in t.pc && WorksFor(t.cfg, x, p) && t.pc[x].Is(MarkWarm) ==>
               x in s.pc && s.pc[x].Is(MarkWarm)
    ensures !Threatened(t, p)
  {}

  /** While Idle is inside, no worker of p is inside Warm. */
  lemma NobodyWarms(s: State, p: ProviderId, x: WorkerId)
    requires Inv(s) && p in s.prov && s.prov[p].idling > 0 && x in s.pc && WorksFor(s.cfg, x, p)
    ensures !s.pc[x].LocksLifecycle()
  {
    assert ProvOK(s.cfg, s.pc, p, s.prov[p]);
    assert x !in Lockers(s.cfg, s.pc, p);
  }

  /** What a section of `run` does to what matters here. */
  lemma RunFields(s: State, x: WorkerId, id: JobId, stage: Stage, ok: bool, now: Time, p: ProviderId)
    requires At(s, x) && id in s.jobs && p in s.prov
    ensures var t := RunStep(s, x, id, stage, ok, now);
            && p in t.prov && t.prov[p].unloading == s.prov[p].unloading && t.prov[p].idling == s.prov[p].idling
            && (t.prov[p].warm ==> s.prov[p].warm || (stage.MarkWarm? && Of(s, x) == p))
            && t.pc.Keys == s.pc.Keys && (forall y :: y in s.pc && y != x ==> t.pc[y] == s.pc[y])
            && (t.pc[x].Is(MarkWarm) ==> stage.Warming?)
  {}

  lemma RunIsSafe(s: State, x: WorkerId, ok: bool, now: Time, p: ProviderId)
    requires Inv(s) && CanWork(s, x) && s.pc[x].Busy? && p in s.prov && !Threatened(s, p)
    ensures var t := RunStep(s, x, s.pc[x].job, s.pc[x].stage, ok, now); p in t.prov && !Threatened(t, p)
  {
    var id, stage := s.pc[x].job, s.pc[x].stage;
    var t := RunStep(s, x, id, stage, ok, now);
    RunFields(s, x, id, stage, ok, now, p);
    RunGoesOn(s, x, id, stage, ok, now);
    if s.prov[p].idling > 0 && Of(s, x) == p {
      NobodyWarms(s, p, x);
      assert stage.MarkWarm? ==> Waking(s, p);
    }
    StillSafe(s, t, p);
  }

  lemma AcquireFields(s: State, x: WorkerId, now: Time, p: ProviderId)
    requires At(s, x) && GroupKnown(s, Of(s, x)) && p in s.prov && s.pc[x].Acquiring?
    ensures var t := AcquireStep(s, x, now);
            && p in t.prov && t.prov[p].unloading == s.prov[p].unloading && t.prov[p].idling == s.prov[p].idling
            && (t.prov[p].warm ==> s.prov[p].warm)
            && t.pc.Keys == s.pc.Keys && forall y :: y in s.pc ==> t.pc[y] == s.pc[y] || t.pc[y].Popping?
  {}

  lemma AcquireIsSafe(s: State, x: WorkerId, now: Time, p: ProviderId)
    requires Inv(s) && CanWork(s, x) && s.pc[x].Acquiring? && s.clock <= now && p in s.prov && !Threatened(s, p)
    ensures var t := AcquireStep(s, x, now); p in t.prov && !Threatened(t, p)
  {
    var t := AcquireStep(s, x, now);
    AcquireFields(s, x, now, p);
    AcquireIsIdle(s, x, now);
    StillSafe(s, t, p);
  }

  lemma MoveIsSafe(s: State, x: WorkerId, ok: bool, now: Time, p: ProviderId)
    requires TypeOK(s) && CanWork(s, x) && (s.pc[x].Checking? || s.pc[x].Parked? || s.pc[x].Releasing?)
    requires s.clock <= now && p in s.prov && !Threatened(s, p)
    ensures var t := WorkStep(s, x, ok, now); p in t.prov && !Threatened(t, p)
  {
    var t := WorkStep(s, x, ok, now);
    WorkGoesOn(s, x, ok, now);
    assert t.prov == s.prov && forall y :: y in t.pc && t.pc[y].Is(MarkWarm) ==> y in s.pc && s.pc[y].Is(MarkWarm);
    StillSafe(s, t, p);
  }

  lemma PopIsSafe(s: State, x: WorkerId, p: ProviderId)
    requires TypeOK(s) && At(s, x) && s.pc[x].Popping? && p in s.prov && !Threatened(s, p)
    ensures var t := PopStep(s, x); p in t.prov && !Threatened(t, p)
  {
    var t := PopStep(s, x);
    assert t.cfg == s.cfg && p in t.prov && t.prov[p].unloading == s.prov[p].unloading
           && t.prov[p].idling == s.prov[p].idling && t.prov[p].warm == s.prov[p].warm;
    assert forall y :: y in t.pc && t.pc[y].Is(MarkWarm) ==> y in s.pc && s.pc[y].Is(MarkWarm);
    StillSafe(s, t, p);
  }

  lemma WorkIsSafe(s: State, x: WorkerId, ok: bool, now: Time, p: ProviderId)
    requires Inv(s) && CanWork(s, x) && s.clock <= now && p in s.prov && !Threatened(s, p)
    ensures var t := WorkStep(s, x, ok, now); p in t.prov && !Threatened(t, p)
  {
    match s.pc[x]
    case Acquiring => AcquireIsSafe(s, x, now, p);
    case Busy(_, _) => RunIsSafe(s, x, ok, now, p);
    case Popping => PopIsSafe(s, x, p);
    case _ => MoveIsSafe(s, x, ok, now, p);
  }

  /** While p has a job between dequeue and finish, no step threatens it anew. */
  lemma StepIsSafe(s: State, a: Step, p: ProviderId)
    requires Inv(s) && Enabled(s, a) && p in s.prov && s.prov[p].active > 0 && !Threatened(s, p)
    ensures p in Next(s, a).prov && !Threatened(Next(s, a), p)
  {
    if a.Work? {
      WorkIsSafe(s, a.w, a.ok, a.now, p);
    } else {
      StepGoesOn(s, a);
      OthersAreSafe(s, a, p);
    }
  }

  lemma OthersMoveNobody(s: State, a: Step)
    requires TypeOK(s) && Enabled(s, a) && !a.Work?
    ensures forall y :: y in Next(s, a).pc ==> y in s.pc && (Next(s, a).pc[y] == s.pc[y] || Next(s, a).pc[y].Checking?)
  {}

  lemma OtherFields(s: State, a: Step, p: ProviderId)
    requires TypeOK(s) && Enabled(s, a) && !a.Work? && p in s.prov && s.prov[p].active > 0 && s.prov[p].unloading == 0
    ensures p in Next(s, a).prov
    ensures var v, u := Next(s, a).prov[p], s.prov[p];
            v.unloading == 0 && v.idling <= u.idling && (v.warm ==> u.warm)
  {}

  lemma OthersAreSafe(s: State, a: Step, p: ProviderId)
    requires TypeOK(s) && Enabled(s, a) && !a.Work? && p in s.prov && s.prov[p].active > 0 && !Threatened(s, p)
    requires Next(s, a).cfg == s.cfg
    ensures p in Next(s, a).prov && !Threatened(Next(s, a), p)
  {
    OtherFields(s, a, p);
    OthersMoveNobody(s, a);
    StillSafe(s, Next(s, a), p);
  }

  lemma SparedStays(s: State, a: Step, w: WorkerId, id: JobId)
    requires Inv(s) && Enabled(s, a) && Spared(s, w, id)
    ensures Inv(Next(s, a)) && Spared(Next(s, a), w, id)
  {
    NextKeeps(s, a);
    StepGoesOn(s, a);
    if id !in s.closed {
      StaysBusy(s, a, w);
      assert ProvOK(s.cfg, s.pc, Of(s, w), s.prov[Of(s, w)]);
      assert w in BusyFor(s.cfg, s.pc, Of(s, w));
      StepIsSafe(s, a, Of(s, w));
    }
  }

  lemma {:induction false} SparedNeverMeets(s: State, steps: seq<Step>, t: State, w: WorkerId, id: JobId)
    requires Inv(s) && Spared(s, w, id) && Leads(s, steps, t)
    ensures !Beside(t, w, id)
    decreases |steps|
  {
    if steps == [] {
      SparedIsNotBeside(s, w, id);
    } else {
      SparedStays(s, steps[0], w, id);
      SparedNeverMeets(Next(s, steps[0]), steps[1..], t, w, id);
    }
  }

  /** From the state in which worker w has just dequeued job `id` of a lifecycle provider, some steps
      lead to a synthesis of that job with Idle inside, if and only if the provider is threatened. */
  lemma IdleMeetsJob(s: State, w: WorkerId, id: JobId)
    requires Inv(s) && At(s, w) && s.pc[w] == Busy(id, Gate) && Of(s, w) in s.cfg.lifecycle
    ensures CanMeet(s, w, id) <==> Threatened(s, Of(s, w))
  {
    if Threatened(s, Of(s, w)) {
      ThreatMeets(s, w, id);
    } else {
      forall steps, t | Leads(s, steps, t) ensures !Beside(t, w, id) { SparedNeverMeets(s, steps, t, w, id); }
    }
  }
}
