/** No reachable state is stuck: whatever is queued can be dequeued next, by steps of workers, handlers
    and broadcasts alone. */
module QueueProgress {
  import opened QueueMachine
  import opened QueueInvariants
  import opened QueuePreservation
  import opened QueueTheorems
  import opened QueueIdle

  /** A worker has just dequeued job `id`. */
  ghost predicate Dequeued(t: State, id: JobId) {
    exists w :: w in t.pc && t.pc[w] == Busy(id, Gate)
  }

  /** No new submission is needed. */
  ghost predicate NoSubmit(steps: seq<Step>) { forall i :: 0 <= i < |steps| ==> !steps[i].Submit? }

  ghost predicate CanServe(s: State, id: JobId) {
    exists steps, t :: Leads(s, steps, t) && NoSubmit(steps) && Dequeued(t, id)
  }

  lemma ServesNow(s: State, id: JobId)
    requires Dequeued(s, id)
    ensures CanServe(s, id)
  {
    assert Leads(s, [], s) && NoSubmit([]);
  }

  lemma ServesLater(s: State, a: Step, t: State, id: JobId)
    requires TypeOK(s) && Enabled(s, a) && !a.Submit? && t == Next(s, a) && CanServe(t, id)
    ensures CanServe(s, id)
  {
    var steps, u :| Leads(t, steps, u) && NoSubmit(steps) && Dequeued(u, id);
    LeadsByStep(s, a, t, steps, u);
    assert NoSubmit([a] + steps);
  }

  /** How far a busy worker is from the end of its job. */
  function StageRank(stage: Stage): nat {
    match stage
    case Gate => 8
    case WarmCheck => 7
    case WarmWait => 6
    case WarmRecheck => 5
    case Warming => 4
    case MarkWarm => 3
    case Synthesizing => 2
    case Finishing(_) => 1
  }

  /** How far a worker is from its next dequeue. */
  function Rank(pc: Pc): nat {
    match pc
    case Busy(_, stage) => 5 + StageRank(stage)
    case Releasing => 5
    case Parked => 4
    case Checking => 3
    case Acquiring => 2
    case Popping => 1
  }

  /** How far the lifecycle mutex of p is from being free. */
  ghost function LockRank(s: State, p: ProviderId): nat
    requires p in s.prov
  {
    if !s.prov[p].locked then 0
    else if exists x :: x in Lockers(s.cfg, s.pc, p) && s.pc[x].Is(WarmRecheck) then 2 else 1
  }

  // ---------- one worker ----------

  lemma RunRank(s: State, w: WorkerId, id: JobId, stage: Stage, now: Time)
    requires At(s, w) && id in s.jobs && s.pc[w] == Busy(id, stage)
    ensures var t := RunStep(s, w, id, stage, true, now);
            && t.pc == s.pc[w := t.pc[w]] && Rank(t.pc[w]) < Rank(s.pc[w]) && t.prov.Keys == s.prov.Keys
            && (forall x :: x in s.prov ==> t.prov[x].queue == s.prov[x].queue)
  {}

  /** The next section of a worker that is neither about to wait nor to acquire or pop. */
  lemma TurnRank(s: State, w: WorkerId)
    requires TypeOK(s) && CanWork(s, w) && (s.pc[w].Busy? || s.pc[w].Releasing?)
    ensures var t := Next(s, Work(w, true, s.clock));
            && t.pc == s.pc[w := t.pc[w]] && Rank(t.pc[w]) < Rank(s.pc[w]) && t.prov.Keys == s.prov.Keys
            && (forall x :: x in s.prov ==> t.prov[x].queue == s.prov[x].queue)
  {
    match s.pc[w]
    case Busy(id, stage) => RunRank(s, w, id, stage, s.clock);
    case _ => ReleaseMoves(s, w);
  }

  lemma ReleaseMoves(s: State, w: WorkerId)
    requires TypeOK(s) && CanWork(s, w) && s.pc[w].Releasing?
    ensures var t := ReleaseStep(s, w, s.clock); t.pc == s.pc[w := Checking] && t.prov == s.prov
  {
    ReleaseIsIdle(s, w, s.clock);
    ReleaseTypes(s, w, s.clock);
  }

  lemma PopRank(s: State, w: WorkerId)
    requires TypeOK(s) && At(s, w) && s.pc[w].Popping?
    ensures var t, p := PopStep(s, w), Of(s, w);
            && t.pc == s.pc[w := t.pc[w]] && t.prov.Keys == s.prov.Keys
            && (forall x :: x in s.prov && x != p ==> t.prov[x].queue == s.prov[x].queue)
            && (if s.prov[p].queue == [] then t.pc[w].Releasing? && t.prov[p].queue == []
                else t.pc[w] == Busy(s.prov[p].queue[0], Gate) && t.prov[p].queue == s.prov[p].queue[1..])
  {}

  /** A step that neither submits nor acquires nor dequeues. */
  ghost predicate Mild(s: State, a: Step)
    requires TypeOK(s)
  {
    && Enabled(s, a) && !a.Submit? && (a.Work? ==> !s.pc[a.w].Acquiring?)
    && Next(s, a).prov.Keys == s.prov.Keys && forall x :: x in s.prov ==> Next(s, a).prov[x].queue == s.prov[x].queue
  }

  /** Only whoever has locked a lifecycle mutex has moved, and nobody has left a group. */
  ghost predicate LockersMoved(s: State, t: State) {
    && t.pc.Keys == s.pc.Keys
    && (forall x :: x in s.pc ==> t.pc[x].Holds() == s.pc[x].Holds())
    && (forall x :: x in s.pc ==> t.pc[x] == s.pc[x] || s.pc[x].LocksLifecycle())
  }

  /** A locked lifecycle mutex has somebody to give it back. */
  lemma Unlocks(s: State, p: ProviderId) returns (a: Step)
    requires Inv(s) && p in s.prov && s.prov[p].locked
    ensures Mild(s, a) && p in Next(s, a).prov && LockRank(Next(s, a), p) < LockRank(s, p)
            && LockersMoved(s, Next(s, a))
  {
    assert ProvOK(s.cfg, s.pc, p, s.prov[p]);
    if s.prov[p].idling > 0 {
      a := IdleDone(p);
      IdleUnlocks(s, p);
    } else {
      var x :| x in Lockers(s.cfg, s.pc, p);
      a := Work(x, true, s.clock);
      LockerTurn(s, x, p);
    }
  }

  lemma IdleUnlocks(s: State, p: ProviderId)
    requires TypeOK(s) && p in s.prov && s.prov[p].locked && s.prov[p].idling > 0
    ensures var t := Next(s, IdleDone(p));
            Mild(s, IdleDone(p)) && p in t.prov && LockRank(t, p) < LockRank(s, p) && LockersMoved(s, t)
  {}

  lemma LockerTurn(s: State, x: WorkerId, p: ProviderId)
    requires Inv(s) && p in s.prov && s.prov[p].locked && x in Lockers(s.cfg, s.pc, p)
    ensures var a := Work(x, true, s.clock);
            Mild(s, a) && p in Next(s, a).prov && LockRank(Next(s, a), p) < LockRank(s, p)
                && LockersMoved(s, Next(s, a))
  {
    LockerGoesOn(s, x, p);
    if s.pc[x].Is(WarmRecheck) && !s.prov[p].warm {
      var a := Work(x, true, s.clock);
      NextKeeps(s, a);
      StepGoesOn(s, a);
      WarmingIsAlone(Next(s, a), x, p);
    }
  }

  lemma LockerGoesOn(s: State, x: WorkerId, p: ProviderId)
    requires TypeOK(s) && p in s.prov && x in Lockers(s.cfg, s.pc, p)
    ensures var a := Work(x, true, s.clock);
            && Mild(s, a) && LockersMoved(s, Next(s, a)) && p in Next(s, a).prov
            && (if s.pc[x].Is(WarmRecheck) && !s.prov[p].warm then Next(s, a).pc[x].Is(Warming)
                else !Next(s, a).prov[p].locked)
  {}

  lemma WarmingIsAlone(s: State, x: WorkerId, p: ProviderId)
    requires Inv(s) && p in s.prov && x in s.pc && WorksFor(s.cfg, x, p) && s.pc[x].Is(Warming)
    ensures LockRank(s, p) <= 1
  {
    assert ProvOK(s.cfg, s.pc, p, s.prov[p]);
    assert x in Lockers(s.cfg, s.pc, p);
    OneLocker(s, p, x);
  }

  lemma OneLocker(s: State, p: ProviderId, x: WorkerId)
    requires |Lockers(s.cfg, s.pc, p)| <= 1 && x in Lockers(s.cfg, s.pc, p)
    ensures Lockers(s.cfg, s.pc, p) == {x}
  {
    assert {x} <= Lockers(s.cfg, s.pc, p);
    assert |Lockers(s.cfg, s.pc, p) - {x}| == 0;
  }

  // ---------- a provider that shares no group ----------

  /** Worker w comes to its next dequeue, and nobody is in its way. */
  lemma LoneServes(s: State, q: ProviderId, w: WorkerId)
    requires Inv(s) && q in s.prov && q !in s.cfg.group && s.prov[q].queue != [] && At(s, w) && Of(s, w) == q
    ensures CanServe(s, s.prov[q].queue[0])
    decreases Rank(s.pc[w]), LockRank(s, q)
  {
    if s.pc[w].Popping? {
      PopServes(s, w);
    } else {
      var a := LoneStep(s, q, w);
      NextKeeps(s, a);
      StepGoesOn(s, a);
      LoneServes(Next(s, a), q, w);
      ServesLater(s, a, Next(s, a), s.prov[q].queue[0]);
    }
  }

  lemma PopServes(s: State, w: WorkerId)
    requires TypeOK(s) && At(s, w) && s.pc[w].Popping? && s.prov[Of(s, w)].queue != []
    ensures CanServe(s, s.prov[Of(s, w)].queue[0])
  {
    PopRank(s, w);
    ServesNow(PopStep(s, w), s.prov[Of(s, w)].queue[0]);
    ServesLater(s, Work(w, true, s.clock), PopStep(s, w), s.prov[Of(s, w)].queue[0]);
  }

  /** What brings w nearer. */
  lemma LoneStep(s: State, q: ProviderId, w: WorkerId) returns (a: Step)
    requires Inv(s) && q in s.prov && q !in s.cfg.group && s.prov[q].queue != [] && At(s, w) && Of(s, w) == q
    requires !s.pc[w].Popping?
    ensures Enabled(s, a) && !a.Submit?
    ensures var t := Next(s, a);
            && w in t.pc && q in t.prov && t.prov[q].queue == s.prov[q].queue
            && (Rank(t.pc[w]) < Rank(s.pc[w]) || (t.pc[w] == s.pc[w] && LockRank(t, q) < LockRank(s, q)))
  {
    if s.pc[w].Parked? {
      assert WorkerOK(s.pc[w], s.prov[q], q in s.cfg.lifecycle);
      a := Broadcast(q);
    } else if s.pc[w].Is(WarmWait) && s.prov[q].locked {
      a := Unlocks(s, q);
    } else {
      a := Work(w, true, s.clock);
      if s.pc[w].Busy? || s.pc[w].Releasing? { TurnRank(s, w); } else { FreeTurn(s, w); }
    }
  }

  /** The way from the look at the queue to the dequeue, without a group. */
  lemma FreeTurn(s: State, w: WorkerId)
    requires TypeOK(s) && At(s, w) && (s.pc[w].Checking? || s.pc[w].Acquiring?)
    requires Of(s, w) !in s.cfg.group && s.prov[Of(s, w)].queue != []
    ensures var t := Next(s, Work(w, true, s.clock)); w in t.pc && Rank(t.pc[w]) < Rank(s.pc[w]) && t.prov == s.prov
  {}

  // ---------- a provider in a group ----------

  /** The jobs that the present provider of the group may still put before those of q. */
  ghost function Ahead(s: State, g: Group, q: ProviderId): nat
    requires g in s.resources
  {
    var a := s.resources[g].activeProvider;
    if a == q || a !in s.prov then 0 else |s.prov[a].queue|
  }

  ghost predicate Waits(s: State, g: Group, q: ProviderId) {
    Inv(s) && g in s.resources && q in s.prov && q in s.cfg.group && s.cfg.group[q] == g && s.prov[q].queue != []
  }

  lemma Onward(s: State, a: Step, g: Group, q: ProviderId)
    requires Waits(s, g, q) && Mild(s, a)
    ensures Waits(Next(s, a), g, q) && Ahead(Next(s, a), g, q) == Ahead(s, g, q)
    ensures Next(s, a).cfg == s.cfg && Next(s, a).prov[q].queue == s.prov[q].queue
  {
    NextKeeps(s, a);
    StepGoesOn(s, a);
    OnlyAcquireSwitches(s, a, g);
  }

  /** What a holder does that does not dequeue. */
  lemma HolderStep(s: State, g: Group, w: WorkerId) returns (a: Step)
    requires Inv(s) && w in Holders(s.cfg, s.pc, g) && (s.pc[w].Popping? ==> s.prov[Of(s, w)].queue == [])
    ensures Mild(s, a) && w in Next(s, a).pc && Nearer(s, Next(s, a), g, w)
  {
    if s.pc[w].Is(WarmWait) && s.prov[Of(s, w)].locked {
      a := Unlocks(s, Of(s, w));
      StepGoesOn(s, a);
      SameHolders(s.cfg, s.pc, Next(s, a).pc, g);
    } else {
      a := Work(w, true, s.clock);
      HolderTurn(s, g, w);
    }
  }

  lemma HolderTurn(s: State, g: Group, w: WorkerId)
    requires TypeOK(s) && CanWork(s, w) && w in Holders(s.cfg, s.pc, g)
    requires s.pc[w].Popping? ==> s.prov[Of(s, w)].queue == []
    ensures var a := Work(w, true, s.clock); Mild(s, a) && w in Next(s, a).pc && Nearer(s, Next(s, a), g, w)
  {
    var a := Work(w, true, s.clock);
    StepGoesOn(s, a);
    if s.pc[w].Popping? { PopRank(s, w); } else { TurnRank(s, w); }
    MovedNearer(s, Next(s, a), g, w);
  }

  lemma MovedNearer(s: State, t: State, g: Group, w: WorkerId)
    requires At(s, w) && w in Holders(s.cfg, s.pc, g) && t.cfg == s.cfg && w in t.pc && t.pc == s.pc[w := t.pc[w]]
    requires Of(s, w) in t.prov && HolderRank(t.pc[w]) < HolderRank(s.pc[w])
    ensures Nearer(s, t, g, w)
  {
    HoldersMove(s.cfg, s.pc, w, t.pc[w], g);
  }

  lemma SameHolders(cfg: Config, a: Pcs, b: Pcs, g: Group)
    requires a.Keys == b.Keys && forall x :: x in a ==> a[x].Holds() == b[x].Holds()
    ensures Holders(cfg, a, g) == Holders(cfg, b, g)
  {}

  /** Holder w has left the group, or is nearer to that while the holders are the same. */
  ghost predicate Nearer(s: State, t: State, g: Group, w: WorkerId)
    requires w in s.pc && w in t.pc && At(s, w)
  {
    var a, b := Holders(s.cfg, s.pc, g), Holders(t.cfg, t.pc, g);
    if !t.pc[w].Holds() then |b| < |a|
    else
      && b == a && Of(s, w) in t.prov
      && (HolderRank(t.pc[w]) < HolderRank(s.pc[w])
          || (t.pc[w] == s.pc[w] && LockRank(t, Of(s, w)) < LockRank(s, Of(s, w))))
  }

  /** The measure of one holder. */
  function HolderRank(pc: Pc): nat { if pc.Popping? then 20 else Rank(pc) }

  /** A dequeue of the provider that q waits for. */
  lemma PopGetsAhead(s: State, g: Group, q: ProviderId, w: WorkerId)
    requires Waits(s, g, q) && w in Holders(s.cfg, s.pc, g) && s.pc[w].Popping? && Of(s, w) != q
             && s.prov[Of(s, w)].queue != []
    ensures var t := PopStep(s, w);
            Waits(t, g, q) && Ahead(t, g, q) < Ahead(s, g, q) && t.prov[q].queue == s.prov[q].queue
  {
    var a, t := Work(w, true, s.clock), PopStep(s, w);
    assert GroupInv(s.cfg, s.pc, g, s.resources[g], s.clock);
    PopRank(s, w);
    assert t == Next(s, a);
    NextKeeps(s, a);
    StepGoesOn(s, a);
    OnlyAcquireSwitches(s, a, g);
  }

  lemma TakerWorks(s: State, g: Group, q: ProviderId) returns (w: WorkerId)
    requires Waits(s, g, q)
    ensures At(s, w) && Of(s, w) == Taker(s, g, q)
  {
    var p := Taker(s, g, q);
    assert p in s.cfg.providers by { assert GroupInv(s.cfg, s.pc, g, s.resources[g], s.clock); }
    w :| w in s.cfg.workers && s.cfg.workers[w] == p;
  }

  /** From any state: the holders finish one by one, then whoever may takes the group. */
  lemma GroupServes(s: State, g: Group, q: ProviderId)
    requires Waits(s, g, q)
    ensures CanServe(s, s.prov[q].queue[0])
    decreases Ahead(s, g, q), |Holders(s.cfg, s.pc, g)|, 100, 0
  {
    if w :| w in Holders(s.cfg, s.pc, g) {
      HolderServes(s, g, q, w);
    } else {
      assert Holders(s.cfg, s.pc, g) == {};
      var w := TakerWorks(s, g, q);
      TakerServes(s, g, q, w);
    }
  }

  lemma HolderServes(s: State, g: Group, q: ProviderId, w: WorkerId)
    requires Waits(s, g, q) && w in Holders(s.cfg, s.pc, g)
    ensures CanServe(s, s.prov[q].queue[0])
    decreases Ahead(s, g, q), |Holders(s.cfg, s.pc, g)|, HolderRank(s.pc[w]), LockRank(s, Of(s, w))
  {
    var id := s.prov[q].queue[0];
    if s.pc[w].Popping? && s.prov[Of(s, w)].queue != [] {
      if Of(s, w) == q {
        PopServes(s, w);
      } else {
        PopGetsAhead(s, g, q, w);
        GroupServes(PopStep(s, w), g, q);
        PopThenServes(s, w, id);
      }
    } else {
      var a := HolderStep(s, g, w);
      Onward(s, a, g, q);
      if Next(s, a).pc[w].Holds() { HolderServes(Next(s, a), g, q, w); } else { GroupServes(Next(s, a), g, q); }
      ServesLater(s, a, Next(s, a), id);
    }
  }

  /** What a worker of the taker does before it acquires: it is nearer, and the group is still free. */
  ghost predicate Approaches(s: State, t: State, g: Group, w: WorkerId)
    requires w in s.pc
  {
    && t.cfg == s.cfg && t.resources == s.resources && Holders(t.cfg, t.pc, g) == {}
    && w in t.pc && Rank(t.pc[w]) < Rank(s.pc[w])
  }

  lemma TakerStep(s: State, g: Group, q: ProviderId, w: WorkerId) returns (a: Step)
    requires Waits(s, g, q) && Holders(s.cfg, s.pc, g) == {} && At(s, w) && Of(s, w) == Taker(s, g, q)
    requires !s.pc[w].Acquiring?
    ensures Mild(s, a) && Approaches(s, Next(s, a), g, w)
  {
    FreeGroupIsAvailable(s, g, q, ReadyAt(s, g, q));
    assert s.pc[w].Holds() ==> w in Holders(s.cfg, s.pc, g);
    if s.pc[w].Parked? {
      assert WorkerOK(s.pc[w], s.prov[Of(s, w)], Of(s, w) in s.cfg.lifecycle);
      a := Broadcast(Of(s, w));
      WokenApproaches(s, g, w);
    } else {
      a := Work(w, true, s.clock);
      CheckApproaches(s, g, w);
    }
  }

  lemma WokenApproaches(s: State, g: Group, w: WorkerId)
    requires TypeOK(s) && Holders(s.cfg, s.pc, g) == {} && At(s, w) && s.pc[w].Parked?
             && s.prov[Of(s, w)].broadcasts > 0
    ensures Mild(s, Broadcast(Of(s, w))) && Approaches(s, Next(s, Broadcast(Of(s, w))), g, w)
  {
    SameHolders(s.cfg, s.pc, Next(s, Broadcast(Of(s, w))).pc, g);
  }

  lemma CheckApproaches(s: State, g: Group, w: WorkerId)
    requires TypeOK(s) && Holders(s.cfg, s.pc, g) == {} && At(s, w) && s.pc[w].Checking? && s.prov[Of(s, w)].queue != []
    ensures Mild(s, Work(w, true, s.clock)) && Approaches(s, Next(s, Work(w, true, s.clock)), g, w)
  {
    SameHolders(s.cfg, s.pc, s.pc[w := Acquiring], g);
  }

  lemma TakerServes(s: State, g: Group, q: ProviderId, w: WorkerId)
    requires Waits(s, g, q) && Holders(s.cfg, s.pc, g) == {} && At(s, w) && Of(s, w) == Taker(s, g, q)
    ensures CanServe(s, s.prov[q].queue[0])
    decreases Ahead(s, g, q), |Holders(s.cfg, s.pc, g)|, 50, Rank(s.pc[w])
  {
    var id := s.prov[q].queue[0];
    if !s.pc[w].Acquiring? {
      var a := TakerStep(s, g, q, w);
      Onward(s, a, g, q);
      TakerServes(Next(s, a), g, q, w);
      ServesLater(s, a, Next(s, a), id);
    } else {
      var now := ReadyAt(s, g, q);
      var t := AcquireStep(s, w, now);
      TakerAcquires(s, g, q, w);
      if Of(s, w) == q {
        PopServes(t, w);
      } else {
        PopGetsAhead(t, g, q, w);
        GroupServes(PopStep(t, w), g, q);
        PopThenServes(t, w, id);
      }
      ServesLater(s, Work(w, true, now), t, id);
    }
  }

  lemma PopThenServes(s: State, w: WorkerId, id: JobId)
    requires TypeOK(s) && At(s, w) && s.pc[w].Popping? && CanServe(PopStep(s, w), id)
    ensures CanServe(s, id)
  {
    ServesLater(s, Work(w, true, s.clock), PopStep(s, w), id);
  }

  /** The group goes to the taker, before whom no further job has come. */
  lemma TakerAcquires(s: State, g: Group, q: ProviderId, w: WorkerId)
    requires Waits(s, g, q) && Holders(s.cfg, s.pc, g) == {} && At(s, w) && Of(s, w) == Taker(s, g, q)
             && s.pc[w].Acquiring?
    ensures var now := ReadyAt(s, g, q);
            var t := AcquireStep(s, w, now);
            && Enabled(s, Work(w, true, now)) && t == Next(s, Work(w, true, now))
            && Waits(t, g, q) && t.prov[q].queue == s.prov[q].queue && w in Holders(t.cfg, t.pc, g) && t.cfg == s.cfg
            && t.pc[w].Popping? && t.prov[Of(s, w)].queue != [] && (Of(s, w) != q ==> Ahead(t, g, q) == Ahead(s, g, q))
  {
    var now := ReadyAt(s, g, q);
    FreeGroupIsAvailable(s, g, q, now);
    AcquireLeads(s, w, g, now);
    AcquireWaits(s, g, q, w, now);
    HolderIsActive(AcquireStep(s, w, now), g, w);
  }

  lemma AcquireWaits(s: State, g: Group, q: ProviderId, w: WorkerId, now: Time)
    requires Waits(s, g, q) && At(s, w) && s.pc[w].Acquiring? && s.clock <= now
    ensures var t := AcquireStep(s, w, now); Waits(t, g, q) && t.prov[q].queue == s.prov[q].queue && t.cfg == s.cfg
  {
    AcquireIsIdle(s, w, now);
    NextKeeps(s, Work(w, true, now));
  }

  lemma HolderIsActive(t: State, g: Group, w: WorkerId)
    requires Inv(t) && g in t.resources && At(t, w) && InGroup(t.cfg, w, g) && t.pc[w].Popping?
    ensures w in Holders(t.cfg, t.pc, g) && t.resources[g].activeProvider == Of(t, w)
  {
    assert GroupInv(t.cfg, t.pc, g, t.resources[g], t.clock);
    assert w in Holders(t.cfg, t.pc, g);
  }

  // ---------- every provider ----------

  /** From every reachable state, also while others hold the group, are in front in it or warm up, some
      steps without any submission dequeue the job at the head of any queue. */
  lemma HeadCanBeServed(s: State, q: ProviderId)
    requires Inv(s) && q in s.prov && s.prov[q].queue != []
    ensures CanServe(s, s.prov[q].queue[0])
  {
    if q in s.cfg.group {
      GroupServes(s, s.cfg.group[q], q);
    } else {
      var w :| w in s.cfg.workers && s.cfg.workers[w] == q;
      LoneServes(s, q, w);
    }
  }

  // ---------- jobs that run ----------

  ghost predicate CanEnd(s: State, id: JobId) {
    exists steps, t :: Leads(s, steps, t) && NoSubmit(steps) && id in t.closed
  }

  lemma EndsNow(s: State, id: JobId)
    requires id in s.closed
    ensures CanEnd(s, id)
  {
    assert Leads(s, [], s) && NoSubmit([]);
  }

  lemma EndsLater(s: State, a: Step, t: State, id: JobId)
    requires TypeOK(s) && Enabled(s, a) && !a.Submit? && t == Next(s, a) && CanEnd(t, id)
    ensures CanEnd(s, id)
  {
    var steps, u :| Leads(t, steps, u) && NoSubmit(steps) && id in u.closed;
    LeadsByStep(s, a, t, steps, u);
    assert NoSubmit([a] + steps);
  }

  /** From every reachable state a dequeued job can come to its end. */
  lemma JobCanEnd(s: State, w: WorkerId)
    requires Inv(s) && At(s, w) && s.pc[w].Busy?
    ensures CanEnd(s, s.pc[w].job)
    decreases Rank(s.pc[w]), LockRank(s, Of(s, w))
  {
    var id := s.pc[w].job;
    var a := BusyStep(s, w);
    NextKeeps(s, a);
    StepGoesOn(s, a);
    StaysBusy(s, a, w);
    if id in Next(s, a).closed { EndsNow(Next(s, a), id); } else { JobCanEnd(Next(s, a), w); }
    EndsLater(s, a, Next(s, a), id);
  }

  lemma BusyStep(s: State, w: WorkerId) returns (a: Step)
    requires Inv(s) && At(s, w) && s.pc[w].Busy?
    ensures Enabled(s, a) && !a.Submit?
    ensures var t, p := Next(s, a), Of(s, w);
            && w in t.pc && p in t.prov
            && (Rank(t.pc[w]) < Rank(s.pc[w]) || (t.pc[w] == s.pc[w] && LockRank(t, p) < LockRank(s, p)))
  {
    if s.pc[w].Is(WarmWait) && s.prov[Of(s, w)].locked {
      a := Unlocks(s, Of(s, w));
    } else {
      a := Work(w, true, s.clock);
      TurnRank(s, w);
    }
  }
}
