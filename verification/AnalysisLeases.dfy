/** How `analyze` hands the execution lease from one model to the next. The lease is a mutex that is
    not reentrant, so asking for it while holding it would block forever. */
module AnalysisLeases {
  import opened Basics

  datatype Stage = Separation | Diarization | Transcription

  datatype Event = Acquired(stage: Stage) | Released(stage: Stage)

  /** The execution lease as one analysis sees it; `log` is history. */
  class Lease {
    var holder: Option<Stage>
    ghost var log: seq<Event>

    constructor ()
      ensures holder == None && log == []
    {
      holder, log := None, [];
    }

    /** runGate: may fail, and gives no lease for a model that is not managed. */
    method Acquire(stage: Stage) returns (ok: bool, leased: bool)
      requires holder.None?
      modifies this
      ensures leased ==> ok
      ensures holder == (if leased then Some(stage) else None)
      ensures log == if leased then old(log) + [Acquired(stage)] else old(log)
    {
      ok, leased := *, false;
      if ok { leased := *; }
      if leased {
        holder := Some(stage);
        log := log + [Acquired(stage)];
      }
    }

    method Release(stage: Stage)
      requires holder == Some(stage)
      modifies this
      ensures holder == None && log == old(log) + [Released(stage)]
    {
      holder := None;
      log := log + [Released(stage)];
    }
  }

  /** Every lease is given back before the next one is taken. */
  function HandOver(stages: seq<Stage>): seq<Event> {
    if |stages| == 0 then []
    else HandOver(stages[..|stages|-1]) + [Acquired(stages[|stages|-1]), Released(stages[|stages|-1])]
  }

  /** The stages so far, with the one that still holds the lease. */
  function Holding(stages: seq<Stage>, holder: Option<Stage>): seq<Event> {
    HandOver(stages) + if holder.None? then [] else [Acquired(holder.value)]
  }

  lemma GivenBack(stages: seq<Stage>, holder: Stage)
    ensures HandOver(stages + [holder]) == Holding(stages, Some(holder)) + [Released(holder)]
  {
    var all := stages + [holder];
    assert all[..|all|-1] == stages;
    assert HandOver(stages) + [Acquired(holder), Released(holder)] ==
        HandOver(stages) + [Acquired(holder)] + [Released(holder)];
  }

  function Rank(s: Stage): nat {
    match s
    case Separation => 0
    case Diarization => 1
    case Transcription => 2
  }

  /** No stage twice, in the order of the pipeline, and none from rank `end` on. */
  ghost predicate InOrder(stages: seq<Stage>, end: nat) {
    && (forall i, j :: 0 <= i < j < |stages| ==> Rank(stages[i]) < Rank(stages[j]))
    && (forall i :: 0 <= i < |stages| ==> Rank(stages[i]) < end)
  }

  lemma OneMore(stages: seq<Stage>, s: Stage)
    requires InOrder(stages, Rank(s))
    ensures InOrder(stages, Rank(s) + 1) && InOrder(stages + [s], Rank(s) + 1)
  {}

  /** A stage whose work may fail. `leased` is the caller's `release` variable: if the stage fails it
      still stands for a lease that the deferred function has to give back. */
  method RunStage(lease: Lease, gated: bool, stage: Stage, ghost done: seq<Stage>)
    returns (ok: bool, leased: bool, ghost now: seq<Stage>)
    requires lease.holder.None? && lease.log == HandOver(done)
    modifies lease
    ensures lease.holder == (if leased then Some(stage) else None) && lease.log == Holding(now, lease.holder)
    ensures ok ==> !leased
    ensures leased ==> now == done
    ensures now == done || now == done + [stage]
  {
    leased, now := false, done;
    if gated {
      ok, leased := lease.Acquire(stage);
      if !ok {
        assert HandOver(done) + [] == HandOver(done);
        return;
      }
    }
    ok := *;
    if !ok { return; }
    if leased {
      lease.Release(stage);
      GivenBack(done, stage);
      now := done + [stage];
      leased := false;
    }
  }

  /** The deferred function of a stage. */
  method GiveBack(lease: Lease, leased: bool, stage: Stage, ghost done: seq<Stage>) returns (ghost now: seq<Stage>)
    requires lease.holder == (if leased then Some(stage) else None) && lease.log == Holding(done, lease.holder)
    modifies lease
    ensures lease.holder.None? && lease.log == HandOver(now)
    ensures now == if leased then done + [stage] else done
  {
    now := done;
    if leased {
      lease.Release(stage);
      GivenBack(done, stage);
      now := done + [stage];
    }
  }

  /** A stage with its deferred function. */
  method Deferred(lease: Lease, gated: bool, stage: Stage, ghost done: seq<Stage>)
    returns (ok: bool, ghost now: seq<Stage>)
    requires lease.holder.None? && lease.log == HandOver(done) && InOrder(done, Rank(stage))
    modifies lease
    ensures lease.holder.None? && lease.log == HandOver(now) && InOrder(now, Rank(stage) + 1)
  {
    var leased;
    OneMore(done, stage);
    ok, leased, now := RunStage(lease, gated, stage, done);
    if !ok {
      now := GiveBack(lease, leased, stage, now);
    } else {
      assert HandOver(now) + [] == HandOver(now);
    }
  }

  /** transcribeSegments: the lease is given back by the deferred release whatever happens. */
  method TranscribeSegments(lease: Lease, gated: bool, segments: nat, ghost done: seq<Stage>)
    returns (ok: bool, ghost now: seq<Stage>)
    requires lease.holder.None? && lease.log == HandOver(done)
    modifies lease
    ensures lease.holder.None? && lease.log == HandOver(now) && (now == done || now == done + [Transcription])
  {
    var leased := false;
    now := done;
    if gated {
      ok, leased := lease.Acquire(Transcription);
      if !ok { return; }
    }
    ok := true;
    var i := 0;
    while i < segments && ok {
      ok := *;
      i := i + 1;
    }
    assert lease.log == Holding(done, lease.holder);
    now := GiveBack(lease, leased, Transcription, done);
  }

  /** analyze: on every path, with any failure anywhere, it never asks for the lease while holding
      it, and has given back every lease once when it returns. */
  method Analyze(lease: Lease, gated: bool, separate: bool, transcribe: bool, segments: nat)
    returns (ok: bool, ghost stages: seq<Stage>)
    requires lease.holder.None? && lease.log == []
    modifies lease
    ensures lease.holder.None? && lease.log == HandOver(stages) && InOrder(stages, 3)
  {
    stages := [];
    ok := *;
    if !ok { return; }
    if separate {
      ok, stages := Deferred(lease, gated, Separation, stages);
      if !ok { return; }
    }
    ok := *;
    if !ok { return; }
    ok, stages := Deferred(lease, gated, Diarization, stages);
    if !ok { return; }
    if transcribe {
      OneMore(stages, Transcription);
      ok, stages := TranscribeSegments(lease, gated, segments, stages);
    }
  }
}
