/** The GPU residency manager as a state machine over threads. `execMu` and `startMu` are mutexes
    with an owner; every section under an instance's own mutex is one step. */
module ResidencyMachine {
  import opened Basics

  /** Instance names and threads are only compared. */
  datatype Name = Name(id: int)
  datatype Thread = Thread(id: int)
  type Time = int

  /** An instance: `resident` abstracts a non-nil process handle. */
  datatype Inst = Inst(resident: bool, active: int, lastUsed: Time)

  type Insts = map<Name, Inst>

  datatype Config = Config(vram: map<Name, int>, idleTimeout: map<Name, int>, limit: int) {
    /** RegisterCommandModel stores no negative estimate. */
    ghost predicate Valid() {
      && (forall n :: n in vram ==> vram[n] >= 0)
      && (forall n :: n in vram <==> n in idleTimeout)
    }
  }

  /** What becomes of a launch: a healthy process, one that is stopped again because it never got
      healthy (with or without the marks of a full GPU on its error output), or none at all. */
  datatype Outcome = Healthy | OutOfMemory | Unhealthy | NotLaunched

  /** Where a thread stands. `acquire` tells a start made by Acquire, which owns execMu, from one
      made by Start.
      `Collect` is the first loop of makeRoomLocked, `MakeRoom` the second one, at position `at` of the
      sorted candidates; `kept` are those it has passed because they were leased. `FindVictim` is the
      scan of evictOldestIdleLocked: `idle` are the idle residents it has met, with their times, and
      `busy` the leased ones. */
  datatype Pc =
    | Outside
    | WantExec(name: Name)
    | WantStart(name: Name, exclusive: bool, acquire: bool)
    | Check(name: Name, exclusive: bool, acquire: bool)
    | StopOthers(name: Name, acquire: bool, todo: set<Name>)
    | Collect(name: Name, acquire: bool, todo: set<Name>, seen: map<Name, Time>, used: int)
    | MakeRoom(name: Name, acquire: bool, order: seq<Name>, at: nat, used: int, kept: set<Name>, seen: map<Name, Time>)
    | Launch(name: Name, acquire: bool)
    | FindVictim(name: Name, acquire: bool, todo: set<Name>, idle: map<Name, Time>, busy: set<Name>)
    | StopVictim(name: Name, acquire: bool, victim: Name)
    | Started(name: Name, acquire: bool)
    | Failed(acquire: bool)
    | Leased(name: Name)
    | Released
    | WantWatch(name: Name)
    | Watch(name: Name)
    | WantStopAll
    | WantStopAllStart
    | StopAll(todo: set<Name>)
  {
    /** Inside `start`, between locking and unlocking startMu. */
    predicate InStart() {
      Check? || StopOthers? || Collect? || MakeRoom? || Launch? || FindVictim? || StopVictim? || Started? || Failed?
    }
    predicate OwnsStart() { InStart() || Watch? || StopAll? }
    predicate OwnsExec() {
      ((WantStart? || InStart()) && acquire) || Leased? || Released? || WantStopAllStart? || StopAll?
    }
    /** In the loop that launches, and retries after an eviction. */
    predicate Retrying() { Launch? || FindVictim? || StopVictim? }
  }

  datatype State = State(cfg: Config, insts: Insts, exec: Option<Thread>, startMu: Option<Thread>, pc: map<Thread, Pc>)

  /** All instances are down, nobody holds a mutex, and every thread is outside. */
  ghost predicate IsInit(cfg: Config, threads: set<Thread>, s: State) {
    && s.cfg == cfg && s.exec == None && s.startMu == None
    && s.insts.Keys == cfg.vram.Keys && (forall n :: n in s.insts ==> s.insts[n] == Inst(false, 0, 0))
    && s.pc.Keys == threads && (forall t :: t in s.pc ==> s.pc[t] == Outside)
  }

  /** `Begin` starts a call (or a tick of an idle watcher), `Lock` takes the mutex the thread waits
      for, and `Go` is the next section of a thread that waits for none; `now` is what the clock
      reads, `outcome` what the launch does, and `pick` and `order` resolve the order in which a
      Go map is walked. */
  datatype Step =
    | Begin(t: Thread, call: Pc)
    | Lock(t: Thread)
    | Go(t: Thread, now: Time, outcome: Outcome, pick: Name, order: seq<Name>)
    | Bump(name: Name, now: Time)

  function Stop(insts: Insts, n: Name): Insts
    requires n in insts
  {
    insts[n := insts[n].(resident := false)]
  }

  /** Stops an instance that nobody leases. */
  function StopIdle(insts: Insts, n: Name): Insts {
    if n in insts && insts[n].active == 0 then Stop(insts, n) else insts
  }

  function Touch(insts: Insts, n: Name, now: Time): Insts
    requires n in insts
  {
    insts[n := insts[n].(lastUsed := now)]
  }

  function AddActive(insts: Insts, n: Name, d: int): Insts
    requires n in insts
  {
    insts[n := insts[n].(active := insts[n].active + d)]
  }

  function Residents(insts: Insts): set<Name> { set n | n in insts && insts[n].resident }

  /** The collected candidates, least recently used first. */
  ghost predicate Ordered(seen: map<Name, Time>, order: seq<Name>) {
    && (forall m :: m in seen <==> m in order)
    && (forall i, j :: 0 <= i < j < |order| ==>
          order[i] != order[j] && order[i] in seen && order[j] in seen && seen[order[i]] <= seen[order[j]])
  }

  /** The least recently used of the idle residents that were met. */
  predicate Oldest(idle: map<Name, Time>, v: Name) {
    v in idle && forall m :: m in idle ==> idle[v] <= idle[m]
  }

  ghost function Sum(vram: map<Name, int>, s: set<Name>): int
    requires forall n :: n in s ==> n in vram
  {
    if s == {} then 0 else var n :| n in s; vram[n] + Sum(vram, s - {n})
  }

  lemma {:induction false} SumMinus(vram: map<Name, int>, s: set<Name>, n: Name)
    requires n in s && forall m :: m in s ==> m in vram
    ensures Sum(vram, s) == vram[n] + Sum(vram, s - {n})
    decreases s
  {
    var m :| m in s && Sum(vram, s) == vram[m] + Sum(vram, s - {m});
    if m != n {
      SumMinus(vram, s - {m}, n);
      assert s - {m} - {n} == s - {n} - {m};
      SumMinus(vram, s - {n}, m);
    }
  }

  lemma SumNat(vram: map<Name, int>, s: set<Name>)
    requires forall m :: m in s ==> m in vram && vram[m] >= 0
    ensures Sum(vram, s) >= 0
    decreases s
  {
    if s != {} { var n :| n in s; SumMinus(vram, s, n); SumNat(vram, s - {n}); }
  }

  predicate IsCall(pc: Pc) {
    pc.WantExec? || (pc.WantStart? && !pc.acquire) || pc.WantWatch? || pc.WantStopAll?
  }

  /** The mutex that the thread waits for is free. */
  predicate CanLock(s: State, t: Thread) {
    t in s.pc &&
    match s.pc[t]
    case WantExec(_) => s.exec.None?
    case WantStopAll => s.exec.None?
    case WantStart(_, _, _) => s.startMu.None?
    case WantWatch(_) => s.startMu.None?
    case WantStopAllStart => s.startMu.None?
    case _ => false
  }

  /** What the walk over the instances may pick. */
  ghost predicate CanGo(s: State, t: Thread, pick: Name, order: seq<Name>) {
    t in s.pc &&
    match s.pc[t]
    case Outside => false
    case WantExec(_) => false
    case WantStart(_, _, _) => false
    case WantWatch(_) => false
    case WantStopAll => false
    case WantStopAllStart => false
    case Collect(_, _, todo, seen, _) => if todo == {} then Ordered(seen, order) else pick in todo
    case StopOthers(_, _, todo) => todo == {} || pick in todo
    case StopAll(todo) => todo == {} || pick in todo
    case FindVictim(_, _, todo, idle, _) => if todo == {} then idle.Keys == {} || Oldest(idle, pick) else pick in todo
    case _ => true
  }

  ghost predicate Enabled(s: State, a: Step) {
    match a
    case Begin(t, call) => t in s.pc && s.pc[t].Outside? && IsCall(call)
    case Lock(t) => CanLock(s, t)
    case Go(t, now, outcome, pick, order) => CanGo(s, t, pick, order)
    case Bump(n, now) => true
  }

  function At(s: State, t: Thread, pc: Pc): State { s.(pc := s.pc[t := pc]) }

  ghost function Next(s: State, a: Step): State
    requires Enabled(s, a)
  {
    match a
    case Begin(t, call) => At(s, t, call)
    case Lock(t) => LockStep(s, t)
    case Go(t, now, outcome, pick, order) => GoStep(s, t, now, outcome, pick, order)
    case Bump(n, now) => if n in s.insts then s.(insts := Touch(s.insts, n, now)) else s
  }

  function LockStep(s: State, t: Thread): State
    requires CanLock(s, t)
  {
    match s.pc[t]
    case WantExec(n) => At(s.(exec := Some(t)), t, WantStart(n, false, true))
    case WantStopAll => At(s.(exec := Some(t)), t, WantStopAllStart)
    case WantStart(n, exclusive, acquire) => At(s.(startMu := Some(t)), t, Check(n, exclusive, acquire))
    case WantWatch(n) => At(s.(startMu := Some(t)), t, Watch(n))
    case _ => At(s.(startMu := Some(t)), t, StopAll(s.insts.Keys))
  }

  /** Leaves `start`: gives back startMu, and either keeps the lease or leaves. */
  function Leave(s: State, t: Thread, pc: Pc): State { At(s.(startMu := None), t, pc) }

  /** The end of a successful start. */
  function Succeed(s: State, t: Thread, n: Name, acquire: bool): State
    requires n in s.insts
  {
    if acquire then Leave(s.(insts := AddActive(s.insts, n, 1)), t, Leased(n)) else Leave(s, t, Outside)
  }

  ghost function GoStep(s: State, t: Thread, now: Time, outcome: Outcome, pick: Name, order: seq<Name>): State
    requires CanGo(s, t, pick, order)
  {
    match s.pc[t]
    case Check(n, exclusive, acquire) => CheckStep(s, t, n, exclusive, acquire, now)
    case StopOthers(n, acquire, todo) =>
      if todo == {} then At(s, t, Launch(n, acquire))
      else At(s.(insts := StopIdle(s.insts, pick)), t, StopOthers(n, acquire, todo - {pick}))
    case Collect(_, _, _, _, _) => CollectStep(s, t, s.pc[t], pick, order)
    case MakeRoom(_, _, _, _, _, _, _) => MakeRoomStep(s, t, s.pc[t])
    case Launch(n, acquire) => if n in s.insts then LaunchStep(s, t, n, acquire, now, outcome) else s
    case FindVictim(_, _, _, _, _) => At(s, t, Scanned(s.insts, s.pc[t], pick))
    case StopVictim(n, acquire, v) =>
      if v in s.insts && s.insts[v].resident && s.insts[v].active == 0
      then At(s.(insts := Stop(s.insts, v)), t, Launch(n, acquire)) else At(s, t, Failed(acquire))
    case Started(n, acquire) => if n in s.insts then Succeed(s, t, n, acquire) else s
    case Failed(acquire) => Leave(s, t, if acquire then Released else Outside)
    case Leased(n) =>
      if n !in s.insts then At(s, t, Released)
      else At(s.(insts := Touch(if s.insts[n].active > 0 then AddActive(s.insts, n, -1) else s.insts, n, now)), t,
              Released)
    case Released => At(s.(exec := None), t, Outside)
    case Watch(n) =>
      if n in s.insts && n in s.cfg.idleTimeout && s.insts[n].resident
          && now - s.insts[n].lastUsed > s.cfg.idleTimeout[n]
      then Leave(s.(insts := StopIdle(s.insts, n)), t, Outside) else Leave(s, t, Outside)
    case StopAll(todo) =>
      if todo == {} then Leave(s, t, Released)
      else At(s.(insts := if pick in s.insts then Stop(s.insts, pick) else s.insts), t, StopAll(todo - {pick}))
    case _ => s
  }

  /** The first look of `start` at the instance, and the beginning of makeRoomLocked. */
  function CheckStep(s: State, t: Thread, n: Name, exclusive: bool, acquire: bool, now: Time): State {
    if n !in s.insts || n !in s.cfg.vram then At(s, t, Failed(acquire))
    else if s.insts[n].resident then Succeed(s.(insts := Touch(s.insts, n, now)), t, n, acquire)
    else if exclusive then At(s, t, StopOthers(n, acquire, s.insts.Keys - {n}))
    else if s.cfg.limit <= 0 || s.cfg.vram[n] <= 0 then At(s, t, Launch(n, acquire))
    else if s.cfg.vram[n] > s.cfg.limit then At(s, t, Failed(acquire))
    else At(s, t, Collect(n, acquire, s.insts.Keys - {n}, map[], 0))
  }

  /** One candidate of the first loop of makeRoomLocked, or its end. */
  function CollectStep(s: State, t: Thread, pc: Pc, pick: Name, order: seq<Name>): State
    requires pc.Collect?
  {
    var n := pc.name;
    if pc.todo != {} then
      if pick in s.insts && pick in s.cfg.vram && s.insts[pick].resident then
        At(s, t, Collect(n, pc.acquire, pc.todo - {pick}, pc.seen[pick := s.insts[pick].lastUsed],
                         pc.used + s.cfg.vram[pick]))
      else At(s, t, Collect(n, pc.acquire, pc.todo - {pick}, pc.seen, pc.used))
    else if n !in s.cfg.vram then At(s, t, Failed(pc.acquire))
    else At(s, t, if pc.used + s.cfg.vram[n] <= s.cfg.limit then Launch(n, pc.acquire)
            else MakeRoom(n, pc.acquire, order, 0, pc.used, {}, pc.seen))
  }

  /** One turn of the eviction loop. */
  function MakeRoomStep(s: State, t: Thread, pc: Pc): State
    requires pc.MakeRoom?
  {
    var n := pc.name;
    if pc.at >= |pc.order| || n !in s.cfg.vram then At(s, t, Failed(pc.acquire))
    else
      var c := pc.order[pc.at];
      if c in s.insts && c in s.cfg.vram && s.insts[c].active == 0 && s.insts[c].resident then
        var left := pc.used - s.cfg.vram[c];
        At(s.(insts := Stop(s.insts, c)), t,
           if left + s.cfg.vram[n] <= s.cfg.limit then Launch(n, pc.acquire)
           else MakeRoom(n, pc.acquire, pc.order, pc.at + 1, left, pc.kept, pc.seen))
      else At(s, t, MakeRoom(n, pc.acquire, pc.order, pc.at + 1, pc.used, pc.kept + {c}, pc.seen))
  }

  /** One candidate of the scan for a victim, or its end. */
  function Scanned(insts: Insts, pc: Pc, pick: Name): Pc
    requires pc.FindVictim?
  {
    var FindVictim(name, acquire, todo, idle, busy) := pc;
    if todo != {} then
      var up := pick in insts && insts[pick].resident;
      FindVictim(name, acquire, todo - {pick},
        if up && insts[pick].active == 0 then idle[pick := insts[pick].lastUsed] else idle,
        if up && insts[pick].active != 0 then busy + {pick} else busy)
    else if idle.Keys == {} then Failed(acquire)
    else StopVictim(name, acquire, pick)
  }

  function LaunchStep(s: State, t: Thread, n: Name, acquire: bool, now: Time, outcome: Outcome): State
    requires n in s.insts
  {
    match outcome
    case Healthy => At(s.(insts := s.insts[n := s.insts[n].(resident := true, lastUsed := now)]), t,
                       Started(n, acquire))
    case OutOfMemory => At(s.(insts := Touch(s.insts, n, now)), t,
                           FindVictim(n, acquire, s.insts.Keys - {n}, map[], {}))
    case Unhealthy => At(s.(insts := Touch(s.insts, n, now)), t, Failed(acquire))
    case NotLaunched => At(s, t, Failed(acquire))
  }

  ghost predicate IsRun(cfg: Config, threads: set<Thread>, run: seq<State>, steps: seq<Step>) {
    && cfg.Valid()
    && |run| == |steps| + 1
    && IsInit(cfg, threads, run[0])
    && forall i {:trigger steps[i]} ::
       0 <= i < |steps| ==> Enabled(run[i], steps[i]) && run[i+1] == Next(run[i], steps[i])
  }
}
