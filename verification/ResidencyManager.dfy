/** The residency manager's own loops: the LRU eviction of makeRoomLocked, the search for a victim,
    the retry loop of `start` and the lease. Each method runs with the mutexes that its caller in
    the code holds, and no step of another thread in between; ResidencyMachine has those. */
module ResidencyManager {
  import opened Basics
  import opened ResidencyMachine
  import opened ResidencyEviction

  // ---------- sorting the candidates ----------

  datatype Candidate = Candidate(name: Name, used: int, last: Time)

  ghost predicate Sorted(s: seq<Candidate>) {
    forall i, j :: 0 <= i < j < |s| ==> s[i].name != s[j].name && s[i].last <= s[j].last
  }

  lemma SortedTail(s: seq<Candidate>)
    requires Sorted(s) && s != []
    ensures Sorted(s[1..]) && s[0] in s && (forall x :: x in s[1..] ==> x in s)
    ensures forall x :: x in s[1..] ==> x.name != s[0].name && s[0].last <= x.last
  {}

  lemma SortedCons(c: Candidate, s: seq<Candidate>)
    requires Sorted(s) && forall x :: x in s ==> x.name != c.name && c.last <= x.last
    ensures Sorted([c] + s)
  {
    assert forall i :: 0 <= i < |s| ==> s[i] in s;
  }

  function InsertLru(c: Candidate, s: seq<Candidate>): (t: seq<Candidate>)
    requires Sorted(s) && forall x :: x in s ==> x.name != c.name
    ensures Sorted(t) && forall x :: x in t <==> x == c || x in s
  {
    if s == [] then [c]
    else
      SortedTail(s);
      assert s == [s[0]] + s[1..];
      if c.last <= s[0].last then
        SortedCons(c, s);
        [c] + s
      else
        var r := InsertLru(c, s[1..]);
        SortedCons(s[0], r);
        [s[0]] + r
  }

  function SortLru(s: seq<Candidate>): (r: seq<Candidate>)
    requires forall i, j :: 0 <= i < j < |s| ==> s[i].name != s[j].name
    ensures Sorted(r) && forall x :: x in r <==> x in s
  {
    if s == [] then [] else InsertLru(s[0], SortLru(s[1..]))
  }

  function Names(s: seq<Candidate>): (r: seq<Name>)
    ensures |r| == |s| && forall i :: 0 <= i < |s| ==> r[i] == s[i].name
  {
    if s == [] then [] else [s[0].name] + Names(s[1..])
  }

  lemma NamesInOrder(cs: seq<Candidate>)
    requires Sorted(cs)
    ensures forall c :: c in cs ==> c.name in Names(cs)
    ensures forall n :: n in Names(cs) ==> exists c :: c in cs && c.name == n
  {
    forall c | c in cs ensures c.name in Names(cs) {
      var i :| 0 <= i < |cs| && cs[i] == c;
      assert Names(cs)[i] == c.name;
    }
    forall n | n in Names(cs) ensures exists c :: c in cs && c.name == n {
      var i :| 0 <= i < |cs| && Names(cs)[i] == n;
      assert cs[i] in cs;
    }
  }

  /** Sorted candidates name the residents in LRU order. */
  lemma CandidatesAreLru(cs: seq<Candidate>, insts: Insts, requested: Name)
    requires Sorted(cs)
    requires forall c :: c in cs ==>
             c.name in insts && c.name != requested && insts[c.name].resident && c.last == insts[c.name].lastUsed
    requires forall n :: n in insts && n != requested && insts[n].resident ==> exists c :: c in cs && c.name == n
    ensures LruOrder(insts, requested, Names(cs))
  {
    NamesInOrder(cs);
    forall i | 0 <= i < |cs| ensures cs[i] in cs {}
  }

  /** Candidates that are all up, with their estimates. */
  ghost predicate Candidates(s: seq<Candidate>, vram: map<Name, int>, insts: Insts) {
    forall c :: c in s ==> c.name in insts && c.name in vram && c.used == vram[c.name] && insts[c.name].resident
  }

  lemma CandidatesTail(s: seq<Candidate>, i: nat, vram: map<Name, int>, insts: Insts)
    requires i < |s| && Sorted(s) && Candidates(s[i..], vram, insts)
    ensures s[i].name in insts && s[i].name in vram && s[i].used == vram[s[i].name] && insts[s[i].name].resident
    ensures Candidates(s[i+1..], vram, insts) && Candidates(s[i+1..], vram, Stop(insts, s[i].name))
  {
    assert s[i..][0] == s[i] && s[i..][1..] == s[i+1..];
    forall c | c in s[i+1..] ensures c in s[i..] && c.name != s[i].name {}
  }

  // ---------- the manager ----------

  class Instance {
    const vramMiB: int
    const idleTimeout: int
    var resident: bool
    var active: int
    var lastUsed: Time
    var watcherStarted: bool

    constructor (vramMiB: int, idleTimeout: int)
      ensures this.vramMiB == (if vramMiB < 0 then 0 else vramMiB) && this.idleTimeout == idleTimeout
      ensures !resident && active == 0 && lastUsed == 0 && !watcherStarted
    {
      this.vramMiB := if vramMiB < 0 then 0 else vramMiB;
      this.idleTimeout := idleTimeout;
      resident, active, lastUsed, watcherStarted := false, 0, 0, false;
    }

    function Val(): Inst
      reads this
    {
      Inst(resident, active, lastUsed)
    }

    method StopLocked()
      modifies this`resident
      ensures !resident
    {
      if !resident { return; }
      resident := false;
    }
  }

  /** A start of n that takes a lease or none: no other `active` changes, whoever is leased stays up,
      and nothing but n can come up. */
  ghost predicate Leases(a: Insts, b: Insts, n: Name, leased: bool) {
    && (forall m :: m in a <==> m in b)
    && (forall m :: m in a ==> b[m].active == a[m].active + if m == n && leased then 1 else 0)
    && (forall m :: m in a && m != n ==> b[m] == a[m] || (a[m].active == 0 && b[m] == a[m].(resident := false)))
  }

  ghost predicate WithinLimit(vram: map<Name, int>, insts: Insts, limit: int)
    requires forall n :: n in insts ==> n in vram
  {
    Sum(vram, Residents(insts)) <= limit
  }

  lemma SameResidents(a: Insts, b: Insts)
    requires forall n :: n in a <==> n in b
    requires forall n :: n in a ==> a[n].resident == b[n].resident
    ensures Residents(a) == Residents(b)
  {}

  datatype StartResult = Done | Unknown | TooLarge | NoRoom | LaunchFailed(oom: bool)

  /** What `start` makes of its last launch. */
  function Told(outcome: Outcome): StartResult {
    match outcome
    case Healthy => Done
    case OutOfMemory => LaunchFailed(true)
    case _ => LaunchFailed(false)
  }

  /** The launches of one start: all but the last ran out of memory, and the last tells the result; a
      start that is refused launches nothing. */
  ghost predicate TellsResult(log: seq<Outcome>, r: StartResult) {
    && (forall i :: 0 <= i < |log| - 1 ==> log[i] == OutOfMemory)
    && (if log == [] then r == TooLarge || r == NoRoom else r == Told(log[|log|-1]))
  }

  /** Launches that went before a retry, behind those of earlier starts. */
  ghost predicate Retried(was: seq<Outcome>, log: seq<Outcome>, all: seq<Outcome>) {
    all == was + log && forall o :: o in log ==> o == OutOfMemory
  }

  lemma OneLaunchMore(was: seq<Outcome>, log: seq<Outcome>, all: seq<Outcome>, outcome: Outcome)
    requires Retried(was, log, all)
    ensures all + [outcome] == was + (log + [outcome]) && TellsResult(log + [outcome], Told(outcome))
    ensures outcome == OutOfMemory ==> Retried(was, log + [outcome], all + [outcome])
  {
    assert was + log + [outcome] == was + (log + [outcome]);
    forall i | 0 <= i < |log| ensures (log + [outcome])[i] == OutOfMemory { assert log[i] in log; }
  }

  class Manager {
    const instances: map<Name, Instance>
    const limit: int
    /** What became of the launches so far. */
    ghost var launches: seq<Outcome>

    ghost predicate Valid() {
      && (forall n, m :: n in instances && m in instances && n != m ==> instances[n] != instances[m])
      && (forall n :: n in instances ==> instances[n].vramMiB >= 0)
    }

    function Objects(): set<Instance> { set n | n in instances :: instances[n] }

    function Vram(): map<Name, int> { map n | n in instances :: instances[n].vramMiB }

    function View(): Insts
      reads Objects()
    {
      map n | n in instances :: instances[n].Val()
    }

    constructor (instances: map<Name, Instance>, limit: int)
      ensures this.instances == instances && this.limit == limit
    {
      this.instances := instances;
      this.limit := limit;
    }

    /** Stops one instance; the rest stays. */
    method StopOne(n: Name)
      requires Valid() && n in instances
      modifies instances[n]
      ensures View() == Stop(old(View()), n)
    {
      var inst: Instance := instances[n];
      inst.StopLocked();
      assert forall m: Name :: m in instances && m != n ==> instances[m].Val() == old(instances[m].Val());
      assert View() == Stop(old(View()), n);
    }

    /** stopOthersLocked. */
    method StopOthersLocked(exclude: Name)
      requires Valid()
      modifies Objects()
      ensures forall n :: n in instances ==>
                View()[n] == if n != exclude && old(View())[n].active == 0 then old(View())[n].(resident := false)
                  else old(View())[n]
    {
      var rest := instances.Keys;
      while rest != {}
        invariant rest <= instances.Keys
        invariant forall n :: n in instances ==>
                    View()[n] == if n !in rest && n != exclude && old(View())[n].active == 0
                                 then old(View())[n].(resident := false) else old(View())[n]
        decreases rest
      {
        var n :| n in rest;
        if n != exclude && instances[n].active == 0 {
          StopOne(n);
        }
        rest := rest - {n};
      }
    }

    /** evictOldestIdleLocked: the scan for the least recently used idle instance, then the stop. */
    method EvictOldestIdleLocked(exclude: Name) returns (stopped: bool, ghost victim: Name)
      requires Valid()
      modifies Objects()
      ensures stopped ==> OldestIdle(old(View()), exclude, victim) && View() == Stop(old(View()), victim)
      ensures !stopped ==> NoIdle(old(View()), exclude) && View() == old(View())
    {
      var oldest: Option<Name> := None;
      var rest := instances.Keys;
      while rest != {}
        invariant rest <= instances.Keys
        invariant oldest.Some? ==>
                    var v := oldest.value;
                    && v in instances && v != exclude && instances[v].resident && instances[v].active == 0
                    && forall m ::
                         m in instances && m !in rest && m != exclude
                         && instances[m].resident && instances[m].active == 0
                         ==> instances[v].lastUsed <= instances[m].lastUsed
        invariant oldest.None? ==>
                    forall m :: m in instances && m !in rest && m != exclude && instances[m].resident
                        ==> instances[m].active != 0
        decreases rest
      {
        var n :| n in rest;
        if n != exclude {
          var c := instances[n];
          if c.resident && c.active == 0 && (oldest.None? || c.lastUsed < instances[oldest.value].lastUsed) {
            oldest := Some(n);
          }
        }
        rest := rest - {n};
      }
      if oldest.None? { return false, exclude; }
      victim := oldest.value;
      StopOne(oldest.value);
      return true, oldest.value;
    }

    /** The first loop of makeRoomLocked: the residents other than `requested` and their estimate. */
    method Snapshot(requested: Name) returns (residents: seq<Candidate>, estimated: int)
      requires Valid()
      ensures forall i, j :: 0 <= i < j < |residents| ==> residents[i].name != residents[j].name
      ensures forall c :: c in residents ==>
                c.name in instances && c.name != requested && instances[c.name].resident
                && c.used == instances[c.name].vramMiB && c.last == instances[c.name].lastUsed
      ensures forall n :: n in instances && n != requested && instances[n].resident ==>
                Candidate(n, instances[n].vramMiB, instances[n].lastUsed) in residents
      ensures estimated == Sum(Vram(), Residents(View()) - {requested})
    {
      residents, estimated := [], 0;
      var rest := instances.Keys;
      while rest != {}
        invariant rest <= instances.Keys
        invariant forall i, j :: 0 <= i < j < |residents| ==> residents[i].name != residents[j].name
        invariant forall c :: c in residents ==>
                    c.name in instances && c.name !in rest && c.name != requested && instances[c.name].resident
                    && c.used == instances[c.name].vramMiB && c.last == instances[c.name].lastUsed
        invariant forall n :: n in instances && n !in rest && n != requested && instances[n].resident ==>
                    Candidate(n, instances[n].vramMiB, instances[n].lastUsed) in residents
        invariant estimated == Sum(Vram(), Residents(View()) - {requested} - rest)
        decreases rest
      {
        var n :| n in rest;
        var c := instances[n];
        SumOneMore(Vram(), Residents(View()) - {requested}, rest, n);
        if n != requested && c.resident {
          estimated := estimated + c.vramMiB;
          residents := residents + [Candidate(n, c.vramMiB, c.lastUsed)];
        }
        rest := rest - {n};
      }
      assert Residents(View()) - {requested} - {} == Residents(View()) - {requested};
    }

    method MakeRoomLocked(requested: Name, requiredMiB: int) returns (r: StartResult, ghost order: seq<Name>)
      requires Valid() && requested in instances && !instances[requested].resident
      modifies Objects()
      ensures r == Done || r == TooLarge || r == NoRoom
      ensures limit <= 0 || requiredMiB <= 0 ==> r == Done && View() == old(View())
      ensures 0 < limit < requiredMiB ==> r == TooLarge && View() == old(View())
      ensures 0 < requiredMiB <= limit ==>
                var used := Sum(Vram(), Residents(old(View())) - {requested});
                if used + requiredMiB <= limit then r == Done && View() == old(View())
                else LruOrder(old(View()), requested, order) && (forall n :: n in order ==> n in instances)
                     && Evict(Vram(), old(View()), order, 0, used, requiredMiB, limit) == (View(), r == Done)
    {
      order := [];
      if limit <= 0 || requiredMiB <= 0 { return Done, order; }
      if requiredMiB > limit { return TooLarge, order; }
      var residents, used := Snapshot(requested);
      if used + requiredMiB <= limit { return Done, order; }
      residents := SortLru(residents);
      order := Names(residents);
      CandidatesAreLru(residents, View(), requested);
      var ok := EvictLru(residents, used, requiredMiB, Vram());
      return if ok then Done else NoRoom, order;
    }

    /** The locked section of the second loop: stops the candidate if it is up and idle. */
    method StopIfIdle(n: Name) returns (stopped: bool)
      requires Valid() && n in instances
      modifies instances[n]
      ensures stopped <==> old(View())[n].active == 0 && old(View())[n].resident
      ensures View() == if stopped then Stop(old(View()), n) else old(View())
    {
      stopped := instances[n].active == 0 && instances[n].resident;
      if stopped { StopOne(n); }
    }

    /** The second loop of makeRoomLocked. */
    method EvictLru(residents: seq<Candidate>, usedMiB: int, requiredMiB: int, ghost vram: map<Name, int>)
      returns (ok: bool)
      requires Valid() && Sorted(residents) && Candidates(residents, vram, View())
      modifies Objects()
      ensures forall n :: n in Names(residents) ==> n in instances
      ensures Evict(vram, old(View()), Names(residents), 0, usedMiB, requiredMiB, limit) == (View(), ok)
    {
      var used := usedMiB;
      ghost var usedNow := used;
      ghost var order, insts := Names(residents), View();
      NamesInOrder(residents);
      ghost var goal := Evict(vram, insts, order, 0, usedMiB, requiredMiB, limit);
      var i := 0;
      while i < |residents|
        invariant 0 <= i <= |residents| && insts == View()
        invariant Candidates(residents[i..], vram, insts)
        invariant used == usedNow && goal == Evict(vram, insts, order, i, usedNow, requiredMiB, limit)
      {
        var c := residents[i];
        CandidatesTail(residents, i, vram, insts);
        var stopped := StopIfIdle(c.name);
        ghost var after := View();
        ghost var left := if stopped then usedNow - vram[order[i]] else usedNow;
        EvictTurn(vram, insts, order, i, usedNow, requiredMiB, limit, after, stopped);
        if stopped {
          used := used - c.used;
          if used + requiredMiB <= limit { return true; }
        }
        insts, usedNow := after, left;
        i := i + 1;
      }
      return false;
    }

    /** tryStartLocked. Whether a process can be launched and becomes healthy is not ours to say. */
    method TryStartLocked(n: Name, now: Time) returns (outcome: Outcome)
      requires Valid() && n in instances && !instances[n].resident
      modifies instances[n], this`launches
      ensures outcome.Healthy? <==> instances[n].resident
      ensures instances[n].active == old(instances[n].active)
      ensures instances[n].lastUsed == if outcome.NotLaunched? then old(instances[n].lastUsed) else now
      ensures forall m :: m in instances && m != n ==> View()[m] == old(View())[m]
      ensures launches == old(launches) + [outcome]
    {
      outcome := *;
      launches := launches + [outcome];
      var inst := instances[n];
      if !outcome.NotLaunched? {
        inst.resident := true;
        inst.lastUsed := now;
        if !outcome.Healthy? {
          inst.StopLocked();
        }
      }
      assert forall m: Name :: m in instances && m != n ==> instances[m].Val() == old(instances[m].Val());
    }

    /** The part of `start` that clears the way for a launch of n. */
    method ClearTheWay(n: Name, exclusive: bool) returns (r: StartResult)
      requires Valid() && n in instances && !instances[n].resident
      modifies Objects()
      ensures r == Done || r == TooLarge || r == NoRoom
      ensures OnlyIdleStopped(old(View()), View(), n) && !instances[n].resident
      ensures r == Done && !exclusive && 0 < limit && Sum(Vram(), Residents(old(View()))) <= limit
              ==> Fits(Vram(), View(), n, limit)
    {
      ghost var before, vram := View(), Vram();
      if exclusive {
        StopOthersLocked(n);
        return Done;
      }
      ghost var order;
      r, order := MakeRoomLocked(n, instances[n].vramMiB);
      ghost var need := instances[n].vramMiB;
      assert Residents(before) - {n} == Residents(before);
      if 0 < need <= limit {
        var used := Sum(vram, Residents(before) - {n});
        if used + need > limit {
          EvictStopsIdle(vram, before, order, 0, used, need, limit, n);
          if r == Done { EvictFits(vram, before, order, 0, need, limit, n); }
        }
      }
    }

    /** One turn of the loop in `start`: a launch and, if the GPU was full, one eviction. */
    method Attempt(n: Name, now: Time, ghost before: Insts)
      returns (r: StartResult, retry: bool, ghost outcome: Outcome)
      requires Valid() && n in instances && !instances[n].resident && OnlyIdleStopped(before, View(), n)
      modifies Objects(), this`launches
      ensures launches == old(launches) + [outcome] && r == Told(outcome) && (retry ==> outcome == OutOfMemory)
      ensures OnlyIdleStopped(before, View(), n)
      ensures r == Done <==> instances[n].resident
      ensures r == Done ==> instances[n].lastUsed == now
      ensures r == LaunchFailed(true) && !retry ==> NoIdle(View(), n)
      ensures Others(View(), n) + (if retry then 1 else 0) == Others(old(View()), n)
    {
      ghost var top := View();
      var o := TryStartLocked(n, now);
      outcome := o;
      ghost var tried := View();
      FailedLaunch(top, tried, n);
      Compose(before, top, tried, n);
      if o.Healthy? { return Done, false, o; }
      if !o.OutOfMemory? { return LaunchFailed(false), false, o; }
      var stopped, victim := EvictOldestIdleLocked(n);
      AfterEviction(before, tried, View(), n, stopped, victim);
      return LaunchFailed(true), stopped, o;
    }

    /** The loop of `start` around tryStartLocked and evictOldestIdleLocked. It goes on only after a
        launch that ran out of memory, its last launch decides the result, and each retry has stopped
        exactly one other instance; so it ends. */
    method LaunchLoop(n: Name, now: Time) returns (r: StartResult, ghost log: seq<Outcome>)
      requires Valid() && n in instances && !instances[n].resident
      modifies Objects(), this`launches
      ensures launches == old(launches) + log && log != [] && TellsResult(log, r)
      ensures Others(old(View()), n) == Others(View(), n) + |log| - 1
      ensures OnlyIdleStopped(old(View()), View(), n)
      ensures r == Done <==> instances[n].resident
      ensures r == Done ==> instances[n].lastUsed == now
      ensures r == LaunchFailed(true) ==> NoIdle(View(), n)
    {
      ghost var before, left, total, was := View(), Others(View(), n), Others(View(), n), launches;
      log := [];
      assert Retried(was, log, was);
      while true
        invariant OnlyIdleStopped(before, View(), n) && !instances[n].resident
        invariant Retried(was, log, launches) && left == Others(View(), n) && left + |log| == total
        decreases left
      {
        var retry;
        ghost var outcome;
        ghost var all := launches;
        r, retry, outcome := Attempt(n, now, before);
        OneLaunchMore(was, log, all, outcome);
        log := log + [outcome];
        if !retry { return; }
        left := left - 1;
      }
    }

    /** `start` on an instance that is down, up to the lease. */
    method Launch(n: Name, exclusive: bool, now: Time) returns (r: StartResult, ghost log: seq<Outcome>)
      requires Valid() && n in instances && !instances[n].resident
      modifies Objects(), this`launches
      ensures r == Done || r == TooLarge || r == NoRoom || r.LaunchFailed?
      ensures launches == old(launches) + log && TellsResult(log, r)
      ensures OnlyIdleStopped(old(View()), View(), n)
      ensures r == Done <==> instances[n].resident
      ensures r == Done ==> instances[n].lastUsed == now
      ensures r == LaunchFailed(true) ==> NoIdle(View(), n)
      ensures !exclusive && 0 < limit && WithinLimit(Vram(), old(View()), limit) ==> WithinLimit(Vram(), View(), limit)
    {
      ghost var before, vram := View(), Vram();
      log := [];
      r := ClearTheWay(n, exclusive);
      ghost var cleared := View();
      if r == Done {
        r, log := LaunchLoop(n, now);
        Compose(before, cleared, View(), n);
      }
      if !exclusive && 0 < limit && WithinLimit(vram, before, limit) {
        if r == Done {
          Continue(vram, before, cleared, View(), n, limit, true);
        } else {
          StopsOnly(vram, before, View(), n);
        }
      }
    }

    /** The last section of `start`: the lease, and the idle watcher if there is none yet. */
    method Settle(n: Name, acquire: bool)
      requires Valid() && n in instances
      modifies instances[n]
      ensures View() == if acquire then AddActive(old(View()), n, 1) else old(View())
      ensures instances[n].idleTimeout > 0 ==> instances[n].watcherStarted
    {
      var inst := instances[n];
      if acquire { inst.active := inst.active + 1; }
      if inst.idleTimeout > 0 && !inst.watcherStarted { inst.watcherStarted := true; }
      assert forall m: Name :: m in instances && m != n ==> instances[m].Val() == old(instances[m].Val());
    }

    /** `start` on an instance that is already up. */
    method Renew(n: Name, acquire: bool, now: Time)
      requires Valid() && n in instances && instances[n].resident
      modifies instances[n]
      ensures View() == ResidencyMachine.Touch(if acquire then AddActive(old(View()), n, 1) else old(View()), n, now)
    {
      var inst := instances[n];
      inst.lastUsed := now;
      if acquire { inst.active := inst.active + 1; }
      assert forall m: Name :: m in instances && m != n ==> instances[m].Val() == old(instances[m].Val());
    }

    /** `start`. */
    method Start(n: Name, exclusive: bool, acquire: bool, now: Time) returns (r: StartResult, ghost log: seq<Outcome>)
      requires Valid()
      modifies Objects(), this`launches
      ensures r == Unknown <==> n !in instances
      ensures r == Unknown ==> View() == old(View())
      ensures launches == old(launches) + log
      ensures r != Unknown ==> if old(View())[n].resident then r == Done && log == [] else TellsResult(log, r)
      ensures r == Done ==> View()[n].lastUsed == now
      ensures r != Unknown ==> Leases(old(View()), View(), n, acquire && r == Done)
      ensures r != Unknown ==> (r == Done <==> View()[n].resident)
      ensures r == LaunchFailed(true) ==> NoIdle(View(), n)
      ensures !exclusive && 0 < limit && WithinLimit(Vram(), old(View()), limit) ==> WithinLimit(Vram(), View(), limit)
    {
      log := [];
      if n !in instances { return Unknown, []; }
      ghost var before := View();
      if instances[n].resident {
        Renew(n, acquire, now);
        SameResidents(before, View());
        return Done, [];
      }
      r, log := Launch(n, exclusive, now);
      assert Leases(before, View(), n, false);
      if r == Done {
        ghost var launched := View();
        Settle(n, acquire);
        SameResidents(launched, View());
      }
    }

    /** The function that Acquire returns, up to the release of execMu. */
    method Release(n: Name, now: Time)
      requires Valid()
      modifies Objects()
      ensures n !in instances ==> View() == old(View())
      ensures n in instances ==>
                View() == ResidencyMachine.Touch(if old(View())[n].active > 0 then AddActive(old(View()), n, -1)
                                                 else old(View()), n, now)
    {
      if n in instances {
        var inst := instances[n];
        if inst.active > 0 { inst.active := inst.active - 1; }
        inst.lastUsed := now;
        assert forall m: Name :: m in instances && m != n ==> instances[m].Val() == old(instances[m].Val());
      }
    }
  }
}
