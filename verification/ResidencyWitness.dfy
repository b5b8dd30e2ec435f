/** A run in which a start gives up for want of memory beside an idle instance: the lease is given
    back after the scan has met its instance and before the scan ends. */
module ResidencyWitness {
  import opened Basics
  import opened ResidencyMachine
  import opened ResidencyInvariants

  const A := Name(0)
  const B := Name(1)
  const T := Thread(0)
  const U := Thread(1)
  const CFG := Config(map[A := 0, B := 0], map[A := 0, B := 0], 0)

  function World(a: Inst, b: Inst, exec: Option<Thread>, start: Option<Thread>, t: Pc, u: Pc): State {
    State(CFG, map[A := a, B := b], exec, start, map[T := t, U := u])
  }

  lemma Puts(a: Inst, b: Inst, exec: Option<Thread>, start: Option<Thread>, t: Pc, u: Pc, pc: Pc, i: Inst)
    ensures var s := World(a, b, exec, start, t, u);
            && At(s, T, pc) == World(a, b, exec, start, pc, u) && At(s, U, pc) == World(a, b, exec, start, t, pc)
            && s.insts[A := i] == World(i, b, exec, start, t, u).insts
            && s.insts[B := i] == World(a, i, exec, start, t, u).insts
  {
    Replaced(T, U, t, u, pc);
    Replaced(A, B, a, b, i);
  }

  lemma Replaced<K, V>(x: K, y: K, a: V, b: V, c: V)
    requires x != y
    ensures map[x := a, y := b][x := c] == map[x := c, y := b] && map[x := a, y := b][y := c] == map[x := a, y := c]
  {}

  /** A run grows by one step. */
  lemma Grow(threads: set<Thread>, run: seq<State>, steps: seq<Step>, a: Step, u: State)
    requires IsRun(CFG, threads, run, steps) && Enabled(run[|run|-1], a) && u == Next(run[|run|-1], a)
    ensures IsRun(CFG, threads, run + [u], steps + [a])
  {
    var r, p := run + [u], steps + [a];
    forall i | 0 <= i < |p| ensures Enabled(r[i], p[i]) && r[i+1] == Next(r[i], p[i]) {
      if i < |steps| { assert p[i] == steps[i] && r[i] == run[i] && r[i+1] == run[i+1]; }
    }
  }

  const DOWN := Inst(false, 0, 0)

  function Turn(t: Thread, now: Time, outcome: Outcome): Step { Go(t, now, outcome, A, []) }

  /** T leases A. */
  lemma LaunchesA() returns (run: seq<State>, steps: seq<Step>)
    ensures IsRun(CFG, {T, U}, run, steps)
    ensures run[|run|-1] == World(Inst(true, 1, 1), DOWN, Some(T), None, Leased(A), Outside)
  {
    var s0 := World(DOWN, DOWN, None, None, Outside, Outside);
    run, steps := [s0], [];
    var s1 := World(DOWN, DOWN, None, None, WantExec(A), Outside);
    Puts(DOWN, DOWN, None, None, Outside, Outside, WantExec(A), DOWN);
    Grow({T, U}, run, steps, Begin(T, WantExec(A)), s1);
    run, steps := run + [s1], steps + [Begin(T, WantExec(A))];
    var s2 := World(DOWN, DOWN, Some(T), None, WantStart(A, false, true), Outside);
    Puts(DOWN, DOWN, Some(T), None, WantExec(A), Outside, WantStart(A, false, true), DOWN);
    Grow({T, U}, run, steps, Lock(T), s2);
    run, steps := run + [s2], steps + [Lock(T)];
    var s3 := World(DOWN, DOWN, Some(T), Some(T), Check(A, false, true), Outside);
    Puts(DOWN, DOWN, Some(T), Some(T), WantStart(A, false, true), Outside, Check(A, false, true), DOWN);
    Grow({T, U}, run, steps, Lock(T), s3);
    run, steps := run + [s3], steps + [Lock(T)];
    var s4 := World(DOWN, DOWN, Some(T), Some(T), Launch(A, true), Outside);
    Puts(DOWN, DOWN, Some(T), Some(T), Check(A, false, true), Outside, Launch(A, true), DOWN);
    Grow({T, U}, run, steps, Turn(T, 1, Healthy), s4);
    run, steps := run + [s4], steps + [Turn(T, 1, Healthy)];
    run, steps := LeasesA(run, steps);
  }

  lemma LeasesA(run0: seq<State>, steps0: seq<Step>) returns (run: seq<State>, steps: seq<Step>)
    requires IsRun(CFG, {T, U}, run0, steps0)
    requires run0[|run0|-1] == World(DOWN, DOWN, Some(T), Some(T), Launch(A, true), Outside)
    ensures IsRun(CFG, {T, U}, run, steps)
    ensures run[|run|-1] == World(Inst(true, 1, 1), DOWN, Some(T), None, Leased(A), Outside)
  {
    var s5 := World(Inst(true, 0, 1), DOWN, Some(T), Some(T), Started(A, true), Outside);
    Puts(DOWN, DOWN, Some(T), Some(T), Launch(A, true), Outside, Started(A, true), Inst(true, 0, 1));
    Puts(Inst(true, 0, 1), DOWN, Some(T), Some(T), Launch(A, true), Outside, Started(A, true), DOWN);
    Grow({T, U}, run0, steps0, Turn(T, 1, Healthy), s5);
    run, steps := run0 + [s5], steps0 + [Turn(T, 1, Healthy)];
    var s6 := World(Inst(true, 1, 1), DOWN, Some(T), None, Leased(A), Outside);
    Puts(Inst(true, 0, 1), DOWN, Some(T), Some(T), Started(A, true), Outside, Leased(A), Inst(true, 1, 1));
    Puts(Inst(true, 1, 1), DOWN, Some(T), None, Started(A, true), Outside, Leased(A), DOWN);
    Grow({T, U}, run, steps, Turn(T, 1, Healthy), s6);
    run, steps := run + [s6], steps + [Turn(T, 1, Healthy)];
  }

  /** U starts B, whose launch finds the memory full, and scans A. */
  lemma LaunchesB() returns (run: seq<State>, steps: seq<Step>)
    ensures IsRun(CFG, {T, U}, run, steps)
    ensures run[|run|-1] == World(Inst(true, 1, 1), DOWN, Some(T), Some(U), Leased(A), Launch(B, false))
  {
    var a := Inst(true, 1, 1);
    run, steps := LaunchesA();
    var s7 := World(a, DOWN, Some(T), None, Leased(A), WantStart(B, false, false));
    Puts(a, DOWN, Some(T), None, Leased(A), Outside, WantStart(B, false, false), a);
    Grow({T, U}, run, steps, Begin(U, WantStart(B, false, false)), s7);
    run, steps := run + [s7], steps + [Begin(U, WantStart(B, false, false))];
    var s8 := World(a, DOWN, Some(T), Some(U), Leased(A), Check(B, false, false));
    Puts(a, DOWN, Some(T), Some(U), Leased(A), WantStart(B, false, false), Check(B, false, false), a);
    Grow({T, U}, run, steps, Lock(U), s8);
    run, steps := run + [s8], steps + [Lock(U)];
    var s9 := World(a, DOWN, Some(T), Some(U), Leased(A), Launch(B, false));
    Puts(a, DOWN, Some(T), Some(U), Leased(A), Check(B, false, false), Launch(B, false), a);
    Grow({T, U}, run, steps, Turn(U, 2, OutOfMemory), s9);
    run, steps := run + [s9], steps + [Turn(U, 2, OutOfMemory)];
  }

  lemma MeetsA() returns (run: seq<State>, steps: seq<Step>)
    ensures IsRun(CFG, {T, U}, run, steps)
    ensures run[|run|-1] == World(Inst(true, 1, 1), Inst(false, 0, 2), Some(T), Some(U), Leased(A),
                                  FindVictim(B, false, {}, map[], {A}))
  {
    var a, b := Inst(true, 1, 1), Inst(false, 0, 2);
    run, steps := LaunchesB();
    var s9 := World(a, DOWN, Some(T), Some(U), Leased(A), Launch(B, false));
    var f10, f11 := FindVictim(B, false, {A}, map[], {}), FindVictim(B, false, {}, map[], {A});
    var s10 := World(a, b, Some(T), Some(U), Leased(A), f10);
    Puts(a, DOWN, Some(T), Some(U), Leased(A), Launch(B, false), f10, b);
    Puts(a, b, Some(T), Some(U), Leased(A), Launch(B, false), f10, b);
    assert s9.insts.Keys - {B} == {A};
    Grow({T, U}, run, steps, Turn(U, 2, OutOfMemory), s10);
    run, steps := run + [s10], steps + [Turn(U, 2, OutOfMemory)];
    var s11 := World(a, b, Some(T), Some(U), Leased(A), f11);
    Puts(a, b, Some(T), Some(U), Leased(A), f10, f11, a);
    assert {A} - {A} == {} && {} + {A} == {A};
    Grow({T, U}, run, steps, Turn(U, 2, OutOfMemory), s11);
    run, steps := run + [s11], steps + [Turn(U, 2, OutOfMemory)];
  }

  /** T gives the lease back, and only then does U's scan end: B fails although A is idle by now. */
  lemma GivesUpBesideIdle() returns (run: seq<State>, steps: seq<Step>, i: nat)
    ensures IsRun(CFG, {T, U}, run, steps) && i < |steps| && steps[i].Go? && steps[i].t == U
    ensures run[i].pc[U].FindVictim? && run[i+1].pc[U].Failed? && Up(run[i].insts, A) && run[i].insts[A].active == 0
  {
    var a, b, c := Inst(true, 1, 1), Inst(false, 0, 2), Inst(true, 0, 3);
    var f := FindVictim(B, false, {}, map[], {A});
    run, steps := MeetsA();
    var s12 := World(c, b, Some(T), Some(U), Released, f);
    Puts(a, b, Some(T), Some(U), Leased(A), f, Released, Inst(true, 0, 1));
    Puts(Inst(true, 0, 1), b, Some(T), Some(U), Leased(A), f, Released, c);
    Puts(c, b, Some(T), Some(U), Leased(A), f, Released, c);
    Grow({T, U}, run, steps, Turn(T, 3, Healthy), s12);
    run, steps := run + [s12], steps + [Turn(T, 3, Healthy)];
    i := |steps|;
    var s13 := World(c, b, Some(T), Some(U), Released, Failed(false));
    Puts(c, b, Some(T), Some(U), Released, f, Failed(false), c);
    Grow({T, U}, run, steps, Turn(U, 3, Healthy), s13);
    run, steps := run + [s13], steps + [Turn(U, 3, Healthy)];
  }
}
