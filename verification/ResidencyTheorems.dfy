/** What the residency manager promises in every run. */
module ResidencyTheorems {
  import opened Basics
  import opened ResidencyMachine
  import opened ResidencyInvariants

  // ---------- leases ----------

  /** At most one lease is out. While it is, its instance is resident with `active` one, and every
      other instance has `active` zero; otherwise all are zero. */
  lemma OneLease(cfg: Config, threads: set<Thread>, run: seq<State>, steps: seq<Step>, i: nat, t: Thread, u: Thread)
    requires IsRun(cfg, threads, run, steps) && i < |run|
    ensures var s := run[i];
            && (t in s.pc && u in s.pc && s.pc[t].Leased? && s.pc[u].Leased? ==> t == u)
            && (t in s.pc && s.pc[t].Leased? ==>
                  && s.pc[t].name in s.insts && s.insts[s.pc[t].name].resident
                  && (forall n :: n in s.insts ==> s.insts[n].active == if n == s.pc[t].name then 1 else 0))
            && ((forall v :: v in s.pc ==> !s.pc[v].Leased?) ==> forall n :: n in s.insts ==> s.insts[n].active == 0)
  {
    RunInv(cfg, threads, run, steps, i);
    var s := run[i];
    if t in s.pc && s.pc[t].Leased? { assert Lease(s) == Some(s.pc[t].name); }
  }

  /** No step of any thread stops an instance under lease. */
  lemma LeasedIsNeverStopped(s: State, a: Step, n: Name)
    requires Inv(s) && Enabled(s, a) && n in s.insts && s.insts[n].active > 0
    ensures n in Next(s, a).insts && s.insts[n].resident && Next(s, a).insts[n].resident
  {
    if a.Go? {
      assert Knows(s.insts, s.pc[a.t]);
      assert s.pc[a.t].StopAll? ==> Lease(s) == None;
    }
  }
}
