/** The eviction loop of makeRoomLocked as a function, and what it amounts to. */
module ResidencyEviction {
  import opened ResidencyMachine

  // ---------- the eviction loop as a function ----------

  /** Walks `order` from candidate i, stopping idle residents until `need` fits; tells whether it
      ever did. */
  function Evict(vram: map<Name, int>, insts: Insts, order: seq<Name>, i: nat, used: int, need: int,
                 limit: int): (Insts, bool)
    decreases |order| - i
  {
    if i >= |order| || order[i] !in insts || order[i] !in vram then (insts, false)
    else if insts[order[i]].active != 0 then Evict(vram, insts, order, i + 1, used, need, limit)
    else
      var left := used - vram[order[i]];
      if left + need <= limit then (Stop(insts, order[i]), true)
      else Evict(vram, Stop(insts, order[i]), order, i + 1, left, need, limit)
  }

  /** Eviction candidates for `n`, least recently used first. */
  ghost predicate LruOrder(insts: Insts, n: Name, order: seq<Name>) {
    && (forall i :: 0 <= i < |order| ==> order[i] in insts && insts[order[i]].resident && order[i] != n)
    && (forall m :: m in insts && insts[m].resident && m != n ==> m in order)
    && (forall i, j :: 0 <= i < j < |order| ==>
        order[i] != order[j] && insts[order[i]].lastUsed <= insts[order[j]].lastUsed)
  }

  /** The least recently used resident other than n that nobody leases. */
  predicate OldestIdle(insts: Insts, n: Name, v: Name) {
    && v in insts && v != n && insts[v].resident && insts[v].active == 0
    && forall m ::
       m in insts && m != n && insts[m].resident && insts[m].active == 0 ==> insts[v].lastUsed <= insts[m].lastUsed
  }

  predicate NoIdle(insts: Insts, n: Name) {
    forall m :: m in insts && m != n && insts[m].resident ==> insts[m].active != 0
  }

  function IdleOf(insts: Insts, order: seq<Name>): (r: seq<Name>)
    requires forall n :: n in order ==> n in insts
    ensures forall n :: n in r <==> n in order && insts[n].active == 0
  {
    if order == [] then []
    else if insts[order[0]].active == 0 then [order[0]] + IdleOf(insts, order[1..]) else IdleOf(insts, order[1..])
  }

  function Total(vram: map<Name, int>, ns: seq<Name>): int
    requires forall n :: n in ns ==> n in vram
  {
    if ns == [] then 0 else vram[ns[0]] + Total(vram, ns[1..])
  }

  /** `b` is `a` with exactly the named instances stopped. */
  ghost predicate Stopped(a: Insts, b: Insts, ns: seq<Name>) {
    && (forall n :: n in a <==> n in b)
    && (forall n :: n in a ==> b[n] == if n in ns then a[n].(resident := false) else a[n])
  }

  predicate Distinct(ns: seq<Name>) { forall i, j :: 0 <= i < j < |ns| ==> ns[i] != ns[j] }

  lemma IdleSame(a: Insts, b: Insts, order: seq<Name>)
    requires forall n :: n in order ==> n in a && n in b && (a[n].active == 0 <==> b[n].active == 0)
    ensures IdleOf(a, order) == IdleOf(b, order)
  {}

  lemma TotalCons(vram: map<Name, int>, c: Name, tail: seq<Name>)
    requires c in vram && forall n :: n in tail ==> n in vram
    ensures forall j {:trigger tail[..j]} :: 0 <= j <= |tail| ==>
              ([c] + tail)[..j+1] == [c] + tail[..j]
                  && Total(vram, ([c] + tail)[..j+1]) == vram[c] + Total(vram, tail[..j])
  {
    forall j {:trigger tail[..j]} | 0 <= j <= |tail|
      ensures ([c] + tail)[..j+1] == [c] + tail[..j]
              && Total(vram, ([c] + tail)[..j+1]) == vram[c] + Total(vram, tail[..j])
    {
      assert ([c] + tail)[..j+1] == [c] + tail[..j];
      assert ([c] + tail[..j])[1..] == tail[..j];
    }
  }

  /** What the eviction loop has done when it stopped the first k of the idle candidates. */
  ghost predicate ShortestPrefix(vram: map<Name, int>, insts: Insts, after: Insts, ok: bool, idle: seq<Name>,
                                 used: int, need: int, limit: int, k: nat)
    requires forall n :: n in idle ==> n in vram
  {
    && k <= |idle| && Stopped(insts, after, idle[..k])
    && (ok ==> 0 < k && used - Total(vram, idle[..k]) + need <= limit)
    && (!ok ==> k == |idle| && (k > 0 ==> used - Total(vram, idle[..k]) + need > limit))
    && (forall j :: 0 < j < k ==> used - Total(vram, idle[..j]) + need > limit)
  }

  lemma PrefixCons(vram: map<Name, int>, insts: Insts, c: Name, tail: seq<Name>, after: Insts, ok: bool,
                   used: int, need: int, limit: int, m: nat)
    requires c in insts && c in vram && c !in tail && forall n :: n in tail ==> n in vram
    requires used - vram[c] + need > limit
    requires ShortestPrefix(vram, Stop(insts, c), after, ok, tail, used - vram[c], need, limit, m)
    ensures ShortestPrefix(vram, insts, after, ok, [c] + tail, used, need, limit, m + 1)
  {
    var idle := [c] + tail;
    TotalCons(vram, c, tail);
    assert idle[..m+1] == [c] + tail[..m];
    assert tail[..0] == [];
    forall j | 0 < j < m + 1 ensures used - Total(vram, idle[..j]) + need > limit {
      assert Total(vram, ([c] + tail)[..j-1+1]) == vram[c] + Total(vram, tail[..j-1]);
    }
    if m == 0 { assert Total(vram, tail[..m]) == 0; }
  }

  lemma DistinctTail(ns: seq<Name>)
    requires Distinct(ns) && ns != []
    ensures Distinct(ns[1..]) && ns[0] !in ns[1..]
  {}

  lemma PrefixOne(vram: map<Name, int>, insts: Insts, c: Name, tail: seq<Name>, used: int, need: int, limit: int)
    requires c in insts && c in vram && forall n :: n in tail ==> n in vram
    requires used - vram[c] + need <= limit
    ensures ShortestPrefix(vram, insts, Stop(insts, c), true, [c] + tail, used, need, limit, 1)
  {
    assert ([c] + tail)[..1] == [c];
    assert Total(vram, [c]) == vram[c];
  }

  /** One turn of the eviction loop. */
  lemma EvictTurn(vram: map<Name, int>, insts: Insts, order: seq<Name>, i: nat, used: int, need: int, limit: int,
                  after: Insts, stopped: bool)
    requires i < |order| && order[i] in insts && order[i] in vram
    requires stopped <==> insts[order[i]].active == 0
    requires after == if stopped then Stop(insts, order[i]) else insts
    ensures var left := if stopped then used - vram[order[i]] else used;
            Evict(vram, insts, order, i, used, need, limit) ==
            if stopped && left + need <= limit then (after, true)
              else Evict(vram, after, order, i + 1, left, need, limit)
  {}

  lemma IdleCons(insts: Insts, order: seq<Name>, i: nat)
    requires i < |order| && forall n :: n in order ==> n in insts
    ensures IdleOf(insts, order[i..]) ==
            if insts[order[i]].active == 0 then [order[i]] + IdleOf(insts, order[i+1..])
              else IdleOf(insts, order[i+1..])
  {
    assert order[i..][1..] == order[i+1..];
  }

  /** The idle candidates from i on, if the first is idle, and once it is stopped. */
  lemma IdleTail(insts: Insts, order: seq<Name>, i: nat)
    requires i < |order| && (forall n :: n in order ==> n in insts) && Distinct(order) && insts[order[i]].active == 0
    ensures var after, tail := Stop(insts, order[i]), IdleOf(insts, order[i+1..]);
            && (forall n :: n in order ==> n in after) && tail == IdleOf(after, order[i+1..])
            && IdleOf(insts, order[i..]) == [order[i]] + tail && order[i] !in tail
  {
    IdleCons(insts, order, i);
    IdleSame(insts, Stop(insts, order[i]), order[i+1..]);
  }

  /** A turn of the loop that makes room. */
  lemma LastTurn(vram: map<Name, int>, insts: Insts, order: seq<Name>, i: nat, used: int, need: int, limit: int)
    requires i < |order| && forall n :: n in order ==> n in insts && n in vram
    requires insts[order[i]].active == 0 && used - vram[order[i]] + need <= limit
    ensures var end := Evict(vram, insts, order, i, used, need, limit);
            ShortestPrefix(vram, insts, end.0, end.1, IdleOf(insts, order[i..]), used, need, limit, 1)
  {
    IdleCons(insts, order, i);
    EvictTurn(vram, insts, order, i, used, need, limit, Stop(insts, order[i]), true);
    PrefixOne(vram, insts, order[i], IdleOf(insts, order[i+1..]), used, need, limit);
  }

  /** A turn of the loop that stops a candidate and goes on to stop m more. */
  lemma StoppedFirst(vram: map<Name, int>, insts: Insts, order: seq<Name>, i: nat, used: int, need: int, limit: int,
                     m: nat)
    requires i < |order| && (forall n :: n in order ==> n in insts && n in vram) && Distinct(order)
    requires insts[order[i]].active == 0 && used - vram[order[i]] + need > limit
    requires var after, left := Stop(insts, order[i]), used - vram[order[i]];
             var end := Evict(vram, after, order, i + 1, left, need, limit);
             ShortestPrefix(vram, after, end.0, end.1, IdleOf(insts, order[i+1..]), left, need, limit, m)
    ensures var end := Evict(vram, insts, order, i, used, need, limit);
            ShortestPrefix(vram, insts, end.0, end.1, IdleOf(insts, order[i..]), used, need, limit, m + 1)
  {
    var c, end := order[i], Evict(vram, insts, order, i, used, need, limit);
    IdleTail(insts, order, i);
    EvictTurn(vram, insts, order, i, used, need, limit, Stop(insts, c), true);
    PrefixCons(vram, insts, c, IdleOf(insts, order[i+1..]), end.0, end.1, used, need, limit, m);
  }

  /** The eviction loop stops the shortest prefix, in LRU order, of the idle residents that makes
      room; if none does, it has stopped all of them. `k` is how many it stops. */
  lemma {:induction false} EvictsShortestPrefix(vram: map<Name, int>, insts: Insts, order: seq<Name>, i: nat,
                                                used: int, need: int, limit: int)
    returns (k: nat)
    requires i <= |order| && (forall n :: n in order ==> n in insts && n in vram) && Distinct(order)
    ensures var end := Evict(vram, insts, order, i, used, need, limit);
            ShortestPrefix(vram, insts, end.0, end.1, IdleOf(insts, order[i..]), used, need, limit, k)
    decreases |order| - i
  {
    if i == |order| {
      k := 0;
    } else if insts[order[i]].active != 0 {
      IdleCons(insts, order, i);
      EvictTurn(vram, insts, order, i, used, need, limit, insts, false);
      k := EvictsShortestPrefix(vram, insts, order, i + 1, used, need, limit);
    } else if used - vram[order[i]] + need <= limit {
      k := 1;
      LastTurn(vram, insts, order, i, used, need, limit);
    } else {
      var m := EvictsShortestPrefix(vram, Stop(insts, order[i]), order, i + 1, used - vram[order[i]], need, limit);
      IdleTail(insts, order, i);
      StoppedFirst(vram, insts, order, i, used, need, limit, m);
      k := m + 1;
    }
  }

  // ---------- instances without memory cost ----------

  lemma {:induction false} TotalGrows(vram: map<Name, int>, ns: seq<Name>, j: nat, k: nat)
    requires j <= k <= |ns| && forall n :: n in ns ==> n in vram && vram[n] >= 0
    ensures Total(vram, ns[..j]) <= Total(vram, ns[..k])
  {
    if j > 0 {
      assert ns[..j][1..] == ns[1..][..j-1] && ns[..k][1..] == ns[1..][..k-1];
      TotalGrows(vram, ns[1..], j - 1, k - 1);
    } else if k > 0 {
      assert ns[..k][1..] == ns[1..][..k-1];
      TotalGrows(vram, ns[1..], 0, k - 1);
    }
  }

  lemma {:induction false} TotalNext(vram: map<Name, int>, ns: seq<Name>, j: nat)
    requires j < |ns| && forall n :: n in ns ==> n in vram
    ensures Total(vram, ns[..j+1]) == Total(vram, ns[..j]) + vram[ns[j]]
  {
    assert ns[..j+1][1..] == ns[1..][..j];
    if j > 0 {
      assert ns[..j][1..] == ns[1..][..j-1];
      TotalNext(vram, ns[1..], j - 1);
    }
  }

  /** Which idle residents the loop stops: exactly those before which there is not yet room. */
  lemma StopsUntilRoom(vram: map<Name, int>, insts: Insts, order: seq<Name>, used: int, need: int, limit: int, j: nat)
    requires (forall n :: n in order ==> n in insts && insts[n].resident && n in vram && vram[n] >= 0)
             && Distinct(order)
    requires used + need > limit && j < |IdleOf(insts, order)|
    ensures var idle, after := IdleOf(insts, order), Evict(vram, insts, order, 0, used, need, limit).0;
            idle[j] in after && (!after[idle[j]].resident <==> used - Total(vram, idle[..j]) + need > limit)
  {
    var idle := IdleOf(insts, order);
    assert order[0..] == order;
    var k := EvictsShortestPrefix(vram, insts, order, 0, used, need, limit);
    IdleDistinct(insts, order);
    assert idle[j] in idle;
    if j < k {
      assert idle[j] == idle[..k][j];
      assert idle[..0] == [];
    } else {
      assert idle[j] !in idle[..k];
      TotalGrows(vram, idle, k, j);
    }
  }

  /** An idle resident without memory cost is stopped like any other, although that frees nothing:
      exactly if those before it make no room. A success then needs another victim after it. */
  lemma ZeroCostIsStopped(vram: map<Name, int>, insts: Insts, order: seq<Name>, used: int, need: int, limit: int,
                          j: nat)
    requires (forall n :: n in order ==> n in insts && insts[n].resident && n in vram && vram[n] >= 0)
             && Distinct(order)
    requires used + need > limit && j < |IdleOf(insts, order)| && vram[IdleOf(insts, order)[j]] == 0
    ensures var idle, end := IdleOf(insts, order), Evict(vram, insts, order, 0, used, need, limit);
            && idle[j] in end.0 && (!end.0[idle[j]].resident <==> used - Total(vram, idle[..j]) + need > limit)
            && (!end.0[idle[j]].resident && end.1
                ==> j + 1 < |idle| && idle[j+1] in end.0 && !end.0[idle[j+1]].resident)
  {
    var idle, end := IdleOf(insts, order), Evict(vram, insts, order, 0, used, need, limit);
    StopsUntilRoom(vram, insts, order, used, need, limit, j);
    TotalNext(vram, idle, j);
    if !end.0[idle[j]].resident && end.1 {
      assert order[0..] == order;
      var k := EvictsShortestPrefix(vram, insts, order, 0, used, need, limit);
      if k <= j { TotalGrows(vram, idle, k, j); }
      assert j + 1 < k;
      StopsUntilRoom(vram, insts, order, used, need, limit, j + 1);
    }
  }

  /** A model registered without memory cost that is evicted, with the one that makes room. */
  lemma ZeroCostWitness(free: Name, large: Name)
    requires free != large
    ensures var vram, insts := map[free := 0, large := 5], map[free := Inst(true, 0, 1), large := Inst(true, 0, 2)];
            Evict(vram, insts, [free, large], 0, 5, 5, 5) == (Stop(Stop(insts, free), large), true)
  {}

  lemma {:induction false} TotalIsSum(vram: map<Name, int>, ns: seq<Name>)
    requires Distinct(ns) && forall n :: n in ns ==> n in vram
    ensures Total(vram, ns) == Sum(vram, set n | n in ns)
  {
    if ns != [] {
      DistinctTail(ns);
      TotalIsSum(vram, ns[1..]);
      var s := set n | n in ns;
      assert s - {ns[0]} == set n | n in ns[1..];
      SumMinus(vram, s, ns[0]);
    }
  }

  /** The sum over what is done, when one more of the rest is. */
  lemma SumOneMore(vram: map<Name, int>, all: set<Name>, rest: set<Name>, n: Name)
    requires n in rest && forall m :: m in all ==> m in vram
    ensures Sum(vram, all - (rest - {n})) == Sum(vram, all - rest) + if n in all then vram[n] else 0
  {
    if n in all {
      assert all - (rest - {n}) - {n} == all - rest;
      SumMinus(vram, all - (rest - {n}), n);
    } else {
      assert all - (rest - {n}) == all - rest;
    }
  }

  lemma {:induction false} SumSplit(vram: map<Name, int>, a: set<Name>, b: set<Name>)
    requires a <= b && forall n :: n in b ==> n in vram
    ensures Sum(vram, b) == Sum(vram, a) + Sum(vram, b - a)
    decreases a
  {
    if a == {} {
      assert b - a == b;
    } else {
      var n :| n in a;
      SumMinus(vram, a, n);
      SumMinus(vram, b, n);
      SumSplit(vram, a - {n}, b - {n});
      assert b - {n} - (a - {n}) == b - a;
    }
  }

  lemma IdleDistinct(insts: Insts, order: seq<Name>)
    requires Distinct(order) && forall n :: n in order ==> n in insts
    ensures Distinct(IdleOf(insts, order))
  {
    if order != [] { DistinctTail(order); IdleDistinct(insts, order[1..]); }
  }

  /** Other residents under lease. */
  function LeasedOthers(insts: Insts, n: Name): set<Name> {
    set m | m in insts && insts[m].resident && m != n && insts[m].active != 0
  }

  /** makeRoomLocked refuses only when the leased residents and the request exceed the limit. */
  lemma RefusesOnlyForLeases(vram: map<Name, int>, insts: Insts, n: Name, order: seq<Name>, used: int, need: int,
                             limit: int)
    requires (forall m :: m in insts ==> m in vram) && LruOrder(insts, n, order)
    requires used == Sum(vram, Residents(insts) - {n}) && used + need > limit
    requires !Evict(vram, insts, order, 0, used, need, limit).1
    ensures Sum(vram, LeasedOthers(insts, n)) + need > limit
  {
    var k := EvictsShortestPrefix(vram, insts, order, 0, used, need, limit);
    assert order[0..] == order;
    IdleAndLeased(vram, insts, n, order);
    var idle := IdleOf(insts, order);
    assert idle[..|idle|] == idle;
  }

  /** The idle candidates and the leased ones make up all other residents. */
  lemma IdleAndLeased(vram: map<Name, int>, insts: Insts, n: Name, order: seq<Name>)
    requires (forall m :: m in insts ==> m in vram) && LruOrder(insts, n, order)
    ensures Sum(vram, Residents(insts) - {n}) == Total(vram, IdleOf(insts, order)) + Sum(vram, LeasedOthers(insts, n))
  {
    var idle := IdleOf(insts, order);
    IdleDistinct(insts, order);
    TotalIsSum(vram, idle);
    var all, free := Residents(insts) - {n}, set m | m in idle;
    assert free <= all && all - free == LeasedOthers(insts, n);
    SumSplit(vram, free, all);
  }

  // ---------- what one start may do ----------

  /** Between two states of a start of n: only residents that nobody leases, other than n, were
      stopped; nothing else about other instances, and no `active` at all, has changed. */
  ghost predicate OnlyIdleStopped(a: Insts, b: Insts, n: Name) {
    && (forall m :: m in a <==> m in b)
    && (forall m :: m in a ==> b[m].active == a[m].active)
    && (forall m :: m in a && m != n ==> b[m] == a[m] || (a[m].active == 0 && b[m] == a[m].(resident := false)))
  }

  lemma {:induction false} EvictStopsIdle(vram: map<Name, int>, insts: Insts, order: seq<Name>, i: nat,
                                          used: int, need: int, limit: int, n: Name)
    requires forall j :: 0 <= j < |order| ==> order[j] != n
    ensures OnlyIdleStopped(insts, Evict(vram, insts, order, i, used, need, limit).0, n)
    ensures n in insts ==> Evict(vram, insts, order, i, used, need, limit).0[n] == insts[n]
    decreases |order| - i
  {
    if i >= |order| || order[i] !in insts || order[i] !in vram {
    } else if insts[order[i]].active != 0 {
      EvictStopsIdle(vram, insts, order, i + 1, used, need, limit, n);
    } else if used - vram[order[i]] + need > limit {
      EvictStopsIdle(vram, Stop(insts, order[i]), order, i + 1, used - vram[order[i]], need, limit, n);
    }
  }

  lemma Compose(a: Insts, b: Insts, c: Insts, n: Name)
    requires OnlyIdleStopped(a, b, n) && OnlyIdleStopped(b, c, n)
    ensures OnlyIdleStopped(a, c, n)
  {}

  /** After a successful eviction the estimates of the others leave room for the request. */
  lemma {:induction false} EvictFits(vram: map<Name, int>, insts: Insts, order: seq<Name>, i: nat, need: int,
                                     limit: int, n: Name)
    requires (forall m :: m in insts ==> m in vram && vram[m] >= 0) && Distinct(order)
    requires forall j :: i <= j < |order| ==> order[j] in insts && order[j] != n && insts[order[j]].resident
    requires Evict(vram, insts, order, i, Sum(vram, Residents(insts) - {n}), need, limit).1
    ensures var after := Evict(vram, insts, order, i, Sum(vram, Residents(insts) - {n}), need, limit).0;
            (forall m :: m in after ==> m in vram) && Sum(vram, Residents(after) - {n}) + need <= limit
    decreases |order| - i
  {
    var used := Sum(vram, Residents(insts) - {n});
    var c := order[i];
    if insts[c].active != 0 {
      EvictFits(vram, insts, order, i + 1, need, limit, n);
    } else {
      var next := Stop(insts, c);
      assert Residents(next) - {n} == Residents(insts) - {n} - {c};
      SumMinus(vram, Residents(insts) - {n}, c);
      if used - vram[c] + need > limit {
        EvictFits(vram, next, order, i + 1, need, limit, n);
      }
    }
  }

  lemma {:induction false} SumMono(vram: map<Name, int>, a: set<Name>, b: set<Name>)
    requires a <= b && forall m :: m in b ==> m in vram && vram[m] >= 0
    ensures Sum(vram, a) <= Sum(vram, b)
  {
    SumSplit(vram, a, b);
    SumNat(vram, b - a);
  }

  /** n can be launched beside the other residents. */
  ghost predicate Fits(vram: map<Name, int>, insts: Insts, n: Name, limit: int)
    requires (forall m :: m in insts ==> m in vram) && n in vram
  {
    Sum(vram, Residents(insts) - {n}) + vram[n] <= limit
  }

  lemma FitsAfterStops(vram: map<Name, int>, a: Insts, b: Insts, n: Name, limit: int)
    requires (forall m :: m in a ==> m in vram && vram[m] >= 0) && n in vram
    requires OnlyIdleStopped(a, b, n) && Fits(vram, a, n, limit)
    ensures (forall m :: m in b ==> m in vram) && Fits(vram, b, n, limit)
  {
    assert Residents(b) - {n} <= Residents(a) - {n};
    SumMono(vram, Residents(b) - {n}, Residents(a) - {n});
  }

  /** Launching what fits stays within the limit. */
  lemma FitsIsEnough(vram: map<Name, int>, insts: Insts, n: Name, limit: int)
    requires (forall m :: m in insts ==> m in vram && vram[m] >= 0) && n in insts && Fits(vram, insts, n, limit)
    ensures Sum(vram, Residents(insts)) <= limit
  {
    if n in Residents(insts) {
      SumMinus(vram, Residents(insts), n);
    } else {
      assert Residents(insts) - {n} == Residents(insts);
    }
  }

  /** The next state of the same start: what was stopped before and since, and what still fits. */
  lemma Continue(vram: map<Name, int>, a: Insts, b: Insts, c: Insts, n: Name, limit: int, budget: bool)
    requires (forall m :: m in a ==> m in vram && vram[m] >= 0) && n in a
    requires OnlyIdleStopped(a, b, n) && OnlyIdleStopped(b, c, n)
    requires budget ==> Fits(vram, b, n, limit)
    ensures OnlyIdleStopped(a, c, n)
    ensures budget ==> Fits(vram, c, n, limit) && Sum(vram, Residents(c)) <= limit
  {
    if budget {
      FitsAfterStops(vram, b, c, n, limit);
      FitsIsEnough(vram, c, n, limit);
    }
  }

  /** How many other instances are up. */
  ghost function Others(insts: Insts, n: Name): nat { |Residents(insts) - {n}| }

  /** A launch of n that fails. */
  lemma FailedLaunch(top: Insts, tried: Insts, n: Name)
    requires (forall m :: m in top <==> m in tried) && forall m :: m in top && m != n ==> tried[m] == top[m]
    requires n in top ==> tried[n].active == top[n].active
    ensures OnlyIdleStopped(top, tried, n) && Others(tried, n) == Others(top, n)
  {
    assert Residents(tried) - {n} == Residents(top) - {n};
  }

  /** A retry: one other resident fewer. */
  lemma RetryStops(tried: Insts, n: Name, v: Name)
    requires OldestIdle(tried, n, v)
    ensures OnlyIdleStopped(tried, Stop(tried, v), n)
    ensures Others(Stop(tried, v), n) + 1 == Others(tried, n)
  {
    assert Residents(Stop(tried, v)) - {n} == Residents(tried) - {n} - {v};
  }

  lemma AfterEviction(before: Insts, tried: Insts, after: Insts, n: Name, stopped: bool, victim: Name)
    requires n in tried && OnlyIdleStopped(before, tried, n)
    requires if stopped then OldestIdle(tried, n, victim) && after == Stop(tried, victim) else after == tried
    ensures OnlyIdleStopped(before, after, n) && n in after && after[n] == tried[n]
    ensures Others(after, n) + (if stopped then 1 else 0) == Others(tried, n)
  {
    if stopped {
      RetryStops(tried, n, victim);
      Compose(before, tried, after, n);
    }
  }

  lemma StopsOnly(vram: map<Name, int>, a: Insts, b: Insts, n: Name)
    requires (forall m :: m in a ==> m in vram && vram[m] >= 0) && OnlyIdleStopped(a, b, n)
    requires n in b ==> !b[n].resident
    ensures Sum(vram, Residents(b)) <= Sum(vram, Residents(a))
  {
    assert Residents(b) <= Residents(a);
    SumMono(vram, Residents(b), Residents(a));
  }
}
