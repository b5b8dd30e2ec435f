/** The word error rate of the benchmark script: the two-row edit distance against the shortest
    edit script. */
module EditDistance {
  import opened Basics

  function Min(a: int, b: int): int { if a <= b then a else b }

  function Max(a: int, b: int): int { if a >= b then a else b }

  /** Levenshtein's distance, from the ends of both sequences. */
  function Lev<T(==)>(a: seq<T>, b: seq<T>): nat
    decreases |a| + |b|
  {
    if |a| == 0 then |b|
    else if |b| == 0 then |a|
    else Min(Min(Lev(a, Front(b)), Lev(Front(a), b)) + 1,
             Lev(Front(a), Front(b)) + if Last(a) != Last(b) then 1 else 0)
  }

  // ---------- the algorithm ----------

  lemma PrefixStep<T>(s: seq<T>, k: nat)
    requires k < |s|
    ensures Front(s[..k+1]) == s[..k] && Last(s[..k+1]) == s[k]
  {}

  /** One cell of the table from its neighbours above, to the left and diagonally. */
  lemma Cell<T>(a: seq<T>, b: seq<T>, i: nat, j: nat)
    requires i < |a| && j < |b|
    ensures Lev(a[..i+1], b[..j+1]) ==
            Min(Min(Lev(a[..i+1], b[..j]) + 1, Lev(a[..i], b[..j+1]) + 1), Lev(a[..i], b[..j])
                + if a[i] != b[j] then 1 else 0)
  {
    PrefixStep(a, i);
    PrefixStep(b, j);
  }

  /** The row of the table for the first i items of the reference, up to column n. */
  ghost predicate Row<T(!new)>(row: seq<nat>, a: seq<T>, b: seq<T>, i: nat, n: nat)
    requires i <= |a| && n <= |b|
  {
    |row| == n + 1 && forall j :: 0 <= j <= n ==> row[j] == Lev(a[..i], b[..j])
  }

  lemma RowStarts<T(!new)>(a: seq<T>, b: seq<T>, i: nat)
    requires i <= |a|
    ensures Row([i], a, b, i, 0)
    ensures Row(seq(|b| + 1, j requires 0 <= j => j), a, b, 0, |b|)
  {
    assert a[..0] == [] && b[..0] == [];
  }

  lemma RowGrows<T(!new)>(row: seq<nat>, next: seq<nat>, a: seq<T>, b: seq<T>, i: nat, j: nat)
    requires i < |a| && j < |b| && Row(row, a, b, i, |b|) && Row(next, a, b, i + 1, j)
    ensures Row(next + [Min(Min(next[j] + 1, row[j+1] + 1), row[j] + if a[i] != b[j] then 1 else 0)], a, b, i + 1,
                j + 1)
  {
    Cell(a, b, i, j);
    assert row[j] == Lev(a[..i], b[..j]) && row[j+1] == Lev(a[..i], b[..j+1]) && next[j] == Lev(a[..i+1], b[..j]);
  }

  method EditDistance<T(!new, ==)>(reference: seq<T>, hypothesis: seq<T>) returns (distance: nat)
    ensures distance == Lev(reference, hypothesis)
  {
    var row: seq<nat> := seq(|hypothesis| + 1, j requires 0 <= j => j);
    RowStarts(reference, hypothesis, 0);
    for i := 0 to |reference|
      invariant Row(row, reference, hypothesis, i, |hypothesis|)
    {
      var nextRow: seq<nat> := [i + 1];
      RowStarts(reference, hypothesis, i + 1);
      for j := 0 to |hypothesis|
        invariant Row(nextRow, reference, hypothesis, i + 1, j)
      {
        RowGrows(row, nextRow, reference, hypothesis, i, j);
        nextRow := nextRow + [Min(Min(nextRow[|nextRow|-1] + 1, row[j+1] + 1),
                                  row[j] + if reference[i] != hypothesis[j] then 1 else 0)];
      }
      row := nextRow;
    }
    assert reference[..|reference|] == reference && hypothesis[..|hypothesis|] == hypothesis;
    return row[|row|-1];
  }

  // ---------- what the distance is ----------

  datatype Edit<T> = Keep(item: T) | Substitute(was: T, now: T) | Delete(gone: T) | Insert(added: T)

  function Read<T>(e: Edit<T>): seq<T> {
    match e
    case Keep(x) => [x]
    case Substitute(x, _) => [x]
    case Delete(x) => [x]
    case Insert(_) => []
  }

  function Written<T>(e: Edit<T>): seq<T> {
    match e
    case Keep(x) => [x]
    case Substitute(_, y) => [y]
    case Delete(_) => []
    case Insert(y) => [y]
  }

  /** The items that an edit script reads. */
  function Before<T>(script: seq<Edit<T>>): seq<T> {
    if |script| == 0 then [] else Before(Front(script)) + Read(Last(script))
  }

  /** The items that it writes. */
  function After<T>(script: seq<Edit<T>>): seq<T> {
    if |script| == 0 then [] else After(Front(script)) + Written(Last(script))
  }

  function Cost<T>(script: seq<Edit<T>>): nat {
    if |script| == 0 then 0 else Cost(Front(script)) + if Last(script).Keep? then 0 else 1
  }

  lemma Steps<T>(a: seq<T>, b: seq<T>, x: T, y: T)
    ensures Lev(a + [x], b) <= Lev(a, b) + 1
    ensures Lev(a, b + [y]) <= Lev(a, b) + 1
    ensures Lev(a + [x], b + [y]) <= Lev(a, b) + if x != y then 1 else 0
  {
    assert Front(a + [x]) == a && Front(b + [y]) == b;
  }

  /** No edit script is cheaper than the distance. */
  lemma {:induction false} NoCheaperScript<T>(script: seq<Edit<T>>)
    ensures Lev(Before(script), After(script)) <= Cost(script)
  {
    if script != [] {
      var s := Front(script);
      NoCheaperScript(s);
      var a, b := Before(s), After(s);
      match Last(script)
      case Keep(x) => Steps(a, b, x, x);
      case Substitute(x, y) => Steps(a, b, x, y);
      case Delete(x) => Steps(a, b, x, x); assert After(script) == b;
      case Insert(y) => Steps(a, b, y, y); assert Before(script) == a;
    }
  }

  lemma Extend<T>(s: seq<Edit<T>>, e: Edit<T>)
    ensures Before(s + [e]) == Before(s) + Read(e) && After(s + [e]) == After(s) + Written(e)
    ensures Cost(s + [e]) == Cost(s) + if e.Keep? then 0 else 1
  {
    assert Front(s + [e]) == s && Last(s + [e]) == e;
  }

  /** The last edit of a cheapest script. */
  function LastEdit<T(==)>(a: seq<T>, b: seq<T>): (e: Edit<T>)
    requires a != [] || b != []
    ensures e.Insert? ==> b != [] && b == Front(b) + [e.added] && Lev(a, b) == Lev(a, Front(b)) + 1
    ensures e.Delete? ==> a != [] && a == Front(a) + [e.gone] && Lev(a, b) == Lev(Front(a), b) + 1
    ensures e.Keep? || e.Substitute? ==>
              && a != [] && b != [] && a == Front(a) + Read(e) && b == Front(b) + Written(e)
              && Lev(a, b) == Lev(Front(a), Front(b)) + if e.Keep? then 0 else 1
  {
    if b != [] && (a == [] || Lev(a, b) == Lev(a, Front(b)) + 1) then Insert(Last(b))
    else if a != [] && (b == [] || Lev(a, b) == Lev(Front(a), b) + 1) then Delete(Last(a))
    else if Last(a) == Last(b) then Keep(Last(a)) else Substitute(Last(a), Last(b))
  }

  /** Some edit script costs exactly the distance. */
  lemma {:induction false} SomeScriptReaches<T>(a: seq<T>, b: seq<T>) returns (script: seq<Edit<T>>)
    ensures Before(script) == a && After(script) == b && Cost(script) == Lev(a, b)
    decreases |a| + |b|
  {
    if a == [] && b == [] { return []; }
    var e := LastEdit(a, b);
    var s;
    match e {
      case Insert(_) => s := SomeScriptReaches(a, Front(b));
      case Delete(_) => s := SomeScriptReaches(Front(a), b);
      case _ => s := SomeScriptReaches(Front(a), Front(b));
    }
    Extend(s, e);
    return s + [e];
  }

  // ---------- a metric ----------

  lemma {:induction false} Symmetric<T>(a: seq<T>, b: seq<T>)
    ensures Lev(a, b) == Lev(b, a)
    decreases |a| + |b|
  {
    if a != [] && b != [] {
      Symmetric(a, Front(b));
      Symmetric(Front(a), b);
      Symmetric(Front(a), Front(b));
    }
  }

  /** At least the difference of the lengths, at most the longer one. */
  lemma {:induction false} Bounds<T>(a: seq<T>, b: seq<T>)
    ensures Max(|a| - |b|, |b| - |a|) <= Lev(a, b) <= Max(|a|, |b|)
    decreases |a| + |b|
  {
    if a != [] && b != [] {
      Bounds(a, Front(b));
      Bounds(Front(a), b);
      Bounds(Front(a), Front(b));
    }
  }

  lemma {:induction false} ZeroIffEqual<T>(a: seq<T>, b: seq<T>)
    ensures Lev(a, b) == 0 <==> a == b
    decreases |a| + |b|
  {
    if a != [] && b != [] {
      ZeroIffEqual(Front(a), Front(b));
      assert a == Front(a) + [Last(a)] && b == Front(b) + [Last(b)];
    }
  }

  lemma {:induction false} Triangle<T>(a: seq<T>, b: seq<T>, c: seq<T>)
    ensures Lev(a, c) <= Lev(a, b) + Lev(b, c)
    decreases |a| + |b| + |c|
  {
    if a == [] || b == [] || c == [] {
      Bounds(a, b);
      Bounds(b, c);
      Bounds(a, c);
    } else if Lev(a, b) == Lev(Front(a), b) + 1 {
      Triangle(Front(a), b, c);
    } else if Lev(b, c) == Lev(b, Front(c)) + 1 {
      Triangle(a, b, Front(c));
    } else if Lev(a, b) == Lev(a, Front(b)) + 1 && Lev(b, c) == Lev(Front(b), c) + 1 {
      Triangle(a, Front(b), c);
    } else if Lev(a, b) == Lev(a, Front(b)) + 1 {
      Triangle(a, Front(b), Front(c));
    } else if Lev(b, c) == Lev(Front(b), c) + 1 {
      Triangle(Front(a), Front(b), c);
    } else {
      Triangle(Front(a), Front(b), Front(c));
    }
  }

  // ---------- the error rate ----------

  function ErrorRate<T(==)>(reference: seq<T>, hypothesis: seq<T>): real {
    Lev(reference, hypothesis) as real / Max(1, |reference|) as real
  }

  lemma Quotient(x: nat, d: nat)
    requires d > 0
    ensures x as real / d as real >= 0.0
    ensures x as real / d as real == 0.0 <==> x == 0
    ensures x as real / d as real <= 1.0 <==> x <= d
  {}

  lemma TimesItsDivisor(q: real, x: real, d: real)
    requires d > 0.0 && q == x / d
    ensures q * d == x
  {}

  /** The rate times the length of the reference, or times one if there is none, is the distance. */
  lemma RateOfDistance<T>(reference: seq<T>, hypothesis: seq<T>)
    ensures ErrorRate(reference, hypothesis) * Max(1, |reference|) as real == Lev(reference, hypothesis) as real
    ensures Max(1, |reference|) == if reference == [] then 1 else |reference|
  {
    TimesItsDivisor(ErrorRate(reference, hypothesis), Lev(reference, hypothesis) as real, Max(1, |reference|) as real);
  }

  /** The rate is zero only for a perfect transcript; it exceeds one exactly when more edits are
      needed than the reference has items, and never for a hypothesis that is not longer. */
  lemma ErrorRateMeaning<T>(reference: seq<T>, hypothesis: seq<T>)
    ensures ErrorRate(reference, hypothesis) == 0.0 <==> reference == hypothesis
    ensures 0 < |reference| && |hypothesis| <= |reference| ==> 0.0 <= ErrorRate(reference, hypothesis) <= 1.0
    ensures ErrorRate(reference, hypothesis) > 1.0 <==> Lev(reference, hypothesis) > Max(1, |reference|)
    ensures reference == [] ==> ErrorRate(reference, hypothesis) == |hypothesis| as real
  {
    Quotient(Lev(reference, hypothesis), Max(1, |reference|));
    ZeroIffEqual(reference, hypothesis);
    Bounds(reference, hypothesis);
  }
}
