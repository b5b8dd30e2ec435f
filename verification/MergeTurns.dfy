/** The diarization sweep: speaker turns become segments with speaker sets. */
module MergeTurns {
  import opened Basics

  /** Speaker identifiers, numbered in string order. */
  type Speaker = int

  datatype Turn = Turn(start: int, end: int, speaker: Speaker)

  datatype Segment = Segment(startMs: int, endMs: int, speakers: seq<Speaker>, overlap: bool)

  // ---------- sorting and duplicates ----------

  predicate Ascending(s: seq<int>) { forall i, j :: 0 <= i < j < |s| ==> s[i] <= s[j] }

  predicate Increasing(s: seq<int>) { forall i, j :: 0 <= i < j < |s| ==> s[i] < s[j] }

  function Insert(x: int, s: seq<int>): (r: seq<int>)
    ensures |r| == |s| + 1
  {
    if |s| == 0 || Last(s) <= x then s + [x] else Insert(x, Front(s)) + [Last(s)]
  }

  /** sort.Slice and sort.Strings. */
  function Sort(s: seq<int>): (r: seq<int>)
    ensures |r| == |s|
  {
    if |s| == 0 then [] else Insert(Last(s), Sort(Front(s)))
  }

  lemma {:induction false} InsertAscends(x: int, s: seq<int>)
    requires Ascending(s)
    ensures Ascending(Insert(x, s)) && Last(Insert(x, s)) == if |s| > 0 && Last(s) > x then Last(s) else x
  {
    if |s| > 0 && Last(s) > x {
      InsertAscends(x, Front(s));
      AscendsPlus(Insert(x, Front(s)), Last(s));
    } else {
      AscendsPlus(s, x);
    }
  }

  lemma AscendsPlus(s: seq<int>, x: int)
    requires Ascending(s) && (|s| > 0 ==> Last(s) <= x)
    ensures Ascending(s + [x])
  {}

  lemma {:induction false} InsertKeeps(x: int, s: seq<int>)
    ensures multiset(Insert(x, s)) == multiset(s) + multiset{x}
  {
    if |s| > 0 && Last(s) > x {
      InsertKeeps(x, Front(s));
      assert s == Front(s) + [Last(s)];
    }
  }

  lemma {:induction false} SortAscends(s: seq<int>)
    ensures Ascending(Sort(s))
  {
    if |s| > 0 {
      SortAscends(Front(s));
      InsertAscends(Last(s), Sort(Front(s)));
    }
  }

  lemma {:induction false} SortKeeps(s: seq<int>)
    ensures multiset(Sort(s)) == multiset(s)
  {
    if |s| > 0 {
      SortKeeps(Front(s));
      InsertKeeps(Last(s), Sort(Front(s)));
      assert s == Front(s) + [Last(s)];
    }
  }

  /** Without repetitions of neighbours. */
  function Dedup(s: seq<int>): (r: seq<int>)
    ensures |s| > 0 ==> |r| > 0 && Last(r) == Last(s)
    ensures |r| <= |s|
  {
    if |s| == 0 then []
    else
      var r := Dedup(Front(s));
      if |r| == 0 || Last(r) != Last(s) then r + [Last(s)] else r
  }

  lemma {:induction false} DedupIncreases(s: seq<int>)
    requires Ascending(s)
    ensures Increasing(Dedup(s))
  {
    if |s| > 0 {
      var front, r := Front(s), Dedup(Front(s));
      DedupIncreases(front);
      if |r| > 0 { assert Last(r) == Last(front) == s[|s|-2] <= Last(s); }
    }
  }

  lemma {:induction false} DedupKeeps(s: seq<int>)
    ensures forall x: int :: x in Dedup(s) <==> x in s
  {
    if |s| > 0 {
      DedupKeeps(Front(s));
      assert s == Front(s) + [Last(s)];
    }
  }

  lemma SortedSet(s: seq<int>)
    ensures Increasing(Dedup(Sort(s)))
    ensures forall x: int :: x in Dedup(Sort(s)) <==> x in s
  {
    SortAscends(s);
    SortKeeps(s);
    DedupIncreases(Sort(s));
    DedupKeeps(Sort(s));
    forall x: int ensures x in Sort(s) <==> x in s {
      assert x in Sort(s) <==> x in multiset(Sort(s));
      assert x in s <==> x in multiset(s);
    }
  }

  /** uniqueStrings, and the same loop over the boundaries: compacts the slice in place. */
  method UniqueInPlace(a: array<int>) returns (n: nat)
    modifies a
    ensures n <= a.Length && a[..n] == Dedup(old(a[..]))
  {
    ghost var was := a[..];
    n := 0;
    for i := 0 to a.Length
      invariant n <= i && a[..n] == Dedup(was[..i]) && a[i..] == was[i..]
    {
      var value := a[i];
      assert value == was[i..][0] && a[i..][1..] == a[i+1..] && was[i..][1..] == was[i+1..];
      assert Front(was[..i+1]) == was[..i] && Last(was[..i+1]) == value;
      if n == 0 || a[n-1] != value {
        ghost var kept, rest := a[..n], a[i+1..];
        a[n] := value;
        n := n + 1;
        assert a[..n] == kept + [value] && a[i+1..] == rest;
      }
    }
    assert was[..a.Length] == was;
  }

  // ---------- the sweep as a function ----------

  function Bounds(turns: seq<Turn>): seq<int> {
    if |turns| == 0 then []
    else Bounds(Front(turns)) + if Last(turns).end > Last(turns).start then [Last(turns).start, Last(turns).end] else []
  }

  /** All beginnings and ends of turns, in order. */
  function Cuts(turns: seq<Turn>): seq<int> { Dedup(Sort(Bounds(turns))) }

  predicate Overlaps(t: Turn, start: int, end: int) { t.start < end && t.end > start }

  function Active(turns: seq<Turn>, start: int, end: int): seq<Speaker> {
    if |turns| == 0 then []
    else Active(Front(turns), start, end) + if Overlaps(Last(turns), start, end) then [Last(turns).speaker] else []
  }

  function Names(turns: seq<Turn>, start: int, end: int): seq<Speaker> { Dedup(Sort(Active(turns, start, end))) }

  /** Milliseconds of a sample; Go's division truncates toward zero. */
  function Ms(sample: int, rate: int): int
    requires rate > 0
  {
    var scaled := sample * 1000;
    var q: int := Quotient(if scaled >= 0 then scaled else -scaled, rate);
    if scaled >= 0 then q else -q
  }

  function Quotient(a: nat, d: nat): nat
    requires d > 0
  {
    a / d
  }

  /** Extends the last segment if the new one meets it with the same speakers. */
  function Add(segments: seq<Segment>, s: Segment): seq<Segment> {
    if |segments| > 0 && Last(segments).endMs == s.startMs && Last(segments).speakers == s.speakers
    then Front(segments) + [Last(segments).(endMs := s.endMs)]
    else segments + [s]
  }

  /** The speakers of the first n intervals between neighbouring cuts. */
  function AllNames(turns: seq<Turn>, cuts: seq<int>, n: nat): (r: seq<seq<Speaker>>)
    requires n == 0 || n < |cuts|
    ensures |r| == n
  {
    if n == 0 then [] else AllNames(turns, cuts, n - 1) + [Names(turns, cuts[n-1], cuts[n])]
  }

  lemma {:induction false} NamesAt(turns: seq<Turn>, cuts: seq<int>, n: nat, i: nat)
    requires i < n < |cuts|
    ensures AllNames(turns, cuts, n)[i] == Names(turns, cuts[i], cuts[i+1])
  {
    if i < n - 1 { NamesAt(turns, cuts, n - 1, i); }
  }

  function Piece(names: seq<Speaker>, start: int, end: int, rate: int): Segment
    requires rate > 0
  {
    Segment(Ms(start, rate), Ms(end, rate), names, |names| > 1)
  }

  /** The segments of the intervals, before they are joined. */
  function Pieces(names: seq<seq<Speaker>>, cuts: seq<int>, rate: int): (r: seq<Segment>)
    requires rate > 0 && (|names| == 0 || |names| < |cuts|)
    ensures |r| == |names|
    ensures forall i :: 0 <= i < |r| ==> r[i] == Piece(names[i], cuts[i], cuts[i+1], rate)
  {
    seq(|names|, i requires 0 <= i < |names| => Piece(names[i], cuts[i], cuts[i+1], rate))
  }

  /** The segments after the first n pieces; a piece without speakers adds nothing. */
  function Sweep(pieces: seq<Segment>, n: nat): seq<Segment>
    requires n <= |pieces|
  {
    if n == 0 then []
    else
      var before := Sweep(pieces, n - 1);
      if |pieces[n-1].speakers| == 0 then before else Add(before, pieces[n-1])
  }

  function Joined(names: seq<seq<Speaker>>, cuts: seq<int>, rate: int): seq<Segment>
    requires rate > 0 && (|names| == 0 || |names| < |cuts|)
  {
    Sweep(Pieces(names, cuts, rate), |names|)
  }

  function Merged(turns: seq<Turn>, rate: int): seq<Segment> {
    if rate <= 0 || |turns| == 0 then []
    else
      var cuts := Cuts(turns);
      Joined(AllNames(turns, cuts, if |cuts| == 0 then 0 else |cuts| - 1), cuts, rate)
  }

  // ---------- the algorithm ----------

  method Overlapping(turns: seq<Turn>, start: int, end: int) returns (speakers: seq<Speaker>)
    ensures speakers == Active(turns, start, end)
  {
    speakers := [];
    for i := 0 to |turns|
      invariant speakers == Active(turns[..i], start, end)
    {
      assert Front(turns[..i+1]) == turns[..i];
      if turns[i].start < end && turns[i].end > start {
        speakers := speakers + [turns[i].speaker];
      }
    }
    assert turns[..|turns|] == turns;
  }

  method SortedUnique(values: seq<int>) returns (r: seq<int>)
    ensures r == Dedup(Sort(values))
  {
    var sorted := Sort(values);
    var a := new int[|sorted|](i requires 0 <= i < |sorted| => sorted[i]);
    assert a[..] == sorted;
    var n := UniqueInPlace(a);
    return a[..n];
  }

  method Boundaries(turns: seq<Turn>) returns (boundaries: seq<int>)
    ensures boundaries == Bounds(turns)
  {
    boundaries := [];
    for i := 0 to |turns|
      invariant boundaries == Bounds(turns[..i])
    {
      assert Front(turns[..i+1]) == turns[..i];
      if turns[i].end > turns[i].start {
        boundaries := boundaries + [turns[i].start, turns[i].end];
      }
    }
    assert turns[..|turns|] == turns;
  }

  /** sameStrings. */
  method SameSpeakers(a: seq<Speaker>, b: seq<Speaker>) returns (same: bool)
    ensures same == (a == b)
  {
    if |a| != |b| { return false; }
    for i := 0 to |a|
      invariant a[..i] == b[..i]
    {
      if a[i] != b[i] { return false; }
      assert a[..i+1] == a[..i] + [a[i]] && b[..i+1] == b[..i] + [b[i]];
    }
    assert a[..|a|] == a && b[..|a|] == b;
    return true;
  }

  /** The end of the outer loop: extends the last segment or begins a new one. */
  method Append(segments: seq<Segment>, segment: Segment) returns (r: seq<Segment>)
    ensures r == Add(segments, segment)
  {
    if |segments| > 0 && Last(segments).endMs == segment.startMs {
      var same := SameSpeakers(Last(segments).speakers, segment.speakers);
      if same { return Front(segments) + [Last(segments).(endMs := segment.endMs)]; }
    }
    return segments + [segment];
  }

  lemma NobodyActive(values: seq<int>)
    ensures |Dedup(Sort(values))| == 0 <==> |values| == 0
  {}

  /** The body of the outer loop. */
  method SweepInterval(turns: seq<Turn>, rate: int, start: int, end: int, segments: seq<Segment>)
    returns (r: seq<Segment>)
    requires rate > 0
    ensures var names := Names(turns, start, end);
            r == if |names| == 0 then segments else Add(segments, Piece(names, start, end, rate))
  {
    var speakers := Overlapping(turns, start, end);
    NobodyActive(speakers);
    if |speakers| == 0 { return segments; }
    speakers := SortedUnique(speakers);
    r := Append(segments, Segment(Ms(start, rate), Ms(end, rate), speakers, |speakers| > 1));
  }

  /** The outer loop. */
  method SweepAll(turns: seq<Turn>, rate: int, unique: seq<int>, ghost names: seq<seq<Speaker>>)
    returns (segments: seq<Segment>)
    requires rate > 0 && |names| == (if |unique| == 0 then 0 else |unique| - 1)
    requires names == AllNames(turns, unique, |names|)
    ensures segments == Joined(names, unique, rate)
  {
    ghost var pieces := Pieces(names, unique, rate);
    segments := [];
    var i: nat := 0;
    while i + 1 < |unique|
      invariant i <= |names| && segments == Sweep(pieces, i)
    {
      ghost var before, piece := segments, pieces[i];
      NamesAt(turns, unique, |names|, i);
      segments := SweepInterval(turns, rate, unique[i], unique[i+1], segments);
      SweepNext(pieces, i, before, piece, segments);
      i := i + 1;
    }
  }

  lemma SweepNext(pieces: seq<Segment>, i: nat, before: seq<Segment>, piece: Segment, after: seq<Segment>)
    requires i < |pieces| && before == Sweep(pieces, i) && piece == pieces[i]
    requires after == if |piece.speakers| == 0 then before else Add(before, piece)
    ensures after == Sweep(pieces, i + 1)
  {}

  method MergeTurns(turns: seq<Turn>, rate: int) returns (segments: seq<Segment>)
    ensures segments == Merged(turns, rate)
  {
    if rate <= 0 || |turns| == 0 { return []; }
    var boundaries := Boundaries(turns);
    var unique := SortedUnique(boundaries);
    ghost var n := if |unique| == 0 then 0 else |unique| - 1;
    segments := SweepAll(turns, rate, unique, AllNames(turns, unique, n));
  }
}
