/** What the segments of the diarization sweep mean, sample by sample. */
module MergeTurnsTheorems {
  import opened Basics
  import opened MergeTurns

  // ---------- meaning of one sample ----------

  predicate Covers(t: Turn, x: int) { t.start <= x < t.end }

  predicate WellFormed(t: Turn) { t.start < t.end }

  /** Who speaks at sample x. */
  ghost predicate Speaks(turns: seq<Turn>, x: int, s: Speaker) {
    exists i :: 0 <= i < |turns| && Covers(turns[i], x) && turns[i].speaker == s
  }

  /** Somebody speaks at sample x. */
  ghost predicate Covered(turns: seq<Turn>, x: int) {
    exists i :: 0 <= i < |turns| && Covers(turns[i], x)
  }

  lemma {:induction false} ActiveHas(turns: seq<Turn>, start: int, end: int, s: Speaker)
    ensures s in Active(turns, start, end) <==> exists i ::
            0 <= i < |turns| && Overlaps(turns[i], start, end) && turns[i].speaker == s
  {
    if |turns| > 0 {
      var front := Front(turns);
      ActiveHas(front, start, end, s);
      if i :| 0 <= i < |turns| && Overlaps(turns[i], start, end) && turns[i].speaker == s {
        if i < |front| { assert front[i] == turns[i]; }
      }
      if s in Active(front, start, end) {
        var i :| 0 <= i < |front| && Overlaps(front[i], start, end) && front[i].speaker == s;
        assert turns[i] == front[i];
      }
    }
  }

  lemma {:induction false} BoundsHave(turns: seq<Turn>, i: nat)
    requires i < |turns| && WellFormed(turns[i])
    ensures turns[i].start in Bounds(turns) && turns[i].end in Bounds(turns)
  {
    var front := Front(turns);
    if i < |front| {
      BoundsHave(front, i);
      assert front[i] == turns[i];
    } else {
      assert [turns[i].start, turns[i].end][0] in Bounds(turns) && [turns[i].start, turns[i].end][1] in Bounds(turns);
    }
  }

  /** The positions of a turn's two ends among the cuts. */
  lemma CutsHave(turns: seq<Turn>, i: nat) returns (j: nat, k: nat)
    requires i < |turns| && WellFormed(turns[i])
    ensures Increasing(Cuts(turns)) && j < k < |Cuts(turns)| && Cuts(turns)[j] == turns[i].start
            && Cuts(turns)[k] == turns[i].end
  {
    var cuts := Cuts(turns);
    BoundsHave(turns, i);
    SortedSet(Bounds(turns));
    var a: int, b: int := turns[i].start, turns[i].end;
    assert a in cuts && b in cuts;
    j :| 0 <= j < |cuts| && cuts[j] == a;
    k :| 0 <= k < |cuts| && cuts[k] == b;
  }

  predicate Within(cuts: seq<int>, i: nat, x: int)
    requires i + 1 < |cuts|
  {
    cuts[i] <= x < cuts[i+1]
  }

  /** Between two neighbouring cuts a turn is either everywhere or nowhere. */
  lemma OverlapIsCover(turns: seq<Turn>, n: nat, i: nat, x: int)
    requires n < |turns| && WellFormed(turns[n]) && i + 1 < |Cuts(turns)| && Within(Cuts(turns), i, x)
    ensures Overlaps(turns[n], Cuts(turns)[i], Cuts(turns)[i+1]) <==> Covers(turns[n], x)
  {
    var cuts := Cuts(turns);
    var j, k := CutsHave(turns, n);
    assert j <= i || i + 1 <= j;
    assert k <= i || i + 1 <= k;
    assert j <= i ==> cuts[j] <= cuts[i];
    assert i + 1 <= j ==> cuts[i+1] <= cuts[j];
    assert k <= i ==> cuts[k] <= cuts[i];
    assert i + 1 <= k ==> cuts[i+1] <= cuts[k];
  }

  lemma InOrder(cuts: seq<int>, i: nat, j: nat)
    requires Increasing(cuts) && i < |cuts| && j < |cuts|
    ensures i <= j ==> cuts[i] <= cuts[j]
  {}

  /** The sample lies in no more than one interval. */
  lemma OneInterval(cuts: seq<int>, i: nat, j: nat, x: int)
    requires Increasing(cuts) && i + 1 < |cuts| && j + 1 < |cuts| && Within(cuts, i, x) && Within(cuts, j, x)
    ensures i == j
  {
    InOrder(cuts, i + 1, j);
    InOrder(cuts, j + 1, i);
  }

  lemma {:induction false} FindInterval(cuts: seq<int>, j: nat, k: nat, x: int) returns (i: nat)
    requires Increasing(cuts) && j < k < |cuts| && cuts[j] <= x < cuts[k]
    ensures i + 1 < |cuts| && Within(cuts, i, x)
    decreases k - j
  {
    if x < cuts[j+1] { i := j; } else { i := FindInterval(cuts, j + 1, k, x); }
  }

  /** An ill-formed turn that the overlap test of the interval lets through. */
  ghost predicate Stray(turns: seq<Turn>, n: nat, start: int, end: int)
    requires n < |turns|
  {
    !WellFormed(turns[n]) && Overlaps(turns[n], start, end)
  }

  /** The speakers of an interval are those who speak at each of its samples, exactly if every turn
      of no positive length that lies inside the interval belongs to one who speaks there anyway. */
  lemma SpeakersAt(turns: seq<Turn>, i: nat, x: int)
    requires i + 1 < |Cuts(turns)| && Within(Cuts(turns), i, x)
    ensures var start, end := Cuts(turns)[i], Cuts(turns)[i+1];
            (forall s: Speaker :: s in Names(turns, start, end) <==> Speaks(turns, x, s))
            <==> (forall n :: 0 <= n < |turns| && Stray(turns, n, start, end) ==> Speaks(turns, x, turns[n].speaker))
  {
    var start, end := Cuts(turns)[i], Cuts(turns)[i+1];
    var names := Names(turns, start, end);
    SortedSet(Active(turns, start, end));
    forall s: Speaker ensures Speaks(turns, x, s) ==> s in names { SpeakerIsNamed(turns, i, x, s); }
    forall s: Speaker
      ensures s in names ==> Speaks(turns, x, s) || exists n ::
              0 <= n < |turns| && Stray(turns, n, start, end) && turns[n].speaker == s
    {
      NamedSpeaks(turns, i, x, s);
    }
    forall n | 0 <= n < |turns| && Stray(turns, n, start, end) ensures turns[n].speaker in names {
      var s: Speaker := turns[n].speaker;
      ActiveHas(turns, start, end, s);
      assert s in Active(turns, start, end);
    }
  }

  lemma SpeakerIsNamed(turns: seq<Turn>, i: nat, x: int, s: Speaker)
    requires i + 1 < |Cuts(turns)| && Within(Cuts(turns), i, x)
    ensures Speaks(turns, x, s) ==> s in Names(turns, Cuts(turns)[i], Cuts(turns)[i+1])
  {
    var start, end := Cuts(turns)[i], Cuts(turns)[i+1];
    if n :| 0 <= n < |turns| && Covers(turns[n], x) && turns[n].speaker == s {
      OverlapIsCover(turns, n, i, x);
      ActiveHas(turns, start, end, s);
      SortedSet(Active(turns, start, end));
    }
  }

  lemma NamedSpeaks(turns: seq<Turn>, i: nat, x: int, s: Speaker)
    requires i + 1 < |Cuts(turns)| && Within(Cuts(turns), i, x)
    ensures var start, end := Cuts(turns)[i], Cuts(turns)[i+1];
            s in Names(turns, start, end) ==>
              Speaks(turns, x, s) || exists n ::
                  0 <= n < |turns| && Stray(turns, n, start, end) && turns[n].speaker == s
  {
    var start, end := Cuts(turns)[i], Cuts(turns)[i+1];
    ActiveHas(turns, start, end, s);
    SortedSet(Active(turns, start, end));
    if s in Names(turns, start, end) {
      var n :| 0 <= n < |turns| && Overlaps(turns[n], start, end) && turns[n].speaker == s;
      if WellFormed(turns[n]) { OverlapIsCover(turns, n, i, x); } else { assert Stray(turns, n, start, end); }
    }
  }

  // ---------- the segments ----------

  lemma MsOrder(a: int, b: int, rate: int)
    requires rate > 0 && a <= b
    ensures Ms(a, rate) <= Ms(b, rate)
  {
    if a >= 0 { QuotientOrder(a * 1000, b * 1000, rate); }
    else if b < 0 { QuotientOrder(-b * 1000, -a * 1000, rate); }
  }

  lemma QuotientOrder(a: nat, b: nat, d: nat)
    requires d > 0 && a <= b
    ensures Quotient(a, d) <= Quotient(b, d)
  {
    var p, q := Quotient(a, d), Quotient(b, d);
    assert p * d <= a <= b < q * d + d;
    MulOrder(d, p, q);
  }

  lemma {:induction false} MulOrder(d: nat, p: nat, q: nat)
    ensures p > q ==> p * d >= q * d + d
    decreases p
  {
    if p > q + 1 { MulOrder(d, p - 1, q); }
    if p > q { assert p * d == (p - 1) * d + d; }
  }

  /** Segments in order, none beginning before the previous one has ended, and neighbours that
      touch have different speakers. All end by `limit`. */
  ghost predicate Chain(segments: seq<Segment>, limit: int) {
    && (forall k :: 0 <= k < |segments| ==> segments[k].startMs <= segments[k].endMs <= limit)
    && (forall k :: 0 < k < |segments| ==>
          segments[k-1].endMs <= segments[k].startMs
          && (segments[k-1].endMs == segments[k].startMs ==> segments[k-1].speakers != segments[k].speakers))
  }

  lemma AddChains(segments: seq<Segment>, s: Segment)
    requires Chain(segments, s.startMs) && s.startMs <= s.endMs
    ensures Chain(Add(segments, s), s.endMs)
  {
    var r := Add(segments, s);
    assert forall k :: 0 <= k < |segments| - 1 ==> r[k] == segments[k];
  }

  /** Pieces follow one another in milliseconds. */
  ghost predicate InSequence(pieces: seq<Segment>) {
    forall i :: 0 <= i < |pieces| ==>
        pieces[i].startMs <= pieces[i].endMs && (i > 0 ==> pieces[i-1].endMs <= pieces[i].startMs)
  }

  lemma PiecesInSequence(names: seq<seq<Speaker>>, cuts: seq<int>, rate: int)
    requires rate > 0 && Increasing(cuts) && (|names| == 0 || |names| < |cuts|)
    ensures InSequence(Pieces(names, cuts, rate))
  {
    forall i | 0 <= i < |names| ensures Ms(cuts[i], rate) <= Ms(cuts[i+1], rate) { MsOrder(cuts[i], cuts[i+1], rate); }
  }

  lemma ChainLater(segments: seq<Segment>, limit: int, later: int)
    requires Chain(segments, limit) && limit <= later
    ensures Chain(segments, later)
  {}

  lemma {:induction false} SweepChains(pieces: seq<Segment>, n: nat, limit: int)
    requires n <= |pieces| && InSequence(pieces) && (n > 0 ==> pieces[n-1].endMs <= limit)
    ensures Chain(Sweep(pieces, n), limit)
  {
    if n > 0 {
      var before, s := Sweep(pieces, n - 1), pieces[n-1];
      SweepChains(pieces, n - 1, s.startMs);
      AddChains(before, s);
      ChainLater(before, s.startMs, limit);
      ChainLater(Add(before, s), s.endMs, limit);
    }
  }

  /** The segments are ordered and disjoint in milliseconds, and where two of them touch, their
      speakers differ. */
  lemma SegmentsChain(turns: seq<Turn>, rate: int)
    ensures var s := Merged(turns, rate);
            && (forall k :: 0 <= k < |s| ==> s[k].startMs <= s[k].endMs)
            && (forall k :: 0 < k < |s| ==>
                  s[k-1].endMs <= s[k].startMs && (s[k-1].endMs == s[k].startMs ==> s[k-1].speakers != s[k].speakers))
  {
    if rate > 0 && |turns| > 0 {
      SortedSet(Bounds(turns));
      JoinedChains(IntervalNames(turns), Cuts(turns), rate);
    }
  }

  lemma JoinedChains(names: seq<seq<Speaker>>, cuts: seq<int>, rate: int)
    requires rate > 0 && Increasing(cuts) && (|names| == 0 || |names| < |cuts|)
    ensures var s := Joined(names, cuts, rate);
            && (forall k :: 0 <= k < |s| ==> s[k].startMs <= s[k].endMs)
            && (forall k :: 0 < k < |s| ==>
                  s[k-1].endMs <= s[k].startMs && (s[k-1].endMs == s[k].startMs ==> s[k-1].speakers != s[k].speakers))
  {
    PiecesInSequence(names, cuts, rate);
    SweepChains(Pieces(names, cuts, rate), |names|, if |names| == 0 then 0 else Ms(cuts[|names|], rate));
  }

  /** The speakers of all intervals. */
  function IntervalNames(turns: seq<Turn>): seq<seq<Speaker>> {
    var cuts := Cuts(turns);
    AllNames(turns, cuts, if |cuts| == 0 then 0 else |cuts| - 1)
  }

  /** The segment that piece i goes into. */
  ghost function FedBy(pieces: seq<Segment>, i: nat): int
    requires i < |pieces|
  {
    |Sweep(pieces, i + 1)| - 1
  }

  /** Later pieces may lengthen a segment, but change nothing else about it. */
  ghost predicate Grown(a: Segment, b: Segment) {
    b == a.(endMs := b.endMs) && a.endMs <= b.endMs
  }

  lemma {:induction false} SegmentsStay(pieces: seq<Segment>, n: nat, m: nat, k: nat)
    requires InSequence(pieces) && n <= m <= |pieces| && k < |Sweep(pieces, n)|
    ensures k < |Sweep(pieces, m)| && Grown(Sweep(pieces, n)[k], Sweep(pieces, m)[k])
    decreases m - n
  {
    if n < m {
      SegmentsStay(pieces, n, m - 1, k);
      SweepChains(pieces, m - 1, pieces[m-1].startMs);
      var before, piece := Sweep(pieces, m - 1), pieces[m-1];
      if |piece.speakers| > 0 { AddGrows(before, piece, k); }
    }
  }

  lemma AddGrows(segments: seq<Segment>, s: Segment, k: nat)
    requires k < |segments| && Chain(segments, s.startMs) && s.startMs <= s.endMs
    ensures k < |Add(segments, s)| && Grown(segments[k], Add(segments, s)[k])
  {}

  /** A piece with speakers goes into exactly one segment, with its speakers and around its times;
      a piece without changes no segment. */
  lemma PieceIsFed(pieces: seq<Segment>, i: nat)
    requires InSequence(pieces) && i < |pieces|
    ensures var p, k, s := pieces[i], FedBy(pieces, i), Sweep(pieces, |pieces|);
            if |p.speakers| == 0 then Sweep(pieces, i + 1) == Sweep(pieces, i)
            else 0 <= k < |s| && s[k].speakers == p.speakers && s[k].startMs <= p.startMs && p.endMs <= s[k].endMs
  {
    if |pieces[i].speakers| > 0 {
      SweepChains(pieces, i, pieces[i].startMs);
      AddEnds(Sweep(pieces, i), pieces[i]);
      SegmentsStay(pieces, i + 1, |pieces|, FedBy(pieces, i));
    }
  }

  lemma AddEnds(segments: seq<Segment>, s: Segment)
    requires Chain(segments, s.startMs)
    ensures var r := Add(segments, s);
            |r| > 0 && Last(r).speakers == s.speakers && Last(r).startMs <= s.startMs && Last(r).endMs == s.endMs
  {}

  /** Every segment has speakers, and is marked as an overlap exactly if it has more than one. */
  lemma {:induction false} PiecesOverlap(pieces: seq<Segment>, n: nat)
    requires n <= |pieces| && forall i :: 0 <= i < |pieces| ==> (pieces[i].overlap <==> |pieces[i].speakers| > 1)
    ensures forall k :: 0 <= k < |Sweep(pieces, n)| ==>
              var s := Sweep(pieces, n)[k]; |s.speakers| > 0 && (s.overlap <==> |s.speakers| > 1)
  {
    if n > 0 {
      PiecesOverlap(pieces, n - 1);
      var before, r := Sweep(pieces, n - 1), Sweep(pieces, n);
      forall k | 0 <= k < |r| ensures |r[k].speakers| > 0 && (r[k].overlap <==> |r[k].speakers| > 1) {
        if k < |before| { assert r[k].speakers == before[k].speakers && r[k].overlap == before[k].overlap; }
      }
    }
  }

  /** Every segment reaches from the beginning of one piece to the end of another, both of which go
      into it. */
  lemma {:induction false} PieceSpan(pieces: seq<Segment>, n: nat, k: nat) returns (i: nat, j: nat)
    requires n <= |pieces| && k < |Sweep(pieces, n)|
    ensures i <= j < n && |pieces[i].speakers| > 0 && |pieces[j].speakers| > 0
    ensures FedBy(pieces, i) == k && FedBy(pieces, j) == k
    ensures Sweep(pieces, n)[k].startMs == pieces[i].startMs && Sweep(pieces, n)[k].endMs == pieces[j].endMs
  {
    var before, after, piece := Sweep(pieces, n - 1), Sweep(pieces, n), pieces[n-1];
    if |piece.speakers| == 0 {
      i, j := PieceSpan(pieces, n - 1, k);
    } else {
      AddEffect(before, piece);
      if k < |before| { i, j := PieceSpan(pieces, n - 1, k); } else { i := n - 1; }
      if k == |after| - 1 { j := n - 1; }
    }
  }

  /** Somebody begins or stops to speak at x. */
  ghost predicate Boundary(turns: seq<Turn>, x: int) {
    exists n :: 0 <= n < |turns| && WellFormed(turns[n]) && (turns[n].start == x || turns[n].end == x)
  }

  lemma {:induction false} BoundsAreBoundaries(turns: seq<Turn>, x: int)
    requires x in Bounds(turns)
    ensures Boundary(turns, x)
  {
    var last := Last(turns);
    if x in Bounds(Front(turns)) {
      BoundsAreBoundaries(Front(turns), x);
      var n :| 0 <= n < |Front(turns)| && WellFormed(Front(turns)[n])
               && (Front(turns)[n].start == x || Front(turns)[n].end == x);
      assert turns[n] == Front(turns)[n];
    } else {
      assert turns[|turns|-1] == last;
    }
  }

  lemma CutIsBoundary(turns: seq<Turn>, i: nat)
    requires i < |Cuts(turns)|
    ensures Boundary(turns, Cuts(turns)[i])
  {
    SortedSet(Bounds(turns));
    var x: int := Cuts(turns)[i];
    assert x in Cuts(turns);
    BoundsAreBoundaries(turns, x);
  }

  /** Every segment begins where somebody begins or stops to speak, and ends where somebody later does. */
  lemma SegmentSpan(turns: seq<Turn>, rate: int, k: nat) returns (x: int, y: int)
    requires rate > 0 && k < |Merged(turns, rate)|
    ensures x < y && Boundary(turns, x) && Boundary(turns, y)
    ensures Merged(turns, rate)[k].startMs == Ms(x, rate) && Merged(turns, rate)[k].endMs == Ms(y, rate)
  {
    var names, cuts := IntervalNames(turns), Cuts(turns);
    var i, j := PieceSpan(Pieces(names, cuts, rate), |names|, k);
    SortedSet(Bounds(turns));
    CutIsBoundary(turns, i);
    CutIsBoundary(turns, j + 1);
    x, y := cuts[i], cuts[j+1];
  }

  /** Every segment has speakers, and is marked as an overlap exactly if it has several. */
  lemma OverlapMeansSeveral(turns: seq<Turn>, rate: int, k: nat)
    requires k < |Merged(turns, rate)|
    ensures var s := Merged(turns, rate)[k]; |s.speakers| > 0 && (s.overlap <==> |s.speakers| > 1)
  {
    var names := IntervalNames(turns);
    PiecesOverlap(Pieces(names, Cuts(turns), rate), |names|);
  }

  lemma AddEffect(segments: seq<Segment>, s: Segment)
    ensures var r := Add(segments, s);
            && |segments| <= |r| <= |segments| + 1 && |r| > 0
            && (forall k :: 0 <= k < |r| - 1 ==> r[k] == segments[k])
            && (if |r| == |segments| then r[|r|-1] == segments[|r|-1].(endMs := s.endMs) else r[|r|-1] == s)
  {}

  /** The segment of a sample's interval, for any list of speakers. */
  lemma FedSegment(names: seq<seq<Speaker>>, cuts: seq<int>, rate: int, i: nat) returns (k: nat)
    requires rate > 0 && Increasing(cuts) && i < |names| < |cuts| && |names[i]| > 0
    ensures k == FedBy(Pieces(names, cuts, rate), i)
    ensures var s := Joined(names, cuts, rate);
            k < |s| && s[k].speakers == names[i] && s[k].startMs <= Ms(cuts[i], rate)
                && Ms(cuts[i+1], rate) <= s[k].endMs
  {
    var pieces := Pieces(names, cuts, rate);
    assert pieces[i] == Piece(names[i], cuts[i], cuts[i+1], rate);
    PiecesInSequence(names, cuts, rate);
    PieceIsFed(pieces, i);
    k := FedBy(pieces, i);
  }

  /** The sweep means what the turns mean. With turns of positive length, a sample at which somebody
      speaks lies in exactly one interval (OneInterval), whose piece goes into the one segment k; the
      speakers of that segment are exactly those who speak at the sample, each once and in order. */
  lemma SweepMeaning(turns: seq<Turn>, rate: int, x: int) returns (i: nat, k: nat)
    requires rate > 0 && (forall t :: t in turns ==> WellFormed(t)) && Covered(turns, x)
    ensures i + 1 < |Cuts(turns)| && Within(Cuts(turns), i, x) && i < |IntervalNames(turns)|
    ensures k == FedBy(Pieces(IntervalNames(turns), Cuts(turns), rate), i) && k < |Merged(turns, rate)|
    ensures var s := Merged(turns, rate)[k];
            && Increasing(s.speakers) && (forall p: Speaker :: p in s.speakers <==> Speaks(turns, x, p))
            && s.startMs <= Ms(Cuts(turns)[i], rate) && Ms(Cuts(turns)[i+1], rate) <= s.endMs
  {
    var cuts, names := Cuts(turns), IntervalNames(turns);
    var n :| 0 <= n < |turns| && Covers(turns[n], x);
    var a, b := CutsHave(turns, n);
    i := FindInterval(cuts, a, b, x);
    NamesMean(turns, i, x, n);
    NamesAt(turns, cuts, |cuts| - 1, i);
    k := FedSegment(names, cuts, rate, i);
  }

  lemma NamesMean(turns: seq<Turn>, i: nat, x: int, n: nat)
    requires (forall t :: t in turns ==> WellFormed(t)) && n < |turns| && Covers(turns[n], x)
    requires i + 1 < |Cuts(turns)| && Within(Cuts(turns), i, x)
    ensures var names := Names(turns, Cuts(turns)[i], Cuts(turns)[i+1]);
            |names| > 0 && Increasing(names) && forall p: Speaker :: p in names <==> Speaks(turns, x, p)
  {
    SpeakersAt(turns, i, x);
    var p: Speaker := turns[n].speaker;
    assert Speaks(turns, x, p) && p in Names(turns, Cuts(turns)[i], Cuts(turns)[i+1]);
    SortedSet(Active(turns, Cuts(turns)[i], Cuts(turns)[i+1]));
  }

  /** A sample at which nobody speaks lies in no interval whose piece goes into a segment. */
  lemma SilenceIsDropped(turns: seq<Turn>, rate: int, i: nat, x: int)
    requires rate > 0 && (forall t :: t in turns ==> WellFormed(t)) && !Covered(turns, x)
    requires i + 1 < |Cuts(turns)| && Within(Cuts(turns), i, x)
    ensures var pieces := Pieces(IntervalNames(turns), Cuts(turns), rate); Sweep(pieces, i + 1) == Sweep(pieces, i)
  {
    Silent(turns, i, x);
    NamesAt(turns, Cuts(turns), |Cuts(turns)| - 1, i);
    EmptyPiece(IntervalNames(turns), Cuts(turns), rate, i);
  }

  lemma EmptyPiece(names: seq<seq<Speaker>>, cuts: seq<int>, rate: int, i: nat)
    requires rate > 0 && i < |names| < |cuts| && |names[i]| == 0
    ensures Sweep(Pieces(names, cuts, rate), i + 1) == Sweep(Pieces(names, cuts, rate), i)
  {
    assert Pieces(names, cuts, rate)[i] == Piece(names[i], cuts[i], cuts[i+1], rate);
  }

  lemma Silent(turns: seq<Turn>, i: nat, x: int)
    requires (forall t :: t in turns ==> WellFormed(t)) && !Covered(turns, x)
    requires i + 1 < |Cuts(turns)| && Within(Cuts(turns), i, x)
    ensures |Names(turns, Cuts(turns)[i], Cuts(turns)[i+1])| == 0
  {
    var names := Names(turns, Cuts(turns)[i], Cuts(turns)[i+1]);
    if |names| > 0 {
      var p: Speaker := names[0];
      assert p in names;
      NamedSpeaks(turns, i, x, p);
    }
  }

  const WITH_EMPTY: seq<Turn> := [Turn(0, 2000, 1), Turn(1000, 1000, 2)]

  lemma EmptyCuts()
    ensures Cuts(WITH_EMPTY) == [0, 2000]
  {
    var one := [Turn(0, 2000, 1)];
    assert Front(WITH_EMPTY) == one && Front(one) == [];
    assert Bounds(one) == [0, 2000] by { assert [] + [0, 2000] == [0, 2000]; }
    assert Bounds(WITH_EMPTY) == [0, 2000] by { assert [0, 2000] + [] == [0, 2000]; }
    SortTwo(0, 2000);
  }

  lemma SortTwo(a: int, b: int)
    requires a < b
    ensures Dedup(Sort([a, b])) == [a, b]
  {
    assert Front([a, b]) == [a] && Front([a]) == [];
    assert Sort([a]) == [a] by { assert [] + [a] == [a]; }
    assert Sort([a, b]) == [a, b] by { assert [a] + [b] == [a, b]; }
    assert Dedup([a]) == [a] by { assert [] + [a] == [a]; }
    assert Dedup([a, b]) == [a, b] by { assert [a] + [b] == [a, b]; }
  }

  lemma EmptyNames()
    ensures Names(WITH_EMPTY, 0, 2000) == [1, 2]
  {
    var one := [Turn(0, 2000, 1)];
    assert Front(WITH_EMPTY) == one && Front(one) == [];
    assert Active(one, 0, 2000) == [1] by { assert [] + [1] == [1]; }
    assert Active(WITH_EMPTY, 0, 2000) == [1, 2] by { assert [1] + [2] == [1, 2]; }
    SortTwo(1, 2);
  }

  /** A turn without length inside another one adds its speaker to the segment, which is marked as an
      overlap although no two speakers ever speak together. */
  lemma EmptyTurnCounts()
    ensures Merged(WITH_EMPTY, 1000) == [Segment(0, 2000, [1, 2], true)]
    ensures forall x :: !Speaks(WITH_EMPTY, x, 2) && (Speaks(WITH_EMPTY, x, 1) <==> 0 <= x < 2000)
  {
    EmptyCuts();
    EmptyNames();
    var names := AllNames(WITH_EMPTY, [0, 2000], 1);
    assert names == [[1, 2]] by { assert AllNames(WITH_EMPTY, [0, 2000], 0) == []; }
    OnePiece([1, 2], 0, 2000, 1000);
    assert Ms(0, 1000) == 0 && Ms(2000, 1000) == 2000;
    forall x ensures !Speaks(WITH_EMPTY, x, 2) && (Speaks(WITH_EMPTY, x, 1) <==> 0 <= x < 2000) {
      assert Covers(WITH_EMPTY[0], x) <==> 0 <= x < 2000;
    }
  }

  lemma OnePiece(names: seq<Speaker>, start: int, end: int, rate: int)
    requires rate > 0 && |names| > 0
    ensures Joined([names], [start, end], rate) == [Piece(names, start, end, rate)]
  {
    var pieces := Pieces([names], [start, end], rate);
    assert Sweep(pieces, 0) == [] && Sweep(pieces, 1) == Add([], pieces[0]);
  }
}
