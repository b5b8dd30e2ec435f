/** The segments of the diarization sweep in milliseconds: where there are some, and where none. */
module MergeTurnsSilence {
  import opened Basics
  import opened MergeTurns
  import opened MergeTurnsTheorems

  /** A sample in milliseconds, truncated toward zero. */
  lemma MsInNumbers(sample: int, rate: int)
    requires rate > 0
    ensures sample >= 0 ==> Ms(sample, rate) == sample * 1000 / rate
    ensures sample < 0 ==> Ms(sample, rate) == -(-sample * 1000 / rate)
  {}

  /** What one piece does to segment k. */
  lemma AddAcross(before: seq<Segment>, s: Segment, k: nat, from: int, to: int)
    requires k < |Add(before, s)| && from < to
    requires Add(before, s)[k].startMs < to && Add(before, s)[k].endMs > from
    ensures (s.startMs < to && s.endMs > from) || (k < |before| && before[k].startMs < to && before[k].endMs > from)
  {}

  /** A segment that reaches across part of a stretch has a piece with speakers that does. */
  lemma {:induction false} PieceAcross(pieces: seq<Segment>, n: nat, k: nat, from: int, to: int) returns (i: nat)
    requires n <= |pieces| && k < |Sweep(pieces, n)| && from < to
    requires Sweep(pieces, n)[k].startMs < to && Sweep(pieces, n)[k].endMs > from
    ensures i < n && |pieces[i].speakers| > 0 && pieces[i].startMs < to && pieces[i].endMs > from
  {
    var before, piece := Sweep(pieces, n - 1), pieces[n-1];
    if |piece.speakers| == 0 {
      i := PieceAcross(pieces, n - 1, k, from, to);
    } else {
      AddAcross(before, piece, k, from, to);
      if piece.startMs < to && piece.endMs > from { i := n - 1; } else { i := PieceAcross(pieces, n - 1, k, from, to); }
    }
  }

  lemma MsBefore(a: int, b: int, rate: int)
    requires rate > 0 && Ms(a, rate) < Ms(b, rate)
    ensures a < b
  {
    if b <= a { MsOrder(b, a, rate); }
  }

  /** An interval between cuts that meets a silence has no speakers. */
  lemma SilentInterval(turns: seq<Turn>, i: nat, a: int, b: int)
    requires (forall t :: t in turns ==> WellFormed(t)) && i + 1 < |Cuts(turns)|
    requires a < b && Cuts(turns)[i] < b && a < Cuts(turns)[i+1] && forall x :: a <= x < b ==> !Covered(turns, x)
    ensures |Names(turns, Cuts(turns)[i], Cuts(turns)[i+1])| == 0
  {
    SortedSet(Bounds(turns));
    var x := if Cuts(turns)[i] >= a then Cuts(turns)[i] else a;
    assert Within(Cuts(turns), i, x) && !Covered(turns, x);
    Silent(turns, i, x);
  }

  /** The piece of an interval. */
  lemma PieceOf(turns: seq<Turn>, rate: int, i: nat)
    requires rate > 0 && i < |IntervalNames(turns)|
    ensures i + 1 < |Cuts(turns)|
    ensures var p := Pieces(IntervalNames(turns), Cuts(turns), rate)[i];
            && p.speakers == Names(turns, Cuts(turns)[i], Cuts(turns)[i+1])
            && p.startMs == Ms(Cuts(turns)[i], rate) && p.endMs == Ms(Cuts(turns)[i+1], rate)
  {
    NamesAt(turns, Cuts(turns), |Cuts(turns)| - 1, i);
  }

  /** Where nobody speaks there is no segment, to the millisecond: equal speakers are never joined across
      a silence. */
  lemma NoSegmentInSilence(turns: seq<Turn>, rate: int, a: int, b: int, k: nat)
    requires rate > 0 && (forall t :: t in turns ==> WellFormed(t)) && k < |Merged(turns, rate)|
    requires 0 <= a && a * 1000 / rate < b * 1000 / rate && forall x :: a <= x < b ==> !Covered(turns, x)
    ensures Merged(turns, rate)[k].endMs <= a * 1000 / rate || Merged(turns, rate)[k].startMs >= b * 1000 / rate
  {
    DivBefore(a, b, rate);
    MsInNumbers(a, rate);
    MsInNumbers(b, rate);
    NoSegmentBetween(turns, rate, a, b, k);
  }

  lemma NoSegmentBetween(turns: seq<Turn>, rate: int, a: int, b: int, k: nat)
    requires rate > 0 && (forall t :: t in turns ==> WellFormed(t)) && k < |Merged(turns, rate)|
    requires a < b && Ms(a, rate) < Ms(b, rate) && forall x :: a <= x < b ==> !Covered(turns, x)
    ensures Merged(turns, rate)[k].endMs <= Ms(a, rate) || Merged(turns, rate)[k].startMs >= Ms(b, rate)
  {
    var s, names := Merged(turns, rate)[k], IntervalNames(turns);
    if s.endMs > Ms(a, rate) && s.startMs < Ms(b, rate) {
      var i := PieceAcross(Pieces(names, Cuts(turns), rate), |names|, k, Ms(a, rate), Ms(b, rate));
      PieceOf(turns, rate, i);
      MsBefore(Cuts(turns)[i], b, rate);
      MsBefore(a, Cuts(turns)[i+1], rate);
      SilentInterval(turns, i, a, b);
    }
  }

  lemma DivBefore(a: int, b: int, rate: int)
    requires rate > 0 && 0 <= a && a * 1000 / rate < b * 1000 / rate
    ensures a < b
  {
    if b <= a {
      if b >= 0 { QuotientOrder(b * 1000, a * 1000, rate); } else { NegativeQuotient(b * 1000, rate); }
    }
  }

  lemma NegativeQuotient(a: int, rate: int)
    requires rate > 0 && a < 0
    ensures a / rate < 0
  {}

  /** Where somebody speaks there is a segment around the sample's millisecond, whose speakers are exactly
      those who speak at the sample. */
  lemma SegmentAtSample(turns: seq<Turn>, rate: int, x: int) returns (k: nat)
    requires rate > 0 && (forall t :: t in turns ==> WellFormed(t)) && Covered(turns, x) && 0 <= x
    ensures k < |Merged(turns, rate)|
    ensures var s := Merged(turns, rate)[k];
            s.startMs <= x * 1000 / rate <= s.endMs && forall p: Speaker :: p in s.speakers <==> Speaks(turns, x, p)
  {
    var i;
    i, k := SweepMeaning(turns, rate, x);
    MsInNumbers(x, rate);
    MsOrder(Cuts(turns)[i], x, rate);
    MsOrder(x, Cuts(turns)[i+1], rate);
  }
}
