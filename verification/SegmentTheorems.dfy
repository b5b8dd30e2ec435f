/** What Pack promises: no word is lost or moved, the cap holds, only oversized sentences are cut,
    and no other grouping of whole sentences needs fewer chunks. */
module SegmentTheorems {
  import opened Basics
  import opened Words
  import opened Segment

  /** What Pack may not divide any further: sentences with words, and the words of oversized ones. */
  function Pieces(sentences: seq<string>, max: nat): seq<string> {
    if |sentences| == 0 then [] else Pieces(Front(sentences), max) + Piece(Last(sentences), max)
  }

  function Piece(s: string, max: nat): seq<string> {
    if WordCount(s) == 0 then [] else if WordCount(s) <= max then [s] else Fields(s)
  }

  ghost predicate WithinCap(groups: seq<seq<string>>, max: nat) {
    forall g :: g in groups ==> 1 <= |AllWords(g)| <= max
  }

  lemma CapSum(a: seq<seq<string>>, b: seq<seq<string>>, max: nat)
    requires WithinCap(a, max) && WithinCap(b, max)
    ensures WithinCap(a + b, max)
  {}

  lemma {:induction false} CutPieces(words: seq<string>, max: nat)
    requires max > 0 && forall w :: w in words ==> IsWord(w)
    ensures Flatten(Cut(words, max)) == words && WithinCap(Cut(words, max), max)
  {
    if |words| == 0 {
    } else if |words| <= max {
      OneGroup(words, max);
    } else {
      var first, rest := words[..max], words[max..];
      forall w | w in first ensures IsWord(w) { assert w in words; }
      forall w | w in rest ensures IsWord(w) { assert w in words; }
      CutPieces(rest, max);
      OneGroup(first, max);
      FlattenSum([first], Cut(rest, max));
      assert first + rest == words;
      CapSum([first], Cut(rest, max), max);
    }
  }

  lemma OneGroup(words: seq<string>, max: nat)
    requires 0 < |words| <= max && forall w :: w in words ==> IsWord(w)
    ensures Flatten([words]) == words && WithinCap([words], max)
  {
    WordsOfWords(words);
    assert Front([words]) == [] && [] + words == words;
  }

  /** As few cuts as the cap allows. */
  lemma {:induction false} CutIsTight(words: seq<string>, max: nat)
    requires max > 0
    ensures max * (|Cut(words, max)| - 1) < |words| || words == []
    ensures |words| <= max * |Cut(words, max)|
  {
    if |words| > max {
      CutIsTight(words[max..], max);
      assert max * (|Cut(words, max)| - 1) == max * (|Cut(words[max..], max)| - 1) + max;
    }
  }

  lemma FlattenPlus<T>(a: seq<seq<T>>, g: seq<T>)
    ensures Flatten(a + [g]) == Flatten(a) + g
  {
    FrontOfSum(a, [g]);
    assert a + Front([g]) == a;
  }

  lemma WordsPlus(a: seq<string>, s: string)
    ensures AllWords(a + [s]) == AllWords(a) + Fields(s)
  {
    FrontOfSum(a, [s]);
    assert a + Front([s]) == a;
  }

  ghost predicate Sound(p: Packing, max: nat) {
    && p.curWords == |AllWords(p.cur)| <= max && (|p.cur| > 0 <==> p.curWords > 0) && WithinCap(p.groups, max)
  }

  lemma FlushSound(p: Packing, max: nat)
    requires Sound(p, max)
    ensures Sound(Flush(p), max) && |Flush(p).cur| == 0 && Flush(p).curWords == 0
    ensures Flatten(Flush(p).groups) == Flatten(p.groups) + p.cur
  {
    if |p.cur| > 0 { FlattenPlus(p.groups, p.cur); }
  }

  lemma AddOversized(p: Packing, s: string, target: nat, max: nat)
    requires max > 0 && Sound(p, max) && WordCount(s) > max
    ensures var q := Add(p, s, target, max);
            Sound(q, max) && Flatten(q.groups) + q.cur == Flatten(p.groups) + p.cur + Fields(s)
  {
    FlushSound(p, max);
    var g, cut := Flush(p).groups, Cut(Fields(s), max);
    CutPieces(Fields(s), max);
    FlattenSum(g, cut);
    CapSum(g, cut, max);
    assert Flatten(g + cut) + [] == Flatten(g + cut);
  }

  lemma AddFittingText(p: Packing, s: string, target: nat, max: nat)
    requires max > 0 && Sound(p, max) && 0 < WordCount(s) <= max
    ensures var q := Add(p, s, target, max); Flatten(q.groups) + q.cur == Flatten(p.groups) + p.cur + [s]
  {
    FlushSound(p, max);
    if !(p.curWords > 0 && p.curWords + WordCount(s) > target) { Associative(Flatten(p.groups), p.cur, [s]); }
  }

  lemma AddFitting(p: Packing, s: string, target: nat, max: nat)
    requires max > 0 && target <= max && Sound(p, max) && 0 < WordCount(s) <= max
    ensures Sound(Add(p, s, target, max), max)
  {
    if p.curWords > 0 && p.curWords + WordCount(s) > target {
      FlushSound(p, max);
      WordsPlus([], s);
    } else {
      WordsPlus(p.cur, s);
    }
  }

  lemma Associative<T>(a: seq<T>, b: seq<T>, c: seq<T>)
    ensures a + (b + c) == a + b + c
  {}

  lemma AddSound(p: Packing, s: string, target: nat, max: nat)
    requires max > 0 && target <= max && Sound(p, max)
    ensures Sound(Add(p, s, target, max), max)
    ensures var q := Add(p, s, target, max);
            Flatten(q.groups) + q.cur == Flatten(p.groups) + p.cur + Piece(s, max)
  {
    if WordCount(s) > max { AddOversized(p, s, target, max); }
    else if WordCount(s) > 0 { AddFitting(p, s, target, max); AddFittingText(p, s, target, max); }
  }

  lemma {:induction false} PackedSound(sentences: seq<string>, target: nat, max: nat)
    requires max > 0 && target <= max
    ensures var p := Packed(sentences, target, max);
            Sound(p, max) && Flatten(p.groups) + p.cur == Pieces(sentences, max)
  {
    if |sentences| > 0 {
      PackedSound(Front(sentences), target, max);
      AddSound(Packed(Front(sentences), target, max), Last(sentences), target, max);
    }
  }

  /** Pack divides nothing but oversized sentences, and puts all pieces in order into chunks that
      respect the cap and are never empty. */
  lemma PackCutsOnlyOversized(sentences: seq<string>, targetWords: int, maxWords: int)
    requires maxWords > 0
    ensures var groups := Groups(sentences, targetWords, maxWords);
            && Flatten(groups) == Pieces(sentences, maxWords)
            && (forall g :: g in groups ==> 1 <= |AllWords(g)| <= maxWords)
            && |Chunks(groups)| == |groups| && forall i ::
               0 <= i < |groups| ==> Chunks(groups)[i] == Join(groups[i], " ")
  {
    var target := Target(targetWords, maxWords);
    PackedSound(sentences, target, maxWords);
    FlushSound(Packed(sentences, target, maxWords), maxWords);
    ChunkOf(Groups(sentences, targetWords, maxWords));
  }

  lemma {:induction false} ChunkOf(groups: seq<seq<string>>)
    ensures |Chunks(groups)| == |groups| && forall i :: 0 <= i < |groups| ==> Chunks(groups)[i] == Join(groups[i], " ")
  {
    if |groups| > 0 {
      ChunkOf(Front(groups));
      forall i | 0 <= i < |groups| - 1 ensures Chunks(groups)[i] == Join(groups[i], " ") {
        assert Front(groups)[i] == groups[i];
      }
    }
  }

  /** Every chunk has at least one and at most maxWords words. */
  lemma PackRespectsCap(sentences: seq<string>, targetWords: int, maxWords: int)
    requires maxWords > 0
    ensures forall c :: c in Chunks(Groups(sentences, targetWords, maxWords)) ==> 1 <= WordCount(c) <= maxWords
  {
    var groups := Groups(sentences, targetWords, maxWords);
    PackCutsOnlyOversized(sentences, targetWords, maxWords);
    forall i | 0 <= i < |groups| ensures 1 <= WordCount(Chunks(groups)[i]) <= maxWords {
      assert groups[i] in groups;
      FieldsOfJoin(groups[i], ' ');
    }
  }

  lemma {:induction false} WordsOfChunks(groups: seq<seq<string>>)
    ensures AllWords(Chunks(groups)) == AllWords(Flatten(groups))
  {
    if |groups| > 0 {
      WordsOfChunks(Front(groups));
      WordsPlus(Chunks(Front(groups)), Join(Last(groups), " "));
      FieldsOfJoin(Last(groups), ' ');
      WordsOfSum(Flatten(Front(groups)), Last(groups));
    }
  }

  lemma {:induction false} WordsOfPieces(sentences: seq<string>, max: nat)
    ensures AllWords(Pieces(sentences, max)) == AllWords(sentences)
  {
    if |sentences| > 0 {
      var s := Last(sentences);
      WordsOfPieces(Front(sentences), max);
      if WordCount(s) > max {
        WordsOfSum(Pieces(Front(sentences), max), Fields(s));
        WordsOfWords(Fields(s));
      } else if WordCount(s) > 0 {
        WordsPlus(Pieces(Front(sentences), max), s);
      } else {
        assert Pieces(Front(sentences), max) + [] == Pieces(Front(sentences), max);
        assert AllWords(Front(sentences)) + Fields(s) == AllWords(Front(sentences));
      }
    }
  }

  /** The words of all chunks, one after the other, are the words of all sentences. */
  lemma PackKeepsWords(sentences: seq<string>, targetWords: int, maxWords: int)
    requires maxWords > 0
    ensures AllWords(Chunks(Groups(sentences, targetWords, maxWords))) == AllWords(sentences)
  {
    PackCutsOnlyOversized(sentences, targetWords, maxWords);
    WordsOfChunks(Groups(sentences, targetWords, maxWords));
    WordsOfPieces(sentences, maxWords);
  }

  // ---------- optimality ----------

  /** No sentence is longer than the cap. */
  ghost predicate AllFit(sentences: seq<string>, max: nat) {
    forall s :: s in sentences ==> WordCount(s) <= max
  }

  /** A run may hold several sentences only up to the target; one sentence may exceed it. */
  predicate RunOK(run: seq<string>, target: nat) { |run| == 1 || (|run| > 1 && |AllWords(run)| <= target) }

  /** A division of the sentences with words into consecutive runs. */
  ghost predicate Split(runs: seq<seq<string>>, sentences: seq<string>, target: nat, max: nat) {
    Flatten(runs) == Pieces(sentences, max) && forall r :: r in runs ==> RunOK(r, target)
  }

  lemma FitFront(sentences: seq<string>, max: nat)
    requires |sentences| > 0 && AllFit(sentences, max)
    ensures AllFit(Front(sentences), max) && WordCount(Last(sentences)) <= max
  {
    assert Last(sentences) in sentences;
    forall s | s in Front(sentences) ensures s in sentences {}
  }

  /** The groups so far may all be runs, and one is pending if there is any. */
  ghost predicate AllRuns(p: Packing, target: nat) {
    && (forall g :: g in p.groups ==> RunOK(g, target)) && (|p.cur| > 0 ==> RunOK(p.cur, target))
    && (|p.groups| > 0 ==> |p.cur| > 0)
  }

  lemma AddRuns(p: Packing, s: string, target: nat, max: nat)
    requires max > 0 && Sound(p, max) && AllRuns(p, target) && WordCount(s) <= max
    ensures AllRuns(Add(p, s, target, max), target)
  {
    WordsPlus(p.cur, s);
    assert |[] + [s]| == 1;
  }

  /** Pack's own groups are such a division. */
  lemma {:induction false} GroupsSplit(sentences: seq<string>, target: nat, max: nat)
    requires max > 0 && target <= max && AllFit(sentences, max)
    ensures AllRuns(Packed(sentences, target, max), target)
  {
    if |sentences| > 0 {
      FitFront(sentences, max);
      GroupsSplit(Front(sentences), target, max);
      PackedSound(Front(sentences), target, max);
      AddRuns(Packed(Front(sentences), target, max), Last(sentences), target, max);
    }
  }

  /** Pack is never behind: it has fewer groups than any division of the same sentences, or as
      many with no more words in the pending one. */
  ghost predicate Ahead(p: Packing, runs: seq<seq<string>>) {
    var n := |p.groups| + if |p.cur| > 0 then 1 else 0;
    n < |runs| || (n == |runs| && (|runs| > 0 ==> p.curWords <= |AllWords(Last(runs))|))
  }

  /** The division without its last sentence. */
  function Shorter(runs: seq<seq<string>>): seq<seq<string>>
    requires |runs| > 0 && |Last(runs)| > 0
  {
    if |Last(runs)| == 1 then Front(runs) else Front(runs) + [Front(Last(runs))]
  }

  lemma ShorterSplit(runs: seq<seq<string>>, kept: seq<string>, s: string, target: nat)
    requires |runs| > 0 && (forall r :: r in runs ==> RunOK(r, target)) && Flatten(runs) == kept + [s]
    ensures |Last(runs)| > 0 && Last(Last(runs)) == s && Flatten(Shorter(runs)) == kept
    ensures forall r :: r in Shorter(runs) ==> RunOK(r, target)
    ensures AllWords(Last(runs)) == AllWords(Front(Last(runs))) + Fields(s)
  {
    var run := Last(runs);
    assert run in runs && RunOK(run, target);
    assert Flatten(runs) == Flatten(Front(runs)) + run;
    FrontOfSum(Flatten(Front(runs)), run);
    assert Front(kept + [s]) == kept && Last(kept + [s]) == s;
    forall r | r in Front(runs) ensures RunOK(r, target) { assert r in runs; }
    if |run| > 1 { FlattenPlus(Front(runs), Front(run)); }
  }

  lemma {:induction false} NeverBehind(sentences: seq<string>, runs: seq<seq<string>>, target: nat, max: nat)
    requires max > 0 && target <= max && AllFit(sentences, max) && Split(runs, sentences, target, max)
    ensures Ahead(Packed(sentences, target, max), runs)
  {
    if |sentences| > 0 {
      var front, s := Front(sentences), Last(sentences);
      FitFront(sentences, max);
      if WordCount(s) == 0 {
        NeverBehind(front, runs, target, max);
      } else {
        assert Pieces(sentences, max) == Pieces(front, max) + [s];
        assert |runs| > 0;
        ShorterSplit(runs, Pieces(front, max), s, target);
        NeverBehind(front, Shorter(runs), target, max);
        PackedSound(front, target, max);
        GroupsSplit(front, target, max);
        assert Last(runs) in runs;
        AheadStep(Packed(front, target, max), s, runs, target, max);
      }
    }
  }

  /** The pending group and a division both take one more sentence of n words. */
  lemma AheadStep(p: Packing, s: string, runs: seq<seq<string>>, target: nat, max: nat)
    requires max > 0 && Sound(p, max) && (|p.groups| > 0 ==> |p.cur| > 0) && 0 < WordCount(s) <= max
    requires |runs| > 0 && RunOK(Last(runs), target) && AllWords(Last(runs)) == AllWords(Front(Last(runs))) + Fields(s)
    requires Ahead(p, Shorter(runs))
    ensures Ahead(Add(p, s, target, max), runs)
  {
    var run := Last(runs);
    if |run| == 1 {
      assert AllWords(Front(run)) == [];
    } else {
      assert Last(Shorter(runs)) == Front(run);
    }
  }

  lemma OwnSplit(sentences: seq<string>, target: nat, max: nat)
    requires max > 0 && target <= max && AllFit(sentences, max)
    ensures Split(Flush(Packed(sentences, target, max)).groups, sentences, target, max)
  {
    PackedSound(sentences, target, max);
    FlushSound(Packed(sentences, target, max), max);
    GroupsSplit(sentences, target, max);
  }

  lemma NotShorter(sentences: seq<string>, runs: seq<seq<string>>, target: nat, max: nat)
    requires max > 0 && target <= max && AllFit(sentences, max) && Split(runs, sentences, target, max)
    ensures |Flush(Packed(sentences, target, max)).groups| <= |runs|
  {
    NeverBehind(sentences, runs, target, max);
  }

  /** If no sentence is over the cap, no division of the sentences with words into consecutive runs
      within the target, where a run of one sentence may exceed it, has fewer runs than Pack has
      chunks; and Pack's chunks are such a division. The target counts if it is positive and not over
      the cap, else the cap does. */
  lemma PackIsOptimal(sentences: seq<string>, targetWords: int, maxWords: int, runs: seq<seq<string>>)
    requires maxWords > 0 && forall s :: s in sentences ==> |Fields(s)| <= maxWords
    ensures var target := if 0 < targetWords <= maxWords then targetWords else maxWords;
            var groups := Groups(sentences, targetWords, maxWords);
            && Flatten(groups) == Pieces(sentences, maxWords)
            && (forall g :: g in groups ==> |g| > 0 && (|g| > 1 ==> |AllWords(g)| <= target))
            && (Flatten(runs) == Pieces(sentences, maxWords)
                && (forall r :: r in runs ==> |r| > 0 && (|r| > 1 ==> |AllWords(r)| <= target))
                ==> |Chunks(groups)| <= |runs|)
  {
    var target := if 0 < targetWords <= maxWords then targetWords else maxWords;
    OwnSplit(sentences, target, maxWords);
    ChunkOf(Groups(sentences, targetWords, maxWords));
    if Split(runs, sentences, target, maxWords) { NotShorter(sentences, runs, target, maxWords); }
  }

  // ---------- the target, with oversized sentences ----------

  ghost predicate PartOf(g: seq<string>, words: seq<string>) {
    exists a: nat, b: nat :: a <= b <= |words| && g == words[a..b]
  }

  /** Consecutive words of one sentence that is over the cap. */
  ghost predicate IsCut(g: seq<string>, sentences: seq<string>, max: nat) {
    exists s :: s in sentences && |Fields(s)| > max && PartOf(g, Fields(s))
  }

  /** One sentence, or several within the target, or a part of an oversized one. */
  ghost predicate Grouped(g: seq<string>, sentences: seq<string>, target: nat, max: nat) {
    |g| == 1 || |AllWords(g)| <= target || IsCut(g, sentences, max)
  }

  ghost predicate AllGrouped(p: Packing, sentences: seq<string>, target: nat, max: nat) {
    && (forall g :: g in p.groups ==> Grouped(g, sentences, target, max))
    && (|p.cur| > 0 ==> |p.cur| == 1 || |AllWords(p.cur)| <= target)
  }

  lemma PartHere(words: seq<string>, a: nat, b: nat)
    requires a <= b <= |words|
    ensures PartOf(words[a..b], words)
  {}

  lemma {:induction false} CutParts(words: seq<string>, max: nat, i: nat)
    requires max > 0 && i <= |words|
    ensures forall g :: g in Cut(words[i..], max) ==> PartOf(g, words)
    decreases |words| - i
  {
    var rest := words[i..];
    if |rest| > max {
      CutParts(words, max, i + max);
      PartHere(words, i, i + max);
      assert rest[max..] == words[i+max..] && rest[..max] == words[i..i+max];
    } else if |rest| > 0 {
      PartHere(words, i, |words|);
      assert rest == words[i..|words|];
    }
  }

  lemma StillGrouped(g: seq<string>, sentences: seq<string>, target: nat, max: nat)
    requires |sentences| > 0 && Grouped(g, Front(sentences), target, max)
    ensures Grouped(g, sentences, target, max)
  {
    if IsCut(g, Front(sentences), max) {
      var s :| s in Front(sentences) && |Fields(s)| > max && PartOf(g, Fields(s));
      assert s in sentences;
    }
  }

  lemma CutGrouped(sentences: seq<string>, s: string, target: nat, max: nat)
    requires max > 0 && s in sentences && |Fields(s)| > max
    ensures forall g :: g in Cut(Fields(s), max) ==> Grouped(g, sentences, target, max)
  {
    CutParts(Fields(s), max, 0);
    assert Fields(s)[0..] == Fields(s);
  }

  lemma FlushGrouped(p: Packing, sentences: seq<string>, target: nat, max: nat)
    requires AllGrouped(p, sentences, target, max)
    ensures forall g :: g in Flush(p).groups ==> Grouped(g, sentences, target, max)
  {}

  lemma AddGrouped(p: Packing, sentences: seq<string>, target: nat, max: nat)
    requires |sentences| > 0 && max > 0 && Sound(p, max) && AllGrouped(p, Front(sentences), target, max)
    ensures AllGrouped(Add(p, Last(sentences), target, max), sentences, target, max)
  {
    var s := Last(sentences);
    forall g | g in p.groups ensures Grouped(g, sentences, target, max) { StillGrouped(g, sentences, target, max); }
    FlushGrouped(p, sentences, target, max);
    if WordCount(s) > max {
      CutGrouped(sentences, s, target, max);
    } else {
      WordsPlus(p.cur, s);
      assert |[] + [s]| == 1;
    }
  }

  lemma {:induction false} PackedGrouped(sentences: seq<string>, target: nat, max: nat)
    requires max > 0 && target <= max
    ensures AllGrouped(Packed(sentences, target, max), sentences, target, max)
  {
    if |sentences| > 0 {
      PackedGrouped(Front(sentences), target, max);
      PackedSound(Front(sentences), target, max);
      AddGrouped(Packed(Front(sentences), target, max), sentences, target, max);
    }
  }

  /** Whatever the sentences are: a chunk of more than one sentence has at most as many words as the
      target, and only parts of an oversized sentence may have more. */
  lemma PackMeetsTarget(sentences: seq<string>, targetWords: int, maxWords: int, i: nat)
    requires maxWords > 0 && i < |Groups(sentences, targetWords, maxWords)|
    ensures var target := if 0 < targetWords <= maxWords then targetWords else maxWords;
            var groups := Groups(sentences, targetWords, maxWords);
            && |Chunks(groups)| == |groups| && Chunks(groups)[i] == Join(groups[i], " ")
            && (|groups[i]| == 1 || WordCount(Chunks(groups)[i]) <= target || IsCut(groups[i], sentences, maxWords))
  {
    var target := if 0 < targetWords <= maxWords then targetWords else maxWords;
    var groups := Groups(sentences, targetWords, maxWords);
    PackedGrouped(sentences, target, maxWords);
    FlushGrouped(Packed(sentences, target, maxWords), sentences, target, maxWords);
    ChunkOf(groups);
    assert groups[i] in groups;
    FieldsOfJoin(groups[i], ' ');
  }
}
