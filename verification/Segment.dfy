/** The greedy sentence packer, terminators, and the rewriting of long synthesis requests. */
module Segment {
  import opened Basics
  import opened Words

  /** A packing under way: finished groups, and the pending one with its number of words. A group
      holds whole sentences, or some words of one oversized sentence. */
  datatype Packing = Packing(groups: seq<seq<string>>, cur: seq<string>, curWords: nat)

  function Flush(p: Packing): Packing {
    if |p.cur| > 0 then Packing(p.groups + [p.cur], [], 0) else p
  }

  /** Runs of `max` words; the last one may be shorter. */
  function Cut(words: seq<string>, max: nat): seq<seq<string>>
    requires max > 0
  {
    if |words| == 0 then []
    else if |words| <= max then [words]
    else [words[..max]] + Cut(words[max..], max)
  }

  function Add(p: Packing, sentence: string, target: nat, max: nat): Packing
    requires max > 0
  {
    var n := WordCount(sentence);
    if n == 0 then p
    else if n > max then Packing(Flush(p).groups + Cut(Fields(sentence), max), [], 0)
    else
      var f := if p.curWords > 0 && p.curWords + n > target then Flush(p) else p;
      Packing(f.groups, f.cur + [sentence], f.curWords + n)
  }

  function Packed(sentences: seq<string>, target: nat, max: nat): Packing
    requires max > 0
  {
    if |sentences| == 0 then Packing([], [], 0)
      else Add(Packed(Front(sentences), target, max), Last(sentences), target, max)
  }

  function Target(targetWords: int, maxWords: nat): nat {
    if targetWords <= 0 || targetWords > maxWords then maxWords else targetWords
  }

  function Groups(sentences: seq<string>, targetWords: int, maxWords: int): seq<seq<string>> {
    if maxWords <= 0 then [] else Flush(Packed(sentences, Target(targetWords, maxWords), maxWords)).groups
  }

  function Chunks(groups: seq<seq<string>>): seq<string> {
    if |groups| == 0 then [] else Chunks(Front(groups)) + [Join(Last(groups), " ")]
  }

  lemma {:induction false} ChunksSum(a: seq<seq<string>>, b: seq<seq<string>>)
    ensures Chunks(a + b) == Chunks(a) + Chunks(b)
  {
    if |b| == 0 {
      assert a + b == a;
    } else {
      FrontOfSum(a, b);
      ChunksSum(a, Front(b));
      assert Chunks(a) + (Chunks(Front(b)) + [Join(Last(b), " ")]) ==
          Chunks(a) + Chunks(Front(b)) + [Join(Last(b), " ")];
    }
  }

  lemma ChunksPlus(a: seq<seq<string>>, g: seq<string>)
    ensures Chunks(a + [g]) == Chunks(a) + [Join(g, " ")]
  {
    FrontOfSum(a, [g]);
    assert a + Front([g]) == a;
  }

  // ---------- the algorithm ----------

  /** The closure `flush` of Pack. */
  method FlushPending(chunks: seq<string>, cur: seq<string>, ghost p: Packing) returns (done: seq<string>)
    requires chunks == Chunks(p.groups) && cur == p.cur
    ensures done == Chunks(Flush(p).groups)
  {
    done := chunks;
    if |cur| > 0 {
      ChunksPlus(p.groups, cur);
      done := done + [Join(cur, " ")];
    }
  }

  function Rest(words: seq<string>, start: nat): seq<string> { if start < |words| then words[start..] else [] }

  lemma Regroup<T>(a: seq<T>, x: T, b: seq<T>)
    ensures a + ([x] + b) == a + [x] + b
  {}

  lemma ChunksFirst(g: seq<string>, b: seq<seq<string>>)
    ensures Chunks([g] + b) == [Join(g, " ")] + Chunks(b)
  {
    ChunksPlus([], g);
    assert [] + [g] == [g];
    ChunksSum([g], b);
  }

  lemma CutFirst(words: seq<string>, start: nat, max: nat)
    requires max > 0 && start < |words|
    ensures var end := if start + max <= |words| then start + max else |words|;
            Chunks(Cut(words[start..], max)) ==
                [Join(words[start..end], " ")] + Chunks(Cut(Rest(words, start + max), max))
  {
    var rest := words[start..];
    if start + max < |words| {
      assert rest[max..] == words[start + max..] && rest[..max] == words[start..start + max];
      ChunksFirst(rest[..max], Cut(rest[max..], max));
    } else {
      ChunksFirst(rest, []);
      assert [rest] + [] == [rest] && words[start..|words|] == rest;
    }
  }

  /** The chunks that are still to come. */
  function ChunksFrom(words: seq<string>, start: nat, max: nat): seq<string>
    requires max > 0
  {
    Chunks(Cut(Rest(words, start), max))
  }

  /** One turn of the loop below. */
  lemma CutTurn(words: seq<string>, start: nat, max: nat, r: seq<string>)
    requires max > 0 && start < |words|
    ensures var end := if start + max > |words| then |words| else start + max;
            r + ChunksFrom(words, start, max) ==
                r + [Join(words[start..end], " ")] + ChunksFrom(words, start + max, max)
  {
    var end := if start + max > |words| then |words| else start + max;
    CutFirst(words, start, max);
    Regroup(r, Join(words[start..end], " "), ChunksFrom(words, start + max, max));
  }

  /** The inner loop of Pack over an oversized sentence. */
  method CutWords(words: seq<string>, maxWords: nat, chunks: seq<string>) returns (r: seq<string>)
    requires maxWords > 0
    ensures r == chunks + Chunks(Cut(words, maxWords))
  {
    r := chunks;
    var start := 0;
    ghost var all := chunks + ChunksFrom(words, 0, maxWords);
    assert words[0..] == words;
    while start < |words|
      invariant 0 <= start && all == r + ChunksFrom(words, start, maxWords)
    {
      var end := start + maxWords;
      if end > |words| {
        end := |words|;
      }
      CutTurn(words, start, maxWords, r);
      r := r + [Join(words[start..end], " ")];
      start := start + maxWords;
    }
  }

  lemma PackedNext(sentences: seq<string>, i: nat, target: nat, max: nat)
    requires i < |sentences| && max > 0
    ensures Packed(sentences[..i+1], target, max) == Add(Packed(sentences[..i], target, max), sentences[i], target, max)
  {
    assert Front(sentences[..i+1]) == sentences[..i];
  }

  method Pack(sentences: seq<string>, targetWords: int, maxWords: int) returns (chunks: seq<string>)
    ensures chunks == Chunks(Groups(sentences, targetWords, maxWords))
  {
    if maxWords <= 0 { return []; }
    var target := targetWords;
    if targetWords <= 0 || targetWords > maxWords {
      target := maxWords;
    }
    chunks := [];
    var cur: seq<string> := [];
    var curWords := 0;
    for i := 0 to |sentences|
      invariant var p := Packed(sentences[..i], target, maxWords);
                chunks == Chunks(p.groups) && cur == p.cur && curWords == p.curWords
    {
      ghost var p := Packed(sentences[..i], target, maxWords);
      PackedNext(sentences, i, target, maxWords);
      var words := Fields(sentences[i]);
      if |words| == 0 { continue; }
      if |words| > maxWords {
        chunks := FlushPending(chunks, cur, p);
        ChunksSum(Flush(p).groups, Cut(words, maxWords));
        chunks := CutWords(words, maxWords, chunks);
        cur, curWords := [], 0;
        continue;
      }
      if curWords > 0 && curWords + |words| > target {
        chunks := FlushPending(chunks, cur, p);
        if |cur| > 0 { cur, curWords := [], 0; }
      }
      cur := cur + [sentences[i]];
      curWords := curWords + |words|;
    }
    assert sentences[..|sentences|] == sentences;
    chunks := FlushPending(chunks, cur, Packed(sentences, target, maxWords));
  }
}
