/** Terminators, and how autoSegment rewrites a long synthesis request into lines. */
module AutoSegment {
  import opened Basics
  import opened Words
  import opened Segment
  import opened SegmentTheorems

  const TERMINATORS: string := ".!?\U{3002}\U{FF01}\U{FF1F}"

  predicate EndsSentence(text: string) {
    var trimmed := TrimRight(text);
    |trimmed| > 0 && Last(trimmed) in TERMINATORS
  }

  function Terminate(text: string): string {
    if EndsSentence(text) then text else TrimRight(text) + "."
  }

  /** A text ends a sentence if its last character other than blanks, tabs and line ends is one of six;
      a text that does not gets a period in place of the blanks, tabs and line ends at its end. */
  lemma TerminateMeaning(text: string, n: nat)
    requires n <= |text| && (forall k :: n <= k < |text| ==> text[k] in " \t\r\n")
    requires n > 0 ==> text[n-1] !in " \t\r\n"
    ensures EndsSentence(text) <==> n > 0 && text[n-1] in ".!?\U{3002}\U{FF01}\U{FF1F}"
    ensures Terminate(text) == if EndsSentence(text) then text else text[..n] + "."
  {
    TrimmedLength(text);
    var m := |TrimRight(text)|;
    assert n <= m;
    assert m <= n;
  }

  lemma TrimmedFull(s: string)
    ensures TrimRight(s + ".") == s + "."
  {
    assert Last(s + ".") == '.';
  }

  /** A terminated text ends a sentence, and terminating it again changes nothing. */
  lemma TerminateOnce(text: string)
    ensures EndsSentence(Terminate(text)) && Terminate(Terminate(text)) == Terminate(text)
  {
    if !EndsSentence(text) {
      TrimmedFull(TrimRight(text));
      assert Last(TrimRight(text) + ".") == '.';
    }
  }

  /** Past blanks, tabs and line ends the text ends with something else than white space. */
  predicate EndsSolid(text: string) {
    var trimmed := TrimRight(text);
    |trimmed| > 0 && !IsSpace(Last(trimmed))
  }

  /** Terminate adds a word to an unterminated text exactly if the period cannot join a word: the
      text is blank, or ends with white space that Terminate does not cut off. */
  lemma TerminateWords(text: string)
    ensures WordCount(Terminate(text)) == WordCount(text) + if EndsSentence(text) || EndsSolid(text) then 0 else 1
  {
    WordsOfTrimmed(text);
    var t := TrimRight(text);
    assert Front(t + ".") == t && Last(t + ".") == '.';
    assert !IsSpace('.');
  }

  /** One word and a no-break space become two words. */
  lemma TerminateMayAddAWord()
    ensures WordCount("a\U{A0}") == 1 && WordCount(Terminate("a\U{A0}")) == 2
  {
    var t := "a\U{A0}";
    FieldsOfWord("a");
    assert Front(t) == "a" && Last(t) == '\U{A0}' && IsSpace('\U{A0}');
    TerminateWords(t);
    assert TrimRight(t) == t;
  }

  // ---------- autoSegment ----------

  /** What may stand in the options of a request. */
  datatype Value = Text(s: string) | Number(n: int)

  type Options = map<string, Value>

  function Sentences(input: string, segmented: Option<seq<string>>): seq<string> {
    if segmented.None? || |segmented.value| == 0 then [input] else segmented.value
  }

  function LineChunks(input: string, maxWords: int, targetWords: int, segmented: Option<seq<string>>): seq<string> {
    Chunks(Groups(Sentences(input, segmented), if targetWords <= 0 then maxWords / 2 else targetWords, maxWords))
  }

  /** The request is long enough, and falls into more than one chunk. */
  predicate Rewrites(input: string, maxWords: int, targetWords: int, segmenter: bool, segmented: Option<seq<string>>) {
    0 < maxWords && segmenter && WordCount(input) > maxWords
        && |LineChunks(input, maxWords, targetWords, segmented)| > 1
  }

  function TerminateAll(chunks: seq<string>): (r: seq<string>)
    ensures |r| == |chunks| && forall i :: 0 <= i < |chunks| ==> r[i] == Terminate(chunks[i])
  {
    seq(|chunks|, i requires 0 <= i < |chunks| => Terminate(chunks[i]))
  }

  /** `segmented` is what the segmenter would answer; None is its error. */
  method AutoSegment(input: string, maxWords: int, targetWords: int, segmenter: bool, segmented: Option<seq<string>>,
                     options: Options)
    returns (text: string, changed: Options)
    ensures !Rewrites(input, maxWords, targetWords, segmenter, segmented) ==> text == input && changed == options
    ensures Rewrites(input, maxWords, targetWords, segmenter, segmented) ==>
              && text == Join(TerminateAll(LineChunks(input, maxWords, targetWords, segmented)), "\n")
              && changed == options["text_chunk_mode" := Text("endline")]["text_chunk_size" := Number(maxWords * 6)]
    ensures var target := if targetWords > 0 then targetWords else maxWords / 2;
            var sentences := if segmented.Some? && segmented.value != [] then segmented.value else [input];
            Rewrites(input, maxWords, targetWords, segmenter, segmented) <==>
            maxWords > 0 && segmenter && |Fields(input)| > maxWords && |Chunks(Groups(sentences, target, maxWords))| > 1
    ensures var target := if targetWords > 0 then targetWords else maxWords / 2;
            var sentences := if segmented.Some? && segmented.value != [] then segmented.value else [input];
            LineChunks(input, maxWords, targetWords, segmented) == Chunks(Groups(sentences, target, maxWords))
  {
    if maxWords <= 0 || !segmenter { return input, options; }
    if WordCount(input) <= maxWords { return input, options; }
    var target := targetWords;
    if target <= 0 {
      target := maxWords / 2;
    }
    var sentences: seq<string>;
    if segmented.None? || |segmented.value| == 0 {
      sentences := [input];
    } else {
      sentences := segmented.value;
    }
    var chunks := Pack(sentences, target, maxWords);
    if |chunks| <= 1 { return input, options; }
    changed := options["text_chunk_mode" := Text("endline")];
    ghost var packed := chunks;
    for i := 0 to |chunks|
      invariant |chunks| == |packed|
      invariant forall k :: 0 <= k < |packed| ==> chunks[k] == if k < i then Terminate(packed[k]) else packed[k]
    {
      chunks := chunks[i := Terminate(chunks[i])];
    }
    assert chunks == TerminateAll(packed);
    changed := changed["text_chunk_size" := Number(maxWords * 6)];
    return Join(chunks, "\n"), changed;
  }

  /** strings.Split at line feeds. */
  function Lines(s: string): (r: seq<string>)
    ensures |r| > 0
  {
    if |s| == 0 then [""]
    else if Last(s) == '\n' then Lines(Front(s)) + [""]
    else var r := Lines(Front(s)); Front(r) + [Last(r) + [Last(s)]]
  }

  lemma {:induction false} LinesOfSum(a: string, line: string)
    requires '\n' !in line
    ensures Lines(a + "\n" + line) == Lines(a) + [line]
  {
    if |line| == 0 {
      assert a + "\n" + line == a + "\n";
      FrontOfSum(a, "\n");
      assert a + Front("\n") == a;
    } else {
      assert Last(line) in line;
      forall c | c in Front(line) ensures c in line {}
      LinesOfSum(a, Front(line));
      FrontOfSum(a + "\n", line);
      FrontOfSum(Lines(a), [Front(line)]);
      assert Front(line) + [Last(line)] == line;
      assert Lines(a) + Front([Front(line)]) == Lines(a);
    }
  }

  lemma {:induction false} LineOf(line: string)
    requires '\n' !in line
    ensures Lines(line) == [line]
  {
    if |line| > 0 {
      assert Last(line) in line;
      forall c | c in Front(line) ensures c in line {}
      LineOf(Front(line));
      assert Front(line) + [Last(line)] == line;
      assert Front([Front(line)]) == [];
    }
  }

  lemma {:induction false} LinesOfJoin(chunks: seq<string>)
    requires |chunks| > 0 && forall c :: c in chunks ==> '\n' !in c
    ensures Lines(Join(chunks, "\n")) == chunks
  {
    assert Last(chunks) in chunks;
    if |chunks| == 1 {
      LineOf(chunks[0]);
    } else {
      forall c | c in Front(chunks) ensures c in chunks {}
      LinesOfJoin(Front(chunks));
      LinesOfSum(Join(Front(chunks), "\n"), Last(chunks));
      assert Front(chunks) + [Last(chunks)] == chunks;
    }
  }

  /** A text that stays one line and that Terminate gives no further word. */
  predicate Tidy(text: string) { '\n' !in text && EndsSolid(text) }

  lemma {:induction false} TrimmedSum(a: string, b: string)
    requires |TrimRight(b)| > 0
    ensures TrimRight(a + b) == a + TrimRight(b)
  {
    FrontOfSum(a, b);
    if Last(b) in " \t\r\n" { TrimmedSum(a, Front(b)); }
  }

  lemma {:induction false} JoinTidy(g: seq<string>)
    requires |g| > 0 && forall s :: s in g ==> Tidy(s)
    ensures Tidy(Join(g, " "))
  {
    assert Last(g) in g;
    if |g| > 1 {
      forall s | s in Front(g) ensures s in g {}
      JoinTidy(Front(g));
      var a := Join(Front(g), " ") + " ";
      TrimmedSum(a, Last(g));
      assert Last(a + TrimRight(Last(g))) == Last(TrimRight(Last(g)));
    }
  }

  lemma WordTidy(w: string)
    requires IsWord(w)
    ensures Tidy(w)
  {
    assert Last(w) in w && IsSpace('\n') && IsSpace(' ') && IsSpace('\t') && IsSpace('\r');
  }

  lemma {:induction false} FlattenHas<T>(groups: seq<seq<T>>, g: seq<T>, x: T)
    requires g in groups && x in g
    ensures x in Flatten(groups)
  {
    if g != Last(groups) {
      assert exists i :: 0 <= i < |groups| - 1 && groups[i] == g;
      assert g in Front(groups);
      FlattenHas(Front(groups), g, x);
    }
  }

  lemma TerminateTidy(c: string)
    requires Tidy(c)
    ensures '\n' !in Terminate(c) && WordCount(Terminate(c)) == WordCount(c) && EndsSentence(Terminate(c))
  {
    TerminateWords(c);
    TerminateOnce(c);
    TrimKeeps(c);
  }

  lemma {:induction false} TrimKeeps(s: string)
    ensures forall c :: c in TrimRight(s) ==> c in s
  {
    if |s| > 0 && Last(s) in " \t\r\n" { TrimKeeps(Front(s)); }
  }

  lemma LineOfGroup(groups: seq<seq<string>>, g: seq<string>)
    requires g in groups && |AllWords(g)| > 0 && forall s :: s in Flatten(groups) ==> Tidy(s)
    ensures var line := Terminate(Join(g, " "));
            '\n' !in line && WordCount(line) == WordCount(Join(g, " ")) && EndsSentence(line)
  {
    forall s | s in g ensures Tidy(s) { FlattenHas(groups, g, s); }
    JoinTidy(g);
    TerminateTidy(Join(g, " "));
  }

  lemma {:induction false} LinesAreLines(s: string, i: nat)
    requires i < |Lines(s)|
    ensures '\n' !in Lines(s)[i]
  {
    if |s| > 0 {
      var r := Lines(Front(s));
      if i < |r| { LinesAreLines(Front(s), i); }
    }
  }

  /** The lines of a rewritten request. */
  function LinesOf(input: string, maxWords: int, targetWords: int, segmented: Option<seq<string>>): seq<string> {
    Lines(Join(TerminateAll(LineChunks(input, maxWords, targetWords, segmented)), "\n"))
  }

  /** What the rewriting is for: each line is one chunk, at most maxWords words long, that the endline
      splitter cuts at its end. */
  ghost predicate LinesBound(lines: seq<string>, chunks: seq<string>, maxWords: int) {
    && |lines| == |chunks|
    && forall i :: 0 <= i < |lines| ==>
         lines[i] == Terminate(chunks[i]) && 1 <= WordCount(lines[i]) <= maxWords && EndsSentence(lines[i])
  }

  /** A chunk that stays one line, and that a period lengthens by a word only if it has room. */
  predicate Fits(chunk: string, maxWords: int) {
    '\n' !in Terminate(chunk) && (WordCount(chunk) == maxWords ==> EndsSentence(chunk) || EndsSolid(chunk))
  }

  /** A chunk of the packer exceeds the cap as a line exactly if it has maxWords words already and
      Terminate has to add one. */
  lemma LineTooLong(chunk: string, maxWords: int)
    requires WordCount(chunk) <= maxWords
    ensures WordCount(Terminate(chunk)) > maxWords <==>
            WordCount(chunk) == maxWords && !EndsSentence(chunk) && !EndsSolid(chunk)
  {
    TerminateWords(chunk);
  }

  lemma FitsMeaning(chunk: string, maxWords: int)
    requires 1 <= WordCount(chunk) <= maxWords
    ensures EndsSentence(Terminate(chunk)) && 1 <= WordCount(Terminate(chunk))
    ensures Fits(chunk, maxWords) <==> '\n' !in Terminate(chunk) && WordCount(Terminate(chunk)) <= maxWords
  {
    TerminateWords(chunk);
    TerminateOnce(chunk);
  }

  /** Whatever the segmenter answers, a rewritten request keeps its bounds exactly if every chunk fits. */
  lemma LinesWithinCap(input: string, maxWords: int, targetWords: int, segmented: Option<seq<string>>)
    requires Rewrites(input, maxWords, targetWords, true, segmented)
    ensures var chunks := LineChunks(input, maxWords, targetWords, segmented);
            LinesBound(LinesOf(input, maxWords, targetWords, segmented), chunks, maxWords) <==>
            forall c :: c in chunks ==> Fits(c, maxWords)
  {
    var chunks := LineChunks(input, maxWords, targetWords, segmented);
    PackRespectsCap(Sentences(input, segmented), if targetWords <= 0 then maxWords / 2 else targetWords, maxWords);
    if forall c :: c in chunks ==> Fits(c, maxWords) { AllFit(chunks, maxWords); } else { NotBound(chunks, maxWords); }
  }

  lemma AllFit(chunks: seq<string>, maxWords: int)
    requires |chunks| > 0 && forall c :: c in chunks ==> 1 <= WordCount(c) <= maxWords && Fits(c, maxWords)
    ensures LinesBound(Lines(Join(TerminateAll(chunks), "\n")), chunks, maxWords)
  {
    FitOneByOne(chunks, TerminateAll(chunks), maxWords);
    LinesOfJoin(TerminateAll(chunks));
  }

  lemma FitOneByOne(chunks: seq<string>, all: seq<string>, maxWords: int)
    requires |all| == |chunks| && forall i :: 0 <= i < |all| ==> all[i] == Terminate(chunks[i])
    requires forall c :: c in chunks ==> 1 <= WordCount(c) <= maxWords && Fits(c, maxWords)
    ensures LinesBound(all, chunks, maxWords) && forall l :: l in all ==> '\n' !in l
  {
    forall i | 0 <= i < |chunks| ensures '\n' !in all[i] && 1 <= WordCount(all[i]) <= maxWords && EndsSentence(all[i]) {
      assert chunks[i] in chunks;
      FitsMeaning(chunks[i], maxWords);
    }
  }

  lemma NotBound(chunks: seq<string>, maxWords: int)
    requires forall c :: c in chunks ==> 1 <= WordCount(c) <= maxWords
    requires exists c :: c in chunks && !Fits(c, maxWords)
    ensures !LinesBound(Lines(Join(TerminateAll(chunks), "\n")), chunks, maxWords)
  {
    var lines := Lines(Join(TerminateAll(chunks), "\n"));
    var c :| c in chunks && !Fits(c, maxWords);
    var i: nat :| i < |chunks| && chunks[i] == c;
    FitsMeaning(c, maxWords);
    if i < |lines| { LinesAreLines(Join(TerminateAll(chunks), "\n"), i); }
  }

  /** All chunks fit, for example, if no piece of the sentences holds a line feed or ends with white
      space that Terminate leaves. */
  lemma TidyPiecesFit(input: string, maxWords: int, targetWords: int, segmented: Option<seq<string>>)
    requires Rewrites(input, maxWords, targetWords, true, segmented)
    requires forall s :: s in Pieces(Sentences(input, segmented), maxWords) ==> Tidy(s)
    ensures LinesBound(LinesOf(input, maxWords, targetWords, segmented),
                       LineChunks(input, maxWords, targetWords, segmented), maxWords)
  {
    var sentences := Sentences(input, segmented);
    var target := if targetWords <= 0 then maxWords / 2 else targetWords;
    var groups := Groups(sentences, target, maxWords);
    var chunks := Chunks(groups);
    PackCutsOnlyOversized(sentences, target, maxWords);
    PackRespectsCap(sentences, target, maxWords);
    forall i | 0 <= i < |chunks| ensures Fits(chunks[i], maxWords) {
      assert groups[i] in groups && chunks[i] in chunks;
      LineOfGroup(groups, groups[i]);
      FitsMeaning(chunks[i], maxWords);
    }
    LinesWithinCap(input, maxWords, targetWords, segmented);
  }

  /** Two sentences that are too long together become two chunks. */
  lemma TwoChunks(a: string, b: string, targetWords: int, maxWords: nat)
    requires 1 <= WordCount(a) <= maxWords && 1 <= WordCount(b) <= maxWords
    requires WordCount(a) + WordCount(b) > Target(targetWords, maxWords)
    ensures Chunks(Groups([a, b], targetWords, maxWords)) == [a, b]
  {
    var target := Target(targetWords, maxWords);
    assert Front([a, b]) == [a] && Front([a]) == [];
    assert Packed([a], target, maxWords) == Packing([], [a], WordCount(a)) by { assert [] + [a] == [a]; }
    assert Packed([a, b], target, maxWords) == Packing([[a]], [b], WordCount(b))
        by { assert [] + [[a]] == [[a]] && [] + [b] == [b]; }
    ChunksPlus([[a]], [b]);
    ChunksPlus([], [a]);
    assert [[a]] + [[b]] == [[a], [b]] && [] + [[a]] == [[a]] && [] + [a] == [a];
  }

  lemma LinesOfTwo(a: string, b: string)
    requires '\n' !in b
    ensures Lines(Join(TerminateAll([a, b]), "\n")) == Lines(Terminate(a)) + [Terminate(b)]
  {
    var all := TerminateAll([a, b]);
    assert Front(all) == [Terminate(a)] && Last(all) == Terminate(b);
    TrimKeeps(b);
    LinesOfSum(Terminate(a), Terminate(b));
  }

  /** The lines of a request that falls into two sentences. */
  lemma TwoLines(input: string, a: string, b: string, maxWords: nat)
    requires 1 <= WordCount(a) <= maxWords && 1 <= WordCount(b) <= maxWords && '\n' !in b
    requires WordCount(a) + WordCount(b) > Target(maxWords / 2, maxWords) && WordCount(input) > maxWords
    ensures Rewrites(input, maxWords, 0, true, Some([a, b]))
    ensures LinesOf(input, maxWords, 0, Some([a, b])) == Lines(Terminate(a)) + [Terminate(b)]
  {
    TwoChunks(a, b, maxWords / 2, maxWords);
    LinesOfTwo(a, b);
  }

  predicate Plain(c: char) { !IsSpace(c) && c !in " \t\r\n" && c !in TERMINATORS }

  lemma Letter(c: char)
    requires Plain(c)
    ensures Fields([c]) == [[c]] && !EndsSentence([c]) && Terminate([c]) == [c, '.']
  {
    FieldsOfWord([c]);
    assert TrimRight([c]) == [c] && [c] + "." == [c, '.'];
  }

  lemma TwoWords(x: char, sep: char, y: char)
    requires Plain(x) && Plain(y) && IsSpace(sep)
    ensures Fields([x, sep, y]) == [[x], [y]]
  {
    Letter(x);
    Letter(y);
    assert [x] + [sep] + [y] == [x, sep, y];
    FieldsOfSum([x], sep, [y]);
  }

  lemma PlainA()
    ensures Plain('a')
  {}

  lemma PlainB()
    ensures Plain('b')
  {}

  lemma PlainC()
    ensures Plain('c')
  {}

  /** A segmenter that leaves a no-break space behind a sentence: with a cap of one word, a line has two. */
  lemma SpaceBreaksCap()
    ensures var segmented := Some(["a\U{A0}", "b"]);
            && Rewrites("a b", 1, 0, true, segmented)
            && LinesOf("a b", 1, 0, segmented) == ["a\U{A0}.", "b."] && WordCount("a\U{A0}.") == 2
  {
    BlankWords();
    SpaceWords("a\U{A0}");
    TwoLines("a b", "a\U{A0}", "b", 1);
  }

  lemma BlankWords()
    ensures WordCount("a b") == 2 && WordCount("b") == 1 && Terminate("b") == "b." && '\n' !in "b"
  {
    PlainA();
    PlainB();
    Letter('b');
    TwoWords('a', ' ', 'b');
  }

  lemma SpaceWords(t: string)
    requires t == "a\U{A0}"
    ensures WordCount(t) == 1 && Terminate(t) == "a\U{A0}." && WordCount("a\U{A0}.") == 2
    ensures Lines("a\U{A0}.") == ["a\U{A0}."]
  {
    TerminateMayAddAWord();
    SpaceStays(t);
    assert t + "." == "a\U{A0}.";
  }

  lemma SpaceStays(t: string)
    requires |t| == 2 && t[1] == '\U{A0}' && t[0] != '\n'
    ensures Terminate(t) == t + "." && Lines(t + ".") == [t + "."]
  {
    assert TrimRight(t) == t && Last(t) !in TERMINATORS;
    LineOf(t + ".");
  }

  /** A segmenter that leaves a line feed inside a sentence: a line has no terminator. */
  lemma LineFeedBreaksLine()
    ensures var segmented := Some(["a\nb", "c"]);
            && Rewrites("a b c", 2, 0, true, segmented)
            && LinesOf("a b c", 2, 0, segmented) == ["a", "b.", "c."] && !EndsSentence("a")
  {
    PlainA();
    PlainB();
    PlainC();
    Letter('a');
    Letter('c');
    ThreeWords();
    TwoWords('a', '\n', 'b');
    LineFeedStays("a\nb");
    TwoLines("a b c", "a\nb", "c", 2);
  }

  lemma ThreeWords()
    requires Plain('a') && Plain('b') && Plain('c')
    ensures WordCount("a b c") == 3
  {
    TwoWords('a', ' ', 'b');
    Letter('c');
    assert "a b" + [' '] + "c" == "a b c";
    FieldsOfSum("a b", ' ', "c");
  }

  lemma LineFeedStays(t: string)
    requires t == "a\nb" && Plain('b')
    ensures Terminate(t) == "a\nb." && Lines("a\nb.") == ["a", "b."]
  {
    assert TrimRight(t) == t && t + "." == "a\nb." && "a" + "\n" + "b." == "a\nb.";
    LineOf("a");
    LinesOfSum("a", "b.");
  }

  lemma AtMostOne(chunks: seq<string>, max: nat)
    requires forall c :: c in chunks ==> WordCount(c) <= max
    ensures |chunks| <= 1 ==> |AllWords(chunks)| <= max
  {
    if |chunks| == 1 { assert AllWords(Front(chunks)) == [] && Last(chunks) in chunks; }
  }

  /** Without an answer from the segmenter, a long request always becomes several lines, each of at
      most maxWords words and ended by a terminator; before termination they hold its words in order. */
  lemma FallbackLines(input: string, maxWords: int, targetWords: int, segmented: Option<seq<string>>)
    requires 0 < maxWords < WordCount(input) && (segmented.Some? ==> segmented.value == [])
    ensures Rewrites(input, maxWords, targetWords, true, segmented)
    ensures var chunks := LineChunks(input, maxWords, targetWords, segmented);
            AllWords(chunks) == Fields(input)
                && LinesBound(LinesOf(input, maxWords, targetWords, segmented), chunks, maxWords)
  {
    var target := if targetWords <= 0 then maxWords / 2 else targetWords;
    PackKeepsWords([input], target, maxWords);
    PackRespectsCap([input], target, maxWords);
    assert Front([input]) == [];
    assert AllWords([input]) == Fields(input) && Pieces([input], maxWords) == Fields(input);
    var chunks := LineChunks(input, maxWords, targetWords, segmented);
    AtMostOne(chunks, maxWords);
    forall s | s in Pieces([input], maxWords) ensures Tidy(s) { WordTidy(s); }
    TidyPiecesFit(input, maxWords, targetWords, segmented);
  }
}
