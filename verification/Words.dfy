/** White space and words as Go's unicode.IsSpace, strings.Fields, strings.Join and
    strings.TrimRight see them, on text that is a sequence of code points. */
module Words {
  import opened Basics

  const SPACES: string := "\t\n\U{0B}\U{0C}\r \U{85}\U{A0}\U{1680}\U{2028}\U{2029}\U{202F}\U{205F}\U{3000}"

  /** The block of blanks of several widths. */
  const WIDTHS: string :=
    "\U{2000}\U{2001}\U{2002}\U{2003}\U{2004}\U{2005}\U{2006}\U{2007}\U{2008}\U{2009}\U{200A}"

  predicate IsSpace(c: char) { c in SPACES || c in WIDTHS }

  /** The white space of Unicode, in code points. */
  lemma SpaceInNumbers(c: char)
    ensures IsSpace(c) <==>
            var n := c as int;
            9 <= n <= 13 || n == 32 || n == 0x85 || n == 0xA0 || n == 0x1680 || 0x2000 <= n <= 0x200A
            || n == 0x2028 || n == 0x2029 || n == 0x202F || n == 0x205F || n == 0x3000
  {
    assert SPACES[0] as int == 9 && SPACES[1] as int == 10 && SPACES[2] as int == 11 && SPACES[3] as int == 12;
    assert WIDTHS[0] as int == 0x2000 && WIDTHS[10] as int == 0x200A;
  }

  /** Without any white space, and not empty. */
  predicate IsWord(w: string) { |w| > 0 && forall c :: c in w ==> !IsSpace(c) }

  /** The words between white space, from the left; built up from the right end of the text. */
  function Fields(s: string): (r: seq<string>)
    ensures forall w :: w in r ==> IsWord(w)
    ensures |s| > 0 && !IsSpace(Last(s)) ==> |r| > 0
  {
    if |s| == 0 then []
    else
      var r := Fields(Front(s));
      if IsSpace(Last(s)) then r
      else if |s| == 1 || IsSpace(Last(Front(s))) then r + [[Last(s)]]
      else
        assert Last(r) in r && forall w :: w in Front(r) ==> w in r;
        Front(r) + [Last(r) + [Last(s)]]
  }

  function WordCount(text: string): nat { |Fields(text)| }

  function Flatten<T>(s: seq<seq<T>>): seq<T> {
    if |s| == 0 then [] else Flatten(Front(s)) + Last(s)
  }

  /** The words of several texts, one after the other. */
  function AllWords(s: seq<string>): seq<string> {
    if |s| == 0 then [] else AllWords(Front(s)) + Fields(Last(s))
  }

  function Join(s: seq<string>, sep: string): string {
    if |s| == 0 then [] else if |s| == 1 then s[0] else Join(Front(s), sep) + sep + Last(s)
  }

  /** strings.TrimRight with the cutset of EndsSentence and Terminate. */
  function TrimRight(s: string): string {
    if |s| > 0 && Last(s) in " \t\r\n" then TrimRight(Front(s)) else s
  }

  lemma FrontOfSum<T>(a: seq<T>, b: seq<T>)
    requires |b| > 0
    ensures Front(a + b) == a + Front(b) && Last(a + b) == Last(b)
  {}

  /** What one more character makes of the words. */
  lemma OneMore(s: string, c: char)
    ensures IsSpace(c) ==> Fields(s + [c]) == Fields(s)
    ensures !IsSpace(c) && (|s| == 0 || IsSpace(Last(s))) ==> Fields(s + [c]) == Fields(s) + [[c]]
    ensures !IsSpace(c) && |s| > 0 && !IsSpace(Last(s)) ==>
              Fields(s + [c]) == Front(Fields(s)) + [Last(Fields(s)) + [c]]
  {
    var t := s + [c];
    assert Front(t) == s && Last(t) == c && |t| == |s| + 1;
  }

  /** A blank between two texts keeps their words apart. */
  lemma {:induction false} FieldsOfSum(a: string, sep: char, b: string)
    requires IsSpace(sep)
    ensures Fields(a + [sep] + b) == Fields(a) + Fields(b)
  {
    if |b| == 0 {
      assert a + [sep] + b == a + [sep];
      OneMore(a, sep);
      assert Fields(a) + Fields(b) == Fields(a);
    } else {
      var front, c := Front(b), Last(b);
      FieldsOfSum(a, sep, front);
      assert b == front + [c] && a + [sep] + b == (a + [sep] + front) + [c];
      OneMore(front, c);
      OneMore(a + [sep] + front, c);
      LongerSum(a + [sep], front, Fields(a), Fields(front), c);
    }
  }

  lemma LongerSum(a: string, b: string, u: seq<string>, v: seq<string>, c: char)
    requires |a| > 0 && IsSpace(Last(a)) && (|b| > 0 && !IsSpace(Last(b)) ==> |v| > 0)
    ensures |b| > 0 && !IsSpace(Last(b)) ==>
              !IsSpace(Last(a + b)) && Front(u + v) + [Last(u + v) + [c]] == u + (Front(v) + [Last(v) + [c]])
    ensures |b| == 0 || IsSpace(Last(b)) ==> IsSpace(Last(a + b)) && u + v + [[c]] == u + (v + [[c]])
  {
    if |b| == 0 { assert a + b == a; }
  }

  lemma {:induction false} FieldsOfWord(w: string)
    requires IsWord(w)
    ensures Fields(w) == [w]
  {
    assert Last(w) in w;
    if |w| > 1 {
      assert Last(Front(w)) in w;
      forall c | c in Front(w) ensures c in w {}
      FieldsOfWord(Front(w));
      assert Front(w) + [Last(w)] == w;
    } else {
      assert w == [Last(w)];
    }
  }

  /** Joining texts with a blank keeps all their words. */
  lemma {:induction false} FieldsOfJoin(s: seq<string>, sep: char)
    requires IsSpace(sep)
    ensures Fields(Join(s, [sep])) == AllWords(s)
  {
    if |s| == 1 {
      assert AllWords(Front(s)) == [];
    } else if |s| > 1 {
      FieldsOfJoin(Front(s), sep);
      FieldsOfSum(Join(Front(s), [sep]), sep, Last(s));
    }
  }

  lemma {:induction false} WordsOfWords(ws: seq<string>)
    requires forall w :: w in ws ==> IsWord(w)
    ensures AllWords(ws) == ws
  {
    if |ws| > 0 {
      assert Last(ws) in ws;
      forall w | w in Front(ws) ensures IsWord(w) { assert w in ws; }
      WordsOfWords(Front(ws));
      FieldsOfWord(Last(ws));
      assert Front(ws) + [Last(ws)] == ws;
    }
  }

  lemma {:induction false} WordsOfSum(a: seq<string>, b: seq<string>)
    ensures AllWords(a + b) == AllWords(a) + AllWords(b)
  {
    if |b| == 0 {
      assert a + b == a;
    } else {
      FrontOfSum(a, b);
      WordsOfSum(a, Front(b));
      assert AllWords(a) + (AllWords(Front(b)) + Fields(Last(b))) == AllWords(a) + AllWords(Front(b)) + Fields(Last(b));
    }
  }

  lemma {:induction false} FlattenSum<T>(a: seq<seq<T>>, b: seq<seq<T>>)
    ensures Flatten(a + b) == Flatten(a) + Flatten(b)
  {
    if |b| == 0 {
      assert a + b == a;
    } else {
      FrontOfSum(a, b);
      FlattenSum(a, Front(b));
      assert Flatten(a) + (Flatten(Front(b)) + Last(b)) == Flatten(a) + Flatten(Front(b)) + Last(b);
    }
  }

  /** The trimmed text is what stands before the last characters that are all blanks, tabs or line ends. */
  lemma {:induction false} TrimmedLength(s: string)
    ensures |TrimRight(s)| <= |s| && TrimRight(s) == s[..|TrimRight(s)|]
    ensures forall k :: |TrimRight(s)| <= k < |s| ==> s[k] in " \t\r\n"
    ensures |TrimRight(s)| > 0 ==> s[|TrimRight(s)|-1] !in " \t\r\n"
  {
    if |s| > 0 && Last(s) in " \t\r\n" {
      var front := Front(s);
      TrimmedLength(front);
      forall k | |TrimRight(s)| <= k < |s| ensures s[k] in " \t\r\n" {
        assert k < |front| ==> s[k] == front[k];
      }
    }
  }

  lemma {:induction false} WordsOfTrimmed(s: string)
    ensures Fields(TrimRight(s)) == Fields(s)
    ensures |TrimRight(s)| > 0 ==> Last(TrimRight(s)) !in " \t\r\n"
    ensures TrimRight(TrimRight(s)) == TrimRight(s)
  {
    if |s| > 0 && Last(s) in " \t\r\n" {
      assert IsSpace(Last(s));
      WordsOfTrimmed(Front(s));
    }
  }

  lemma FlattenMore(r: seq<string>, w: string)
    ensures Flatten(r + [w]) == Flatten(r) + w
  {
    var t := r + [w];
    assert Front(t) == r && Last(t) == w;
  }

  lemma Associative<T>(a: seq<T>, b: seq<T>, c: seq<T>)
    ensures a + (b + c) == a + b + c
  {}

  lemma FlattenLonger(r: seq<string>, c: char)
    requires |r| > 0
    ensures Flatten(Front(r) + [Last(r) + [c]]) == Flatten(r) + [c]
  {
    FlattenMore(Front(r), Last(r) + [c]);
    Associative(Flatten(Front(r)), Last(r), [c]);
  }

  /** Fields loses nothing but white space. */
  lemma {:induction false} FieldsKeepText(s: string)
    ensures Flatten(Fields(s)) == Solid(s)
  {
    if |s| > 0 {
      var front, c := Front(s), Last(s);
      FieldsKeepText(front);
      assert s == front + [c];
      OneMore(front, c);
      FlattenMore(Fields(front), [c]);
      if |Fields(front)| > 0 { FlattenLonger(Fields(front), c); }
    }
  }

  function Solid(s: string): string {
    if |s| == 0 then [] else Solid(Front(s)) + if IsSpace(Last(s)) then [] else [Last(s)]
  }
}
