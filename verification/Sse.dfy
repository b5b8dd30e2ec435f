/** The incremental event reader against the line rule of the HTML Living Standard, section 9.2.5:
    a line ends with CR LF, with LF or with CR. */
module Sse {
  import opened Basics

  type Byte = bv8
  type Bytes = seq<Byte>

  const LF: Byte := 10
  const CR: Byte := 13
  /** "data: " and "[DONE]". */
  const PREFIX: Bytes := [100, 97, 116, 97, 58, 32]
  const DONE: Bytes := [91, 68, 79, 78, 69, 93]

  datatype Event = Event(kind: string, base64: string)

  /** The three fields that the JSON decoder fills. */
  datatype Raw = Raw(kind: string, audio: string, data: string)

  /** What lies outside the reader: strings.TrimSpace, the JSON decoder, and whether the callback
      accepts the last of the events it has been given. */
  datatype World = World(trim: Bytes -> Bytes, decode: Bytes -> Option<Raw>, accepts: seq<Event> -> bool)

  datatype Outcome = Going | Finished | Refused

  datatype Result = Ok | EmitError | ReadError

  // ---------- one line ----------

  /** The event of a line, if it has one. */
  function EventOf(line: Bytes, w: World): Option<Event> {
    if !(PREFIX <= line) then None
    else
      var data := w.trim(line[6..]);
      if data == DONE then Some(Event("done", ""))
      else
        match w.decode(data)
        case None => None
        case Some(raw) =>
          if raw.kind == "speech.audio.delta"
            then Some(Event(raw.kind, if raw.audio == "" then raw.data else raw.audio))
          else if raw.kind == "speech.audio.done" then Some(Event(raw.kind, ""))
          else None
  }

  /** The events that end the stream. */
  predicate Ends(e: Event) { e.kind == "done" || e.kind == "speech.audio.done" }

  function Handle(line: Bytes, events: seq<Event>, w: World): (seq<Event>, Outcome) {
    match EventOf(line, w)
    case None => (events, Going)
    case Some(e) => (events + [e], if !w.accepts(events + [e]) then Refused else if Ends(e) then Finished else Going)
  }

  /** Line after line, until an event ends the stream or is refused. */
  function Feed(lines: seq<Bytes>, events: seq<Event>, w: World): (seq<Event>, Outcome) {
    if |lines| == 0 then (events, Going)
    else
      var (now, outcome) := Handle(lines[0], events, w);
      if outcome == Going then Feed(lines[1..], now, w) else (now, outcome)
  }

  /** What one line does. Without "data: " in front, and for "[DONE]" behind it: */
  lemma LineWithoutData(line: Bytes, events: seq<Event>, w: World)
    ensures Feed([], events, w) == (events, Going)
    ensures !([100, 97, 116, 97, 58, 32] <= line) ==> Feed([line], events, w) == (events, Going)
    ensures [100, 97, 116, 97, 58, 32] <= line && w.trim(line[6..]) == [91, 68, 79, 78, 69, 93] ==>
              Feed([line], events, w) ==
                var now := events + [Event("done", "")]; (now, if w.accepts(now) then Finished else Refused)
  {
    assert [line][1..] == [];
  }

  /** A line that decodes to a delta has one event, with the audio of the first field that is not
      empty, and the stream goes on; one that decodes to the end of the audio has one event and ends
      the stream; any other line, and one that cannot be decoded, has none. */
  lemma LineWithData(line: Bytes, events: seq<Event>, w: World)
    requires [100, 97, 116, 97, 58, 32] <= line && w.trim(line[6..]) != [91, 68, 79, 78, 69, 93]
    ensures w.decode(w.trim(line[6..])).None? ==> Feed([line], events, w) == (events, Going)
    ensures forall audio, data ::
              w.decode(w.trim(line[6..])) == Some(Raw("speech.audio.delta", audio, data)) ==>
                var now := events + [Event("speech.audio.delta", if audio != "" then audio else data)];
                Feed([line], events, w) == (now, if w.accepts(now) then Going else Refused)
    ensures forall audio, data ::
              w.decode(w.trim(line[6..])) == Some(Raw("speech.audio.done", audio, data)) ==>
                var now := events + [Event("speech.audio.done", "")];
                Feed([line], events, w) == (now, if w.accepts(now) then Finished else Refused)
    ensures forall kind, audio, data ::
              w.decode(w.trim(line[6..])) == Some(Raw(kind, audio, data))
              && kind != "speech.audio.delta" && kind != "speech.audio.done" ==>
                Feed([line], events, w) == (events, Going)
  {
    assert [line][1..] == [];
  }

  lemma {:induction false} FeedSum(a: seq<Bytes>, b: seq<Bytes>, events: seq<Event>, w: World)
    ensures Feed(a + b, events, w) ==
            if Feed(a, events, w).1 == Going then Feed(b, Feed(a, events, w).0, w) else Feed(a, events, w)
  {
    if |a| == 0 {
      assert a + b == b;
    } else {
      assert (a + b)[1..] == a[1..] + b;
      FeedSum(a[1..], b, Handle(a[0], events, w).0, w);
    }
  }

  /** An empty line has no event. */
  lemma EmptyLine(rest: seq<Bytes>, events: seq<Event>, w: World)
    ensures Feed([[]] + rest, events, w) == Feed(rest, events, w)
  {
    assert ([[]] + rest)[1..] == rest;
  }

  // ---------- lines of a whole stream ----------

  predicate IsEnd(b: Byte) { b == LF || b == CR }

  predicate Endless(s: Bytes) { forall i :: 0 <= i < |s| ==> !IsEnd(s[i]) }

  /** The position of the first line end, or the length of the stream. */
  function FirstEnd(s: Bytes): (n: nat)
    ensures n <= |s| && Endless(s[..n]) && (n < |s| ==> IsEnd(s[n]))
  {
    if |s| == 0 || IsEnd(s[0]) then 0
    else
      assert forall i :: 0 < i < 1 + FirstEnd(s[1..]) ==> s[i] == s[1..][..FirstEnd(s[1..])][i-1];
      1 + FirstEnd(s[1..])
  }

  /** A CR LF in the stream. */
  predicate PairAt(s: Bytes, n: nat) { n + 1 < |s| && s[n] == CR && s[n+1] == LF }

  /** The finished lines of a stream. */
  function Lines(s: Bytes): seq<Bytes>
    decreases |s|
  {
    var n := FirstEnd(s);
    if n == |s| then [] else [s[..n]] + Lines(if PairAt(s, n) then s[n+2..] else s[n+1..])
  }

  /** Where a line ends, in bytes: at 13 and 10, at 10, and at a 13 that no 10 follows. */
  lemma LinesInBytes(line: Bytes, rest: Bytes)
    requires forall i :: 0 <= i < |line| ==> line[i] != 10 && line[i] != 13
    ensures Lines(line) == []
    ensures Lines(line + [13, 10] + rest) == [line] + Lines(rest)
    ensures Lines(line + [10] + rest) == [line] + Lines(rest)
    ensures |rest| == 0 || rest[0] != 10 ==> Lines(line + [13] + rest) == [line] + Lines(rest)
  {
    NoEnd(line);
    TwoEnds(line, rest);
    OneEnd(line, 10, rest);
    if |rest| == 0 || rest[0] != 10 { OneEnd(line, 13, rest); }
  }

  lemma NoEnd(line: Bytes)
    requires Endless(line)
    ensures Lines(line) == []
  {
    EndlessEnd(line, []);
    assert line + [] == line;
  }

  lemma EndAt(line: Bytes, e: Byte, rest: Bytes)
    requires Endless(line) && IsEnd(e)
    ensures var s := line + [e] + rest;
            FirstEnd(s) == |line| && s[..|line|] == line && s[|line|] == e && s[|line|+1..] == rest
  {
    var s := line + [e] + rest;
    assert s == line + ([e] + rest);
    EndlessEnd(line, [e] + rest);
  }

  lemma OneEnd(line: Bytes, e: Byte, rest: Bytes)
    requires Endless(line) && IsEnd(e) && !(e == CR && |rest| > 0 && rest[0] == LF)
    ensures Lines(line + [e] + rest) == [line] + Lines(rest)
  {
    EndAt(line, e, rest);
    var s := line + [e] + rest;
    assert |line| + 1 < |s| ==> s[|line|+1] == rest[0];
  }

  lemma TwoEnds(line: Bytes, rest: Bytes)
    requires Endless(line)
    ensures Lines(line + [13, 10] + rest) == [line] + Lines(rest)
  {
    var s := line + [CR] + ([LF] + rest);
    EndAt(line, CR, [LF] + rest);
    assert s[|line|+1] == LF && s[|line|+2..] == rest;
    assert line + [13, 10] + rest == s;
  }

  /** The same with every CR and every LF a line end of its own. */
  function Pieces(s: Bytes): seq<Bytes>
    decreases |s|
  {
    var n := FirstEnd(s);
    if n == |s| then [] else [s[..n]] + Pieces(s[n+1..])
  }

  /** What follows the last line end. */
  function Tail(s: Bytes): (t: Bytes)
    ensures Endless(t)
    decreases |s|
  {
    var n := FirstEnd(s);
    if n == |s| then assert s[..n] == s; s else Tail(s[n+1..])
  }

  lemma PiecesFirst(s: Bytes, n: nat)
    requires n == FirstEnd(s) < |s|
    ensures Pieces(s) == [s[..n]] + Pieces(s[n+1..])
  {}

  /** The extra pieces are empty, so the events are the same. */
  lemma {:induction false} SameEvents(s: Bytes, events: seq<Event>, w: World)
    ensures Feed(Lines(s), events, w) == Feed(Pieces(s), events, w)
    decreases |s|
  {
    var n := FirstEnd(s);
    if n < |s| {
      var now := Handle(s[..n], events, w).0;
      var rest := if PairAt(s, n) then s[n+2..] else s[n+1..];
      PiecesFirst(s, n);
      SameEvents(rest, now, w);
      if PairAt(s, n) { SplitEnd(s, n, now, w); }
      FeedFirst(s[..n], Lines(rest), events, w);
      FeedFirst(s[..n], Pieces(s[n+1..]), events, w);
    }
  }

  /** The piece between CR and LF is an empty line. */
  lemma SplitEnd(s: Bytes, n: nat, events: seq<Event>, w: World)
    requires n + 1 < |s| && s[n+1] == LF
    ensures Feed(Pieces(s[n+1..]), events, w) == Feed(Pieces(s[n+2..]), events, w)
  {
    var rest := s[n+1..];
    assert FirstEnd(rest) == 0 && rest[1..] == s[n+2..] && rest[..0] == [];
    EmptyLine(Pieces(s[n+2..]), events, w);
  }

  lemma FeedFirst(line: Bytes, rest: seq<Bytes>, events: seq<Event>, w: World)
    ensures Feed([line] + rest, events, w) ==
            if Handle(line, events, w).1 == Going then Feed(rest, Handle(line, events, w).0, w)
              else Handle(line, events, w)
  {
    assert ([line] + rest)[1..] == rest;
  }

  lemma EndlessEnd(s: Bytes, rest: Bytes)
    requires Endless(s)
    ensures FirstEnd(s + rest) == |s| + FirstEnd(rest)
  {
    if |s| > 0 {
      assert (s + rest)[1..] == s[1..] + rest && (s + rest)[0] == s[0];
      EndlessEnd(s[1..], rest);
    } else {
      assert s + rest == rest;
    }
  }

  lemma PiecesAt(line: Bytes, e: Byte, rest: Bytes)
    requires Endless(line) && IsEnd(e)
    ensures Pieces(line + [e] + rest) == [line] + Pieces(rest) && Tail(line + [e] + rest) == Tail(rest)
  {
    var s := line + [e] + rest;
    assert s == line + ([e] + rest);
    EndlessEnd(line, [e] + rest);
    assert s[..|line|] == line && s[|line|+1..] == rest;
  }

  /** What a second part of the stream adds to the pieces of the first. */
  lemma {:induction false} PiecesGrow(a: Bytes, b: Bytes)
    ensures Pieces(a + b) == Pieces(a) + Pieces(Tail(a) + b) && Tail(a + b) == Tail(Tail(a) + b)
    decreases |a|
  {
    var n := FirstEnd(a);
    if n < |a| {
      var first, rest := a[..n], a[n+1..];
      PiecesGrow(rest, b);
      PiecesAt(first, a[n], rest);
      PiecesAt(first, a[n], rest + b);
      SplitAt(a, b, n);
      Associative([first], Pieces(rest), Pieces(Tail(rest) + b));
    } else {
      NoPieces(a);
    }
  }

  lemma NoPieces(a: Bytes)
    requires FirstEnd(a) == |a|
    ensures Pieces(a) == [] && Tail(a) == a
  {}

  lemma SplitAt<T>(a: seq<T>, b: seq<T>, n: nat)
    requires n < |a|
    ensures a == a[..n] + [a[n]] + a[n+1..] && a + b == a[..n] + [a[n]] + (a[n+1..] + b)
  {}

  lemma Associative<T>(a: seq<T>, b: seq<T>, c: seq<T>)
    ensures a + (b + c) == a + b + c
  {}

  // ---------- the reader ----------

  function Concat(parts: seq<Bytes>): Bytes {
    if |parts| == 0 then [] else Concat(parts[..|parts|-1]) + parts[|parts|-1]
  }

  method IndexLineEnd(b: Bytes) returns (idx: int)
    ensures idx == if FirstEnd(b) == |b| then -1 else FirstEnd(b)
  {
    for i := 0 to |b|
      invariant Endless(b[..i])
    {
      if IsEnd(b[i]) {
        assert b == b[..i] + b[i..];
        EndlessEnd(b[..i], b[i..]);
        return i;
      }
    }
    assert b[..|b|] == b && b == b + [];
    EndlessEnd(b, []);
    return -1;
  }

  lemma TailFirst(s: Bytes, n: nat)
    requires n == FirstEnd(s) < |s|
    ensures Tail(s) == Tail(s[n+1..])
    ensures PairAt(s, n) ==> Tail(s) == Tail(s[n+2..])
  {
    if PairAt(s, n) {
      var rest := s[n+1..];
      assert FirstEnd(rest) == 0 && rest[1..] == s[n+2..];
    }
  }

  /** One turn of the loop below. */
  lemma DrainTurn(buf: Bytes, n: nat, events: seq<Event>, w: World)
    requires n == FirstEnd(buf) < |buf|
    ensures var h, skip := Handle(buf[..n], events, w), if PairAt(buf, n) then n + 2 else n + 1;
            && Feed(Pieces(buf), events, w) == (if h.1 == Going then Feed(Pieces(buf[skip..]), h.0, w) else h)
            && Tail(buf) == Tail(buf[skip..])
  {
    PiecesFirst(buf, n);
    FeedFirst(buf[..n], Pieces(buf[n+1..]), events, w);
    if PairAt(buf, n) { SplitEnd(buf, n, Handle(buf[..n], events, w).0, w); }
    TailFirst(buf, n);
  }

  /** The inner loop: handles all finished lines of the buffer. */
  method DrainBuffer(buf0: Bytes, events0: seq<Event>, w: World)
    returns (buf: Bytes, events: seq<Event>, outcome: Outcome)
    ensures (events, outcome) == Feed(Pieces(buf0), events0, w)
    ensures outcome == Going ==> buf == Tail(buf0)
  {
    buf, events := buf0, events0;
    while true
      invariant Feed(Pieces(buf0), events0, w) == Feed(Pieces(buf), events, w) && Tail(buf) == Tail(buf0)
      decreases |buf|
    {
      var idx := IndexLineEnd(buf);
      if idx < 0 { return buf, events, Going; }
      DrainTurn(buf, idx, events, w);
      var line := buf[..idx];
      var skip := idx + 1;
      if skip < |buf| && buf[idx] == CR && buf[skip] == LF {
        skip := skip + 1;
      }
      buf := buf[skip..];
      var e := EventOf(line, w);
      if e.Some? {
        events := events + [e.value];
        if !w.accepts(events) { return buf, events, Refused; }
        if Ends(e.value) { return buf, events, Finished; }
      }
    }
  }

  /** readSSEEvents. `parts` are the reads without an error; `last` is what the read that reports
      the end of the stream, or another error, delivers with it. However the stream is cut into
      parts, the events are those of its lines. */
  method ReadEvents(parts: seq<Bytes>, last: Bytes, eof: bool, w: World)
    returns (events: seq<Event>, result: Result, ghost leftover: Bytes)
    ensures events == Feed(Lines(Concat(parts) + last), [], w).0
    ensures var outcome := Feed(Lines(Concat(parts) + last), [], w).1;
            result == if outcome == Finished then Ok else if outcome == Refused then EmitError else if eof then Ok
              else ReadError
    ensures Feed(Lines(Concat(parts) + last), [], w).1 == Going
            ==> leftover == Tail(Concat(parts) + last) && Endless(leftover)
  {
    var buf: Bytes, outcome := [], Going;
    events := [];
    ghost var whole := Concat(parts) + last;
    SameEvents(whole, [], w);
    var i := 0;
    while true
      invariant 0 <= i <= |parts|
      invariant buf == Tail(Concat(parts[..i])) && (events, Going) == Feed(Pieces(Concat(parts[..i])), [], w)
      decreases |parts| - i
    {
      var data := if i < |parts| then parts[i] else last;
      ghost var so := Concat(parts[..i]);
      ghost var known := events;
      PiecesGrow(so, data);
      FeedSum(Pieces(so), Pieces(buf + data), [], w);
      Consumed(parts, last, i, w);
      buf, events, outcome := DrainBuffer(buf + data, events, w);
      leftover := buf;
      if outcome == Finished { return events, Ok, leftover; }
      if outcome == Refused { return events, EmitError, leftover; }
      if i == |parts| { return events, if eof then Ok else ReadError, leftover; }
      assert parts[..i+1][..i] == parts[..i];
      i := i + 1;
    }
  }

  /** What has been consumed after read i is the beginning of the whole stream. */
  lemma Consumed(parts: seq<Bytes>, last: Bytes, i: nat, w: World)
    requires i <= |parts|
    ensures var so := Concat(parts[..i]) + if i < |parts| then parts[i] else last;
            && (i == |parts| ==> so == Concat(parts) + last)
            && (Feed(Pieces(so), [], w).1 != Going
                ==> Feed(Pieces(Concat(parts) + last), [], w) == Feed(Pieces(so), [], w))
  {
    var so := Concat(parts[..i]) + if i < |parts| then parts[i] else last;
    if i == |parts| {
      assert parts[..i] == parts;
    } else {
      assert parts[..i+1][..i] == parts[..i];
      ConcatSum(parts, i + 1);
      var rest := Concat(parts[i+1..]) + last;
      assert Concat(parts) + last == so + rest;
      PiecesGrow(so, rest);
      FeedSum(Pieces(so), Pieces(Tail(so) + rest), [], w);
    }
  }

  lemma {:induction false} ConcatSum(parts: seq<Bytes>, i: nat)
    requires i <= |parts|
    ensures Concat(parts) == Concat(parts[..i]) + Concat(parts[i..])
  {
    if i == |parts| {
      assert parts[..i] == parts;
    } else {
      var front := parts[..|parts|-1];
      ConcatSum(front, i);
      assert front[..i] == parts[..i];
      assert parts[i..][..|parts[i..]|-1] == front[i..];
      assert Concat(parts[i..]) == Concat(front[i..]) + parts[|parts|-1];
    }
  }

  // ---------- what a sender may write ----------

  datatype LineEnd = LineFeed | Return | ReturnLineFeed

  function Ending(e: LineEnd): Bytes {
    match e
    case LineFeed => [LF]
    case Return => [CR]
    case ReturnLineFeed => [CR, LF]
  }

  /** Lines with any choice of line ends. */
  function Render(lines: seq<Bytes>, ends: seq<LineEnd>): Bytes
    requires |lines| == |ends|
  {
    if |lines| == 0 then [] else lines[0] + Ending(ends[0]) + Render(lines[1..], ends[1..])
  }

  lemma PiecesOfLine(line: Bytes, e: LineEnd, rest: Bytes)
    requires Endless(line)
    ensures Pieces(line + Ending(e) + rest) == [line] + (if e.ReturnLineFeed? then [[]] else []) + Pieces(rest)
  {
    if e.ReturnLineFeed? {
      PiecesAt(line, CR, [LF] + rest);
      PiecesAt([], LF, rest);
      assert [CR, LF] == [CR] + [LF] && [] + [LF] == [LF];
      Associative(line + [CR], [LF], rest);
      Associative(line, [CR], [LF]);
      Associative([line], [[]], Pieces(rest));
    } else {
      PiecesAt(line, if e.Return? then CR else LF, rest);
      assert [line] + [] == [line];
    }
  }

  lemma RenderedLine(line: Bytes, e: LineEnd, rest: Bytes, events: seq<Event>, w: World)
    requires Endless(line)
    ensures var h := Handle(line, events, w);
            Feed(Pieces(line + Ending(e) + rest), events, w) ==
            if h.1 == Going then Feed(Pieces(rest), h.0, w) else h
  {
    PiecesOfLine(line, e, rest);
    if e.ReturnLineFeed? {
      assert [line] + [[]] + Pieces(rest) == [line] + ([[]] + Pieces(rest));
      FeedFirst(line, [[]] + Pieces(rest), events, w);
      EmptyLine(Pieces(rest), Handle(line, events, w).0, w);
    } else {
      assert [line] + [] + Pieces(rest) == [line] + Pieces(rest);
      FeedFirst(line, Pieces(rest), events, w);
    }
  }

  /** Whatever line ends the sender uses, the events of the stream are those of the lines sent. */
  lemma {:induction false} AnyLineEnds(lines: seq<Bytes>, ends: seq<LineEnd>, events: seq<Event>, w: World)
    requires |lines| == |ends| && forall l :: l in lines ==> Endless(l)
    ensures Feed(Lines(Render(lines, ends)), events, w) == Feed(lines, events, w)
  {
    SameEvents(Render(lines, ends), events, w);
    if |lines| > 0 {
      var rest, now := Render(lines[1..], ends[1..]), Handle(lines[0], events, w).0;
      AnyLineEnds(lines[1..], ends[1..], now, w);
      SameEvents(rest, now, w);
      RenderedLine(lines[0], ends[0], rest, events, w);
    } else {
      assert Render(lines, ends) == [];
    }
  }
}
