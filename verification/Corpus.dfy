/** The recorder of live sessions: one WAV file for the session, one clip for every settled line, and
    the manifest that lists them. */
module Corpus {
  import opened Basics
  import opened Wav
  import opened WavWriters
  import Words

  // ---------- from milliseconds to bytes ----------

  /** A thousandth; Go's division truncates toward zero. */
  function Thousandth(a: int): int { if a >= 0 then a / 1000 else -(-a / 1000) }

  function ByteOffset(ms: int, rate: int): int {
    var offset := Thousandth(ms * rate) * 2;
    if offset < 0 then -1 else offset
  }

  datatype Line = Line(text: string, startMs: int, durationMs: int)

  /** A window of the buffered audio, in bytes. */
  datatype Window = Window(start: nat, end: nat)

  /** The window of a line in `length` bytes of audio, unless the line is skipped. */
  function WindowOf(line: Line, rate: int, length: nat): (w: Option<Window>)
    ensures w.Some? ==> w.value.start < w.value.end <= length && w.value.start % 2 == 0 && w.value.end % 2 == 0
  {
    var start := ByteOffset(line.startMs, rate);
    var end := ByteOffset(line.startMs + line.durationMs, rate);
    if line.text == "" || line.durationMs <= 0 then None
    else if start < 0 || end > length || end <= start then None
    else Some(Window(start, end))
  }

  lemma ThousandthBounds(a: int)
    ensures a >= 0 ==> 0 <= Thousandth(a) * 1000 <= a < (Thousandth(a) + 1) * 1000
    ensures Thousandth(a) < 0 <==> a <= -1000
  {}

  /** A line is recorded exactly if it has text and a positive duration, does not begin before the
      audio or end after it, and spans at least one sample. A start up to one sample before the
      audio counts as its beginning, which a rate of 1000 or more rules out. */
  lemma RecordedLines(line: Line, rate: int, length: nat)
    requires rate > 0
    ensures WindowOf(line, rate, length).Some? <==>
            && line.text != "" && line.durationMs > 0
            && line.startMs * rate > -1000
            && (var first := if line.startMs > 0 then line.startMs * rate / 1000 else 0;
                var last := (line.startMs + line.durationMs) * rate / 1000;
                first < last && 2 * last <= length)
    ensures rate >= 1000 && WindowOf(line, rate, length).Some? ==> line.startMs >= 0
  {
    ThousandthBounds(line.startMs * rate);
    ThousandthBounds((line.startMs + line.durationMs) * rate);
    if rate >= 1000 && line.startMs < 0 { assert line.startMs * rate <= -1000; }
  }

  /** A line that begins before the audio and is recorded. */
  lemma EarlyLine()
    ensures WindowOf(Line("a", -1, 20), 100, 2) == Some(Window(0, 2))
  {
    assert Thousandth(-100) == 0 && Thousandth(1900) == 1;
  }

  /** The window begins and ends at the samples of the line's two times, rounded down, and is
      within one sample of the line's duration; a start before the audio counts as its beginning, which
      can cost up to one sample more. */
  lemma WindowTimes(line: Line, rate: int, length: nat)
    requires rate > 0 && WindowOf(line, rate, length).Some?
    ensures var w := WindowOf(line, rate, length).value;
            var samples := w.end / 2 - w.start / 2;
            && w.start / 2 == (if line.startMs >= 0 then line.startMs * rate / 1000 else 0)
            && w.end / 2 == (line.startMs + line.durationMs) * rate / 1000
            && (if line.startMs >= 0 then -1000 else -2000) < samples * 1000 - line.durationMs * rate < 1000
  {
    var a, b := line.startMs * rate, (line.startMs + line.durationMs) * rate;
    WindowAt(line, rate, length);
    assert b == a + line.durationMs * rate;
    Sign(line.startMs, rate);
    ThousandthBounds(a);
    ThousandthBounds(b);
  }

  lemma Sign(a: int, rate: int)
    requires rate > 0
    ensures a >= 0 <==> a * rate >= 0
  {}

  // ---------- clips ----------

  /** encodePCM. */
  method EncodePcm(pcm: Bytes, rate: int) returns (r: Result<Bytes>)
    ensures r == Encoded(Audio(rate, Decode(pcm)))
  {
    var samples := new Sample[|pcm| / 2](_ => 0);
    for i := 0 to samples.Length
      invariant forall k :: 0 <= k < i ==> samples[k] == ToSample(pcm[2*k], pcm[2*k+1])
    {
      samples[i] := ToSample(pcm[2*i], pcm[2*i+1]);
    }
    assert samples[..] == Decode(pcm);
    r := Encode(Audio(rate, samples[..]));
  }

  lemma DecodeWindow(pcm: Bytes, w: Window)
    requires w.start <= w.end <= |pcm| && w.start % 2 == 0 && w.end % 2 == 0
    ensures Decode(pcm[w.start..w.end]) == Decode(pcm)[w.start/2..w.end/2]
  {}

  /** If the session fits into a file, so does every clip of it; reading the clip back gives exactly
      the samples of its window. */
  lemma ClipDecodes(pcm: Bytes, rate: int, line: Line)
    requires 0 < rate < TWO32 && |pcm| <= MAX_DATA && WindowOf(line, rate, |pcm|).Some?
    ensures var w := WindowOf(line, rate, |pcm|).value;
            var clip := Encoded(Audio(rate, Decode(pcm[w.start..w.end])));
            clip.Ok? && Parsed(clip.value) == Ok(Audio(rate, Decode(pcm)[w.start/2..w.end/2]))
  {
    var w := WindowOf(line, rate, |pcm|).value;
    var audio := Audio(rate, Decode(pcm[w.start..w.end]));
    DecodeWindow(pcm, w);
    Encodes(audio);
    RoundTrip(audio);
  }

  lemma Encodes(audio: Audio)
    ensures Encoded(audio).Ok? <==> audio.rate > 0 && 0 < 2 * |audio.samples| <= MAX_DATA
  {}

  /** Lines that meet end to start give clips that follow one another without gap or overlap. */
  lemma MeetingLines(pcm: Bytes, rate: int, first: Line, second: Line)
    requires WindowOf(first, rate, |pcm|).Some? && WindowOf(second, rate, |pcm|).Some?
    requires second.startMs == first.startMs + first.durationMs
    ensures var v, w := WindowOf(first, rate, |pcm|).value, WindowOf(second, rate, |pcm|).value;
            && v.end == w.start
            && Decode(pcm[v.start..v.end]) + Decode(pcm[w.start..w.end]) == Decode(pcm[v.start..w.end])
  {
    WindowAt(first, rate, |pcm|);
    WindowAt(second, rate, |pcm|);
    JoinWindows(pcm, WindowOf(first, rate, |pcm|).value, WindowOf(second, rate, |pcm|).value);
  }

  lemma WindowAt(line: Line, rate: int, length: nat)
    requires WindowOf(line, rate, length).Some?
    ensures WindowOf(line, rate, length).value.start == ByteOffset(line.startMs, rate)
    ensures WindowOf(line, rate, length).value.end == ByteOffset(line.startMs + line.durationMs, rate)
  {}

  lemma JoinWindows(pcm: Bytes, v: Window, w: Window)
    requires v.start <= v.end == w.start <= w.end <= |pcm|
    requires v.start % 2 == 0 && v.end % 2 == 0 && w.end % 2 == 0
    ensures Decode(pcm[v.start..v.end]) + Decode(pcm[w.start..w.end]) == Decode(pcm[v.start..w.end])
  {
    DecodeWindow(pcm, v);
    DecodeWindow(pcm, w);
    DecodeWindow(pcm, Window(v.start, w.end));
  }

  // ---------- the recorder ----------

  /** Where a recording is stored; `id` is the identifier of the session. */
  datatype File = SessionFile(id: int) | LineFile(id: int, index: nat)

  /** A row of the manifest: what was recorded, its text, duration and offset in seconds. */
  datatype Entry = Entry(file: File, text: string, duration: real, offset: real, rate: int)

  function SessionEntry(id: int, text: string, pcm: Bytes, rate: int): Entry {
    Entry(SessionFile(id), text, if rate <= 0 then 0.0 else (|pcm| / 2) as real / rate as real, 0.0, rate)
  }

  function LineEntry(id: int, index: nat, line: Line, rate: int): Entry {
    Entry(LineFile(id, index), line.text, line.durationMs as real / 1000.0, line.startMs as real / 1000.0, rate)
  }

  /** The row of a session: all its samples at its rate, from the beginning. */
  lemma SessionInNumbers(id: int, text: string, pcm: Bytes, rate: int)
    ensures var e := SessionEntry(id, text, pcm, rate);
            && e.file == SessionFile(id) && e.text == text && e.offset == 0.0 && e.rate == rate
            && e.duration * rate as real == if rate > 0 then (|pcm| / 2) as real else 0.0 * rate as real
  {}

  function ClipOf(pcm: Bytes, rate: int, w: Window): Result<Bytes>
    requires w.start <= w.end <= |pcm|
  {
    Encoded(Audio(rate, Decode(pcm[w.start..w.end])))
  }

  /** The row of a line, if it is recorded. */
  function LineRow(id: int, index: nat, line: Line, rate: int, length: nat): seq<Entry> {
    if WindowOf(line, rate, length).None? then [] else [LineEntry(id, index, line, rate)]
  }

  /** The store with the clip of a line, if it is recorded. */
  function WithClip(files: map<File, Bytes>, id: int, index: nat, line: Line, pcm: Bytes, rate: int): map<File, Bytes> {
    var w := WindowOf(line, rate, |pcm|);
    if w.None? || ClipOf(pcm, rate, w.value).Err? then files
    else files[LineFile(id, index) := ClipOf(pcm, rate, w.value).value]
  }

  /** The rows and the store for the first n lines. */
  function LineRows(id: int, lines: seq<Line>, n: nat, rate: int, length: nat): seq<Entry>
    requires n <= |lines|
  {
    if n == 0 then [] else LineRows(id, lines, n - 1, rate, length) + LineRow(id, n - 1, lines[n-1], rate, length)
  }

  function WithClips(files: map<File, Bytes>, id: int, lines: seq<Line>, n: nat, pcm: Bytes, rate: int):
    map<File, Bytes>
    requires n <= |lines|
  {
    if n == 0 then files else WithClip(WithClips(files, id, lines, n - 1, pcm, rate), id, n - 1, lines[n-1], pcm, rate)
  }

  /** A call of Finish: the audio of the session and the arguments. */
  datatype Attempt = Attempt(id: int, pcm: Bytes, text: string, lines: seq<Line>)

  datatype Finished = Entries(entries: seq<Entry>) | Failed

  /** The store with the session's file and the clips of the first n lines. */
  function Stored(files: map<File, Bytes>, a: Attempt, n: nat, rate: int): map<File, Bytes>
    requires n <= |a.lines| && Encoded(Audio(rate, Decode(a.pcm))).Ok?
  {
    WithClips(files[SessionFile(a.id) := Encoded(Audio(rate, Decode(a.pcm))).value], a.id, a.lines, n, a.pcm, rate)
  }

  /** What an attempt may leave behind: without audio nothing; after success the session and exactly
      the clips of the lines whose windows lie within it, listed by one row each; after a failure the
      old manifest and at most the session and the clips of a prefix of the lines. */
  ghost predicate Leaves(r: Finished, a: Attempt, rate: int, oldRows: seq<Entry>, oldFiles: map<File, Bytes>,
                         rows: seq<Entry>, files: map<File, Bytes>)
  {
    if a.pcm == [] then r == Entries([]) && rows == oldRows && files == oldFiles
    else if r.Failed? then
      && rows == oldRows
      && (files == oldFiles ||
          (Encoded(Audio(rate, Decode(a.pcm))).Ok?
           && exists n: nat :: n <= |a.lines| && files == Stored(oldFiles, a, n, rate)))
    else
      && Encoded(Audio(rate, Decode(a.pcm))).Ok?
      && r.entries == [SessionEntry(a.id, a.text, a.pcm, rate)] + LineRows(a.id, a.lines, |a.lines|, rate, |a.pcm|)
      && rows == oldRows + r.entries
      && files == Stored(oldFiles, a, |a.lines|, rate)
  }

  class Recorder {
    var files: map<File, Bytes>
    var manifest: seq<Entry>
    /** The calls of Finish so far. */
    ghost var attempts: seq<Attempt>

    /** writeFile: all of the file or nothing. */
    method WriteFile(file: File, data: Bytes) returns (ok: bool)
      modifies this`files
      ensures files == if ok then old(files)[file := data] else old(files)
    {
      ok := *;
      if ok { files := files[file := data]; }
    }

    /** append: all rows in one call. */
    method Append(rows: seq<Entry>) returns (ok: bool)
      modifies this`manifest
      ensures manifest == if ok then old(manifest) + rows else old(manifest)
    {
      ok := *;
      if ok { manifest := manifest + rows; }
    }
  }

  class Session {
    const recorder: Recorder
    const rate: int
    var pcm: Bytes

    constructor (recorder: Recorder, rate: int)
      ensures this.recorder == recorder && this.rate == rate && pcm == []
    {
      this.recorder, this.rate, pcm := recorder, rate, [];
    }

    method Append(data: Bytes)
      modifies this`pcm
      ensures pcm == old(pcm) + data
    {
      if |data| == 0 {
        assert pcm + data == pcm;
        return;
      }
      pcm := pcm + data;
    }

    /** The body of the loop in Finish: `row` is the new row, if the line is recorded. */
    method RecordLine(id: int, i: nat, line: Line) returns (ok: bool, row: seq<Entry>)
      modifies recorder`files
      ensures ok ==> row == LineRow(id, i, line, rate, |pcm|)
      ensures ok ==> WindowOf(line, rate, |pcm|).Some? ==> ClipOf(pcm, rate, WindowOf(line, rate, |pcm|).value).Ok?
      ensures recorder.files == if ok then WithClip(old(recorder.files), id, i, line, pcm, rate)
              else old(recorder.files)
    {
      if line.text == "" || line.durationMs <= 0 { return true, []; }
      var start := ByteOffset(line.startMs, rate);
      var end := ByteOffset(line.startMs + line.durationMs, rate);
      if start < 0 || end > |pcm| || end <= start { return true, []; }
      var clip := EncodePcm(pcm[start..end], rate);
      if clip.Err? { return false, []; }
      ok := recorder.WriteFile(LineFile(id, i), clip.value);
      row := [LineEntry(id, i, line, rate)];
    }

    /** Rows enter the manifest only when everything was written. */
    method Finish(id: int, text: string, lines: seq<Line>) returns (r: Finished)
      modifies recorder
      ensures recorder.attempts == old(recorder.attempts) + [Attempt(id, pcm, text, lines)]
      ensures Leaves(r, Attempt(id, pcm, text, lines), rate, old(recorder.manifest), old(recorder.files),
                     recorder.manifest, recorder.files)
    {
      ghost var attempt := Attempt(id, pcm, text, lines);
      recorder.attempts := recorder.attempts + [attempt];
      if |pcm| == 0 { return Entries([]); }
      var wav := EncodePcm(pcm, rate);
      if wav.Err? { return Failed; }
      ghost var before := recorder.files;
      var ok := recorder.WriteFile(SessionFile(id), wav.value);
      if !ok { return Failed; }
      var entries := [SessionEntry(id, text, pcm, rate)];
      ghost var rows: seq<Entry>, store := [], recorder.files;
      for i := 0 to |lines|
        invariant recorder.manifest == old(recorder.manifest)
        invariant recorder.attempts == old(recorder.attempts) + [attempt]
        invariant rows == LineRows(id, lines, i, rate, |pcm|) && store == Stored(before, attempt, i, rate)
        invariant entries == [SessionEntry(id, text, pcm, rate)] + rows && recorder.files == store
      {
        var row;
        ok, row := RecordLine(id, i, lines[i]);
        if !ok { return Failed; }
        entries := entries + row;
        rows, store := rows + row, WithClip(store, id, i, lines[i], pcm, rate);
      }
      ok := recorder.Append(entries);
      if !ok { return Failed; }
      return Entries(entries);
    }
  }

  /** A row of the manifest and the line it stands for, in numbers. */
  ghost predicate IsRowOf(e: Entry, id: int, index: nat, line: Line, rate: int) {
    && e.file == LineFile(id, index) && e.text == line.text && e.rate == rate
    && e.duration * 1000.0 == line.durationMs as real && e.offset * 1000.0 == line.startMs as real
  }

  ghost predicate AreRowsOf(rows: seq<Entry>, id: int, at: seq<nat>, lines: seq<Line>, rate: int) {
    |rows| == |at| && forall j :: 0 <= j < |at| ==> at[j] < |lines| && IsRowOf(rows[j], id, at[j], lines[at[j]], rate)
  }

  lemma OneRowMore(rows: seq<Entry>, id: int, at: seq<nat>, lines: seq<Line>, rate: int, n: nat)
    requires AreRowsOf(rows, id, at, lines, rate) && n < |lines|
    ensures AreRowsOf(rows + [LineEntry(id, n, lines[n], rate)], id, at + [n], lines, rate)
  {}

  /** The places of the recorded lines among the first n. */
  ghost predicate AreRecorded(at: seq<nat>, lines: seq<Line>, n: nat, rate: int, length: nat)
    requires n <= |lines|
  {
    PlacesBelow(at, n) && forall i: nat :: i < n ==> (i in at <==> WindowOf(lines[i], rate, length).Some?)
  }

  function Recorded(lines: seq<Line>, n: nat, rate: int, length: nat): seq<nat>
    requires n <= |lines|
  {
    if n == 0 then []
    else
      var at := Recorded(lines, n - 1, rate, length);
      if WindowOf(lines[n-1], rate, length).Some? then at + [n - 1] else at
  }

  lemma {:induction false} RecordedPlaces(lines: seq<Line>, n: nat, rate: int, length: nat)
    requires n <= |lines|
    ensures AreRecorded(Recorded(lines, n, rate, length), lines, n, rate, length)
  {
    if n > 0 {
      RecordedPlaces(lines, n - 1, rate, length);
      OnePlaceMore(Recorded(lines, n - 1, rate, length), n - 1);
    }
  }

  lemma {:induction false} RecordedRows(id: int, lines: seq<Line>, n: nat, rate: int, length: nat)
    requires n <= |lines|
    ensures AreRowsOf(LineRows(id, lines, n, rate, length), id, Recorded(lines, n, rate, length), lines, rate)
  {
    if n > 0 {
      RecordedRows(id, lines, n - 1, rate, length);
      var rows := LineRows(id, lines, n - 1, rate, length);
      OneRowMore(rows, id, Recorded(lines, n - 1, rate, length), lines, rate, n - 1);
      assert rows + [] == rows;
    }
  }

  /** The manifest has one row for every recorded line, in their order, and no other. */
  lemma RowsInOrder(id: int, lines: seq<Line>, rate: int, length: nat) returns (at: seq<nat>)
    ensures AreRowsOf(LineRows(id, lines, |lines|, rate, length), id, at, lines, rate)
    ensures PlacesBelow(at, |lines|)
    ensures forall i: nat :: i < |lines| ==> (i in at <==> WindowOf(lines[i], rate, length).Some?)
  {
    at := Recorded(lines, |lines|, rate, length);
    RecordedPlaces(lines, |lines|, rate, length);
    RecordedRows(id, lines, |lines|, rate, length);
  }

  /** In the store after Finish every recorded line has its clip, whatever the other lines are. */
  lemma {:induction false} ClipsInStore(files: map<File, Bytes>, id: int, lines: seq<Line>, n: nat, pcm: Bytes,
                                        rate: int,
                                        i: nat, w: Window)
    requires i < n <= |lines| && WindowOf(lines[i], rate, |pcm|) == Some(w)
    ensures var store, clip := WithClips(files, id, lines, n, pcm, rate), ClipOf(pcm, rate, w);
            clip.Ok? ==> LineFile(id, i) in store && store[LineFile(id, i)] == clip.value
  {
    if i < n - 1 && ClipOf(pcm, rate, w).Ok? {
      ClipsInStore(files, id, lines, n - 1, pcm, rate, i, w);
      OneClip(WithClips(files, id, lines, n - 1, pcm, rate), id, n - 1, lines[n-1], pcm, rate, i);
    }
  }

  lemma OneClip(files: map<File, Bytes>, id: int, index: nat, line: Line, pcm: Bytes, rate: int, i: nat)
    requires i != index && LineFile(id, i) in files
    ensures var store := WithClip(files, id, index, line, pcm, rate);
            LineFile(id, i) in store && store[LineFile(id, i)] == files[LineFile(id, i)]
  {}
}
