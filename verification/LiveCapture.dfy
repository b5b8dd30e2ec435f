/** The capture of a live transcription session by its message loop. */
module LiveCapture {
  import opened Basics
  import opened Wav
  import opened WavWriters
  import opened Corpus
  import Words

  datatype LiveLine = LiveLine(text: string, startMs: int, durationMs: int, complete: bool)

  /** strings.TrimSpace leaves nothing of the text. */
  predicate Blank(text: string) { forall c :: c in text ==> Words.IsSpace(c) }

  predicate Settled(l: LiveLine) { l.complete && !Blank(l.text) }

  function CorpusLinesOf(lines: seq<LiveLine>): seq<Line> {
    if |lines| == 0 then []
    else
      var l := lines[|lines|-1];
      CorpusLinesOf(lines[..|lines|-1]) + if Settled(l) then [Line(l.text, l.startMs, l.durationMs)] else []
  }

  ghost predicate AreTaken(kept: seq<Line>, at: seq<nat>, lines: seq<LiveLine>) {
    |kept| == |at| && forall j :: 0 <= j < |at| ==>
      at[j] < |lines| && kept[j].text == lines[at[j]].text && kept[j].startMs == lines[at[j]].startMs
      && kept[j].durationMs == lines[at[j]].durationMs
  }

  lemma OneLineMore(kept: seq<Line>, at: seq<nat>, lines: seq<LiveLine>)
    requires |lines| > 0 && AreTaken(kept, at, lines[..|lines|-1])
    ensures var n, l := |lines| - 1, lines[|lines|-1];
            AreTaken(kept, at, lines) && AreTaken(kept + [Line(l.text, l.startMs, l.durationMs)], at + [n], lines)
  {}

  /** The lines that are kept: the complete ones with a character that is not white space, in their
      order and unchanged. */
  lemma {:induction false} KeptLines(lines: seq<LiveLine>) returns (at: seq<nat>)
    ensures AreTaken(CorpusLinesOf(lines), at, lines) && PlacesBelow(at, |lines|)
    ensures forall i: nat :: i < |lines| ==>
              (i in at <==> lines[i].complete && exists c :: c in lines[i].text && !Words.IsSpace(c))
  {
    at := [];
    if |lines| > 0 {
      var n, front := |lines| - 1, lines[..|lines|-1];
      at := KeptLines(front);
      OnePlaceMore(at, n);
      OneLineMore(CorpusLinesOf(front), at, lines);
      forall i: nat | i < n
        ensures i in at <==> lines[i].complete && exists c :: c in lines[i].text && !Words.IsSpace(c)
      {
        assert lines[i] == front[i];
      }
      assert Settled(lines[n]) <==> lines[n].complete && exists c :: c in lines[n].text && !Words.IsSpace(c);
      at := if Settled(lines[n]) then at + [n] else at;
    }
  }

  method CorpusLines(lines: seq<LiveLine>) returns (out: seq<Line>)
    ensures out == CorpusLinesOf(lines)
  {
    out := [];
    for i := 0 to |lines|
      invariant out == CorpusLinesOf(lines[..i])
    {
      var line := lines[i];
      assert lines[..i+1][..i] == lines[..i];
      if !line.complete || Blank(line.text) { continue; }
      out := out + [Line(line.text, line.startMs, line.durationMs)];
    }
    assert lines[..|lines|] == lines;
  }

  datatype Update = Update(text: string, lines: seq<LiveLine>, changed: bool)

  /** A message with what the provider and the connection make of it: no update is an error of the
      provider, `sent` tells whether the answer could be written. */
  datatype Message =
    | Audio(payload: Bytes, update: Option<Update>, sent: bool)
    | Commit(update: Option<Update>, sent: bool)
    | Ping(sent: bool)
    | Invalid

  datatype Outcome = Open | Closed | Committed(text: string, lines: seq<LiveLine>)

  /** The variables of the loop; no session means no capture. */
  datatype Live = Live(session: Option<Bytes>, post: Bytes, lastText: string, lastLines: seq<LiveLine>,
                       outcome: Outcome)

  datatype Setup = Setup(capture: bool, postProcess: bool, maxUpload: int)

  function Start(setup: Setup): Live {
    Live(if setup.capture then Some([]) else None, [], "", [], Open)
  }

  /** Post-processing refuses the payload. */
  predicate Refuses(setup: Setup, s: Live, payload: Bytes) {
    setup.postProcess && |s.post| + |payload| + 44 > setup.maxUpload
  }

  function Step(setup: Setup, s: Live, m: Message): Live {
    match m
    case Audio(payload, update, sent) =>
      if Refuses(setup, s, payload) then s.(outcome := Closed)
      else
        var heard := Live(
          if s.session.None? || |s.session.value| + |payload| > setup.maxUpload then None
            else Some(s.session.value + payload),
          if setup.postProcess then s.post + payload else s.post, s.lastText, s.lastLines, Open);
        if update.None? then heard.(outcome := Closed)
        else
          var u := update.value;
          var noted := if u.text != "" then heard.(lastText := u.text, lastLines := u.lines) else heard;
          if u.changed && !sent then noted.(outcome := Closed) else noted
    case Commit(update, sent) =>
      if update.None? || !sent then s.(outcome := Closed)
        else s.(outcome := Committed(update.value.text, update.value.lines))
    case Ping(sent) => if sent then s else s.(outcome := Closed)
    case Invalid => s.(outcome := Closed)
  }

  /** The loop after the first n messages. */
  function Run(setup: Setup, messages: seq<Message>, n: nat): Live
    requires n <= |messages|
  {
    if n == 0 then Start(setup)
    else
      var s := Run(setup, messages, n - 1);
      if s.outcome.Open? then Step(setup, s, messages[n-1]) else s
  }

  /** All audio that the loop has taken from the first n messages. */
  function Heard(setup: Setup, messages: seq<Message>, n: nat): Bytes
    requires n <= |messages|
  {
    if n == 0 then []
    else
      var s, m := Run(setup, messages, n - 1), messages[n-1];
      Heard(setup, messages, n - 1) + if s.outcome.Open? && m.Audio? && !Refuses(setup, s, m.payload) then m.payload
        else []
  }

  /** The buffers hold all the audio so far, or nothing. */
  ghost predicate Whole(setup: Setup, s: Live, heard: Bytes) {
    && (s.session.Some? ==> setup.capture && s.session.value == heard)
    && (setup.capture && 0 <= setup.maxUpload ==> (s.session.Some? <==> |heard| <= setup.maxUpload))
    && s.post == (if setup.postProcess then heard else [])
    && (setup.postProcess && 0 <= setup.maxUpload ==> |heard| <= setup.maxUpload)
  }

  lemma StepKeepsWhole(setup: Setup, s: Live, heard: Bytes, m: Message)
    requires Whole(setup, s, heard)
    ensures Whole(setup, Step(setup, s, m), heard + if m.Audio? && !Refuses(setup, s, m.payload) then m.payload else [])
  {
    if !m.Audio? || Refuses(setup, s, m.payload) { assert heard + [] == heard; }
  }

  /** The captured buffer is all the audio so far, or capture was dropped for good; it is dropped
      exactly when the audio exceeds the limit, and never while post-processing keeps the same audio. */
  lemma {:induction false} AllOrNothing(setup: Setup, messages: seq<Message>, n: nat)
    requires n <= |messages|
    ensures Whole(setup, Run(setup, messages, n), Heard(setup, messages, n))
  {
    if n > 0 {
      AllOrNothing(setup, messages, n - 1);
      var s := Run(setup, messages, n - 1);
      if s.outcome.Open? { StepKeepsWhole(setup, s, Heard(setup, messages, n - 1), messages[n-1]); }
    }
  }

  /** Capture that was dropped never comes back. */
  lemma {:induction false} DroppedForGood(setup: Setup, messages: seq<Message>, i: nat, n: nat)
    requires i <= n <= |messages| && Run(setup, messages, i).session.None?
    ensures Run(setup, messages, n).session.None?
  {
    if i < n { DroppedForGood(setup, messages, i, n - 1); }
  }

  /** The calls of Finish that a loop owes: none without a session, else one with the final text after
      a commit and the last text otherwise. */
  function AttemptsOf(s: Live, id: int): seq<Attempt> {
    if s.session.None? then []
    else if s.outcome.Committed? then [Attempt(id, s.session.value, s.outcome.text, CorpusLinesOf(s.outcome.lines))]
    else [Attempt(id, s.session.value, s.lastText, CorpusLinesOf(s.lastLines))]
  }

  // ---------- what the messages say ----------

  /** Message k reaches an open loop, which does not refuse it: with post-processing a file of all the
      audio, with its header of 44 bytes, has to stay within the limit. */
  ghost predicate Taken(setup: Setup, messages: seq<Message>, k: nat)
    requires k < |messages|
  {
    && Run(setup, messages, k).outcome.Open? && messages[k].Audio?
    && !(setup.postProcess && |Heard(setup, messages, k)| + |messages[k].payload| + 44 > setup.maxUpload)
  }

  /** How a message changes the audio so far, and what ends the loop. */
  lemma LoopGoesOn(setup: Setup, messages: seq<Message>, k: nat)
    requires k < |messages|
    ensures Heard(setup, messages, k + 1) ==
            Heard(setup, messages, k) + if Taken(setup, messages, k) then messages[k].payload else []
    ensures Run(setup, messages, k).outcome.Open? ==>
              (Run(setup, messages, k + 1).outcome.Open? <==>
                match messages[k]
                case Audio(_, update, sent) =>
                  Taken(setup, messages, k) && update.Some? && (update.value.changed ==> sent)
                case Ping(sent) => sent
                case _ => false)
    ensures Run(setup, messages, k).outcome.Open? ==>
              (Run(setup, messages, k + 1).outcome.Committed? <==>
                messages[k].Commit? && messages[k].update.Some? && messages[k].sent)
  {
    AllOrNothing(setup, messages, k);
  }

  /** An audio message that is taken and brings text. */
  ghost predicate Tells(setup: Setup, messages: seq<Message>, k: nat)
    requires k < |messages|
  {
    Taken(setup, messages, k) && messages[k].update.Some? && messages[k].update.value.text != ""
  }

  /** The text and the lines for a session that breaks off are those of the last message that told
      some, */
  lemma {:induction false} LastTold(setup: Setup, messages: seq<Message>, i: nat, n: nat)
    requires i < n <= |messages| && Tells(setup, messages, i)
    requires forall k :: i < k < n ==> !Tells(setup, messages, k)
    ensures var s, u := Run(setup, messages, n), messages[i].update.value;
            s.lastText == u.text && s.lastLines == u.lines
  {
    ToldNow(setup, messages, n - 1);
    if i < n - 1 { LastTold(setup, messages, i, n - 1); }
  }

  /** and empty if there was none. */
  lemma {:induction false} NothingTold(setup: Setup, messages: seq<Message>, n: nat)
    requires n <= |messages| && forall k :: 0 <= k < n ==> !Tells(setup, messages, k)
    ensures Run(setup, messages, n).lastText == "" && Run(setup, messages, n).lastLines == []
  {
    if n > 0 {
      ToldNow(setup, messages, n - 1);
      NothingTold(setup, messages, n - 1);
    }
  }

  lemma ToldNow(setup: Setup, messages: seq<Message>, k: nat)
    requires k < |messages|
    ensures var s, t := Run(setup, messages, k), Run(setup, messages, k + 1);
            if Tells(setup, messages, k)
            then t.lastText == messages[k].update.value.text && t.lastLines == messages[k].update.value.lines
            else t.lastText == s.lastText && t.lastLines == s.lastLines
  {
    AllOrNothing(setup, messages, k);
  }

  /** A session that was committed at message k is recorded with the text and lines of that commit, one
      that breaks off with the last ones told; a session is recorded unless its audio exceeds the limit. */
  lemma RecordedOnce(setup: Setup, messages: seq<Message>, id: int)
    requires 0 <= setup.maxUpload
    ensures var n, heard := |messages|, Heard(setup, messages, |messages|);
            var s, calls := Run(setup, messages, n), AttemptsOf(Run(setup, messages, n), id);
            && |calls| == (if setup.capture && |heard| <= setup.maxUpload then 1 else 0)
            && forall a :: a in calls ==>
                 && a.id == id && a.pcm == heard
                 && (forall k :: 0 <= k < n && Run(setup, messages, k).outcome.Open? && messages[k].Commit?
                                 && messages[k].update.Some? && messages[k].sent ==>
                       a.text == messages[k].update.value.text
                       && a.lines == CorpusLinesOf(messages[k].update.value.lines))
                 && (!s.outcome.Committed? ==> a.text == s.lastText && a.lines == CorpusLinesOf(s.lastLines))
  {
    var n := |messages|;
    AllOrNothing(setup, messages, n);
    forall k | 0 <= k < n && Run(setup, messages, k).outcome.Open? && messages[k].Commit?
               && messages[k].update.Some? && messages[k].sent
      ensures var u := messages[k].update.value; Run(setup, messages, n).outcome == Committed(u.text, u.lines)
    {
      Stays(setup, messages, k + 1, n);
    }
  }

  /** What at most one call of Finish leaves behind. */
  ghost predicate Left(calls: seq<Attempt>, result: Finished, oldRows: seq<Entry>, oldFiles: map<File, Bytes>,
                       rows: seq<Entry>, files: map<File, Bytes>)
  {
    if calls == [] then rows == oldRows && files == oldFiles
    else |calls| == 1 && Leaves(result, calls[0], 16000, oldRows, oldFiles, rows, files)
  }

  /** A loop that has ended does not move any more. */
  lemma {:induction false} Stays(setup: Setup, messages: seq<Message>, i: nat, n: nat)
    requires i <= n <= |messages| && !Run(setup, messages, i).outcome.Open?
    ensures Run(setup, messages, n) == Run(setup, messages, i) && Heard(setup, messages, n) == Heard(setup, messages, i)
  {
    if i < n { Stays(setup, messages, i, n - 1); }
  }

  /** The session object holds what the state says. */
  ghost predicate Holds(session: Session?, recorder: Recorder, s: Live)
    reads session
  {
    if session == null then s.session.None?
    else session.recorder == recorder && session.rate == 16000 && s.session == Some(session.pcm)
  }

  /** The capture of one audio message. */
  method Capture(session: Session?, setup: Setup, payload: Bytes) returns (now: Session?)
    modifies if session == null then {} else {session}
    ensures now == null || now == session
    ensures now != null <==> session != null && |old(session.pcm)| + |payload| <= setup.maxUpload
    ensures now != null ==> now.pcm == old(session.pcm) + payload
  {
    if session == null { return null; }
    if |session.pcm| + |payload| > setup.maxUpload { return null; }
    session.Append(payload);
    return session;
  }

  /** Finish with the settled lines. */
  method Record(session: Session, id: int, text: string, lines: seq<LiveLine>) returns (result: Finished)
    requires session.rate == 16000
    modifies session.recorder
    ensures var recorder, call := session.recorder, Attempt(id, session.pcm, text, CorpusLinesOf(lines));
            && recorder.attempts == old(recorder.attempts) + [call]
            && Left([call], result, old(recorder.manifest), old(recorder.files), recorder.manifest, recorder.files)
  {
    var settled := CorpusLines(lines);
    result := session.Finish(id, text, settled);
  }

  /** The message loop and its deferred recording. Finish, which logs its calls, is called at most
      once on every path, with all the audio taken; the manifest and the files are what that call
      leaves. `submitted` is the file handed to the post-processing model. */
  method LiveTranscription(setup: Setup, messages: seq<Message>, recorder: Recorder, id: int)
    returns (submitted: Option<Bytes>, ghost result: Finished)
    modifies recorder
    ensures recorder.attempts == old(recorder.attempts) + AttemptsOf(Run(setup, messages, |messages|), id)
    ensures Left(AttemptsOf(Run(setup, messages, |messages|), id), result, old(recorder.manifest), old(recorder.files),
                 recorder.manifest, recorder.files)
    ensures forall a ::
            a in AttemptsOf(Run(setup, messages, |messages|), id) ==> a.pcm == Heard(setup, messages, |messages|)
    ensures var wav := ServerWavOf(Run(setup, messages, |messages|).post, 16000, 1);
            submitted == if setup.postProcess && Run(setup, messages, |messages|).outcome.Committed? && wav.Ok?
                         then Some(wav.value) else None
    ensures submitted.Some? ==> Ok(submitted.value) == ServerWavOf(Heard(setup, messages, |messages|), 16000, 1)
  {
    AllOrNothing(setup, messages, |messages|);
    var post: Bytes := [];
    var session: Session? := null;
    var lastText: string, lastLines: seq<LiveLine> := "", [];
    var captured, open := false, true;
    submitted, result := None, Failed;
    if setup.capture { session := new Session(recorder, 16000); }
    var i := 0;
    ghost var s, calls: seq<Attempt> := Start(setup), [];
    while i < |messages| && open
      invariant i <= |messages| && s == Run(setup, messages, i) && (open <==> s.outcome.Open?)
      invariant session != null ==> fresh(session)
      invariant Holds(session, recorder, s) && post == s.post && lastText == s.lastText && lastLines == s.lastLines
      invariant captured <==> s.outcome.Committed? && s.session.Some?
      invariant calls == (if captured then AttemptsOf(s, id) else [])
                && recorder.attempts == old(recorder.attempts) + calls
      invariant Left(calls, result, old(recorder.manifest), old(recorder.files), recorder.manifest, recorder.files)
      invariant var wav := ServerWavOf(s.post, 16000, 1);
                submitted == if setup.postProcess && s.outcome.Committed? && wav.Ok? then Some(wav.value) else None
    {
      var m := messages[i];
      s := Step(setup, s, m);
      i := i + 1;
      match m {
        case Audio(payload, update, sent) =>
          if setup.postProcess && |post| + |payload| + 44 > setup.maxUpload {
            open := false;
          } else {
            if setup.postProcess { post := post + payload; }
            session := Capture(session, setup, payload);
            if update.None? {
              open := false;
            } else {
              if update.value.text != "" {
                lastText, lastLines := update.value.text, update.value.lines;
              }
              if update.value.changed && !sent { open := false; }
            }
          }
        case Commit(update, sent) =>
          open := false;
          if update.Some? && sent {
            if session != null {
              captured := true;
              result := Record(session, id, update.value.text, update.value.lines);
              calls := AttemptsOf(s, id);
            }
            if setup.postProcess {
              var wav := ServerWav(post, 16000, 1);
              if wav.Ok? { submitted := Some(wav.value); }
            }
          }
        case Ping(sent) => open := sent;
        case Invalid => open := false;
      }
    }
    if !open { Stays(setup, messages, i, |messages|); }
    if session != null && !captured {
      result := Record(session, id, lastText, lastLines);
    }
  }
}
